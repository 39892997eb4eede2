/** The Go SDK's memoised matcher, and its agreement with the server's. */
module GoPatterns {
  import opened Wrappers
  import opened Text
  import opened Utf8
  import opened Patterns
  import opened GoBytes

  /** What the Go matcher decides, over bytes: a wildcard takes only valid UTF-8. */
  predicate GoMatches(tokens: seq<Token>, value: string)
    decreases |tokens|
  {
    if tokens == [] then value == ""
    else
      match tokens[0]
      case Literal(text) => StartsWith(value, text) && GoMatches(tokens[1..], value[|text|..])
      case Wildcard => exists j | 0 <= j <= |value| :: ValidUtf8(value[..j]) && GoMatches(tokens[1..], value[j..])
      case Capture(_) => exists j | 1 <= j <= |value| :: GoMatches(tokens[1..], value[j..])
  }

  /** One round of the loop of `tokenize`: the nearest special text found by a running minimum. */
  method GoNextToken(tail: string) returns (token: Token, n: nat)
    requires tail != ""
    ensures (token, n) == FirstToken(tail)
  {
    if tail[0] == '*' { return Wildcard, 1; }
    var start := CaptureOffset(tail);
    if start > 0 {
      var close := Find(tail, '}');
      if close.Some? && close.value > start { return Capture(tail[start..close.value]), close.value + 1; }
    }
    var end, specials, k := |tail|, [Find(tail, '*'), Find(tail, '{'), FindDollar(tail)], 0;
    while k < 3
      invariant 0 <= k <= 3 && 0 < end <= |tail|
      invariant k == 1 ==> end == Nearer(|tail|, specials[0])
      invariant k == 2 ==> end == Nearer(Nearer(|tail|, specials[0]), specials[1])
      invariant k == 3 ==> end == LiteralEnd(tail)
      invariant k == 0 ==> end == |tail|
    {
      if specials[k].Some? && 0 < specials[k].value < end { end := specials[k].value; }
      k := k + 1;
    }
    return Literal(tail[..end]), end;
  }

  /** The Go tokenizer is a second program for the same token list. */
  method GoTokenize(pattern: string) returns (out: seq<Token>)
    ensures out == TokensOf(pattern)
  {
    out := [];
    var i := 0;
    ghost var tail := pattern;
    while i < |pattern|
      invariant i <= |pattern| && tail == pattern[i..]
      invariant out + TokensOf(tail) == TokensOf(pattern)
    {
      var token, n := GoNextToken(pattern[i..]);
      TokenStep(out, tail, token, n, TokensOf(pattern));
      out := out + [token];
      tail := tail[n..];
      i := i + n;
    }
    assert tail == "";
  }

  /** The verdict at one position from the verdicts at the next token. */
  lemma StepMeaning(tokens: seq<Token>, value: string, t: nat, i: nat)
    requires t < |tokens| && i <= |value|
    ensures tokens[t].Literal? ==>
              var n := i + |tokens[t].text|;
              GoMatches(tokens[t..], value[i..])
              <==> StartsWith(value[i..], tokens[t].text) && GoMatches(tokens[t + 1..], value[n..])
    ensures !tokens[t].Literal? ==>
              var valid, first := tokens[t].Wildcard?, if tokens[t].Wildcard? then i else i + 1;
              GoMatches(tokens[t..], value[i..])
              <==> exists j | first <= j <= |value| ::
                     (valid ==> ValidUtf8(value[i..j])) && GoMatches(tokens[t + 1..], value[j..])
  {
    var v := value[i..];
    assert tokens[t..][0] == tokens[t] && tokens[t..][1..] == tokens[t + 1..];
    forall n | 0 <= n <= |v|
      ensures v[..n] == value[i..i + n] && v[n..] == value[i + n..]
    {
    }
    if tokens[t].Literal? {
      if StartsWith(v, tokens[t].text) {
        assert v[|tokens[t].text|..] == value[i + |tokens[t].text|..];
      }
    } else {
      var valid, first := tokens[t].Wildcard?, if tokens[t].Wildcard? then i else i + 1;
      if j :| first <= j <= |value| && (valid ==> ValidUtf8(value[i..j])) && GoMatches(tokens[t + 1..], value[j..]) {
        var n := j - i;
        assert v[..n] == value[i..j] && v[n..] == value[j..];
      }
      if GoMatches(tokens[t..], v) {
        if valid {
          var n :| 0 <= n <= |v| && ValidUtf8(v[..n]) && GoMatches(tokens[t + 1..], v[n..]);
          assert ValidUtf8(value[i..i + n]) && GoMatches(tokens[t + 1..], value[i + n..]);
        } else {
          var n :| 1 <= n <= |v| && GoMatches(tokens[t + 1..], v[n..]);
          assert GoMatches(tokens[t + 1..], value[i + n..]);
        }
      }
    }
  }

  class Matcher {
    const tokens: seq<Token>
    const value: string
    var memo: map<(nat, nat), bool>
    var seen: set<(nat, nat)>

    constructor (tokens: seq<Token>, value: string)
      ensures this.tokens == tokens && this.value == value && memo == map[] && seen == {}
    {
      this.tokens := tokens;
      this.value := value;
      memo := map[];
      seen := {};
    }

    predicate Truth(k: (nat, nat)) {
      k.0 <= |tokens| && k.1 <= |value| && GoMatches(tokens[k.0..], value[k.1..])
    }

    /** Answers that are already known for token positions from `t` on are right; positions
        before `t` may still be open. */
    ghost predicate Sane(t: nat)
      reads this
    {
      forall k | k in seen && k.0 >= t :: k in memo && memo[k] == Truth(k)
    }

    /** Positions before token `t` are as they were. */
    twostate predicate Kept(t: nat)
      reads this
    {
      && (forall k: (nat, nat) | k.0 < t :: k in seen <==> k in old(seen))
      && (forall k: (nat, nat) | k.0 < t && k in old(memo) :: k in memo && memo[k] == old(memo[k]))
    }

    /** The recursive closure of `matchPattern`. */
    method F(t: nat, i: nat) returns (ok: bool)
      requires t <= |tokens| && i <= |value| && Sane(t)
      modifies this
      ensures ok == Truth((t, i)) && Sane(t)
      ensures Kept(t)
      decreases |tokens| - t, 2
    {
      var key := (t, i);
      if key in seen {
        assert key in memo && memo[key] == Truth(key);
        return memo[key];
      }
      seen := seen + {key};
      assert Sane(t + 1);
      if t == |tokens| {
        assert tokens[t..] == [] && (value[i..] == "" <==> i == |value|);
        ok := i == |value|;
      } else {
        ok := Step(t, i);
      }
      assert ok == Truth(key);
      memo := memo[key := ok];
    }

    /** What `f` does at one token. */
    method Step(t: nat, i: nat) returns (ok: bool)
      requires t < |tokens| && i <= |value| && Sane(t + 1)
      modifies this
      ensures ok == Truth((t, i)) && Sane(t + 1)
      ensures Kept(t + 1)
      decreases |tokens| - t, 1
    {
      StepMeaning(tokens, value, t, i);
      match tokens[t]
      case Literal(text) =>
        ok := StartsWith(value[i..], text);
        if ok { ok := F(t + 1, i + |text|); }
      case Wildcard => ok := Scan(t, i, i, true);
      case Capture(_) => ok := Scan(t, i, i + 1, false);
    }

    /** The loop of a wildcard (`valid`) or a capture over the end of its piece. */
    method Scan(t: nat, i: nat, first: nat, valid: bool) returns (ok: bool)
      requires t < |tokens| && i <= first <= |value| + 1 && i <= |value| && Sane(t + 1)
      modifies this
      ensures ok <==> exists j | first <= j <= |value| ::
                        (valid ==> ValidUtf8(value[i..j])) && GoMatches(tokens[t + 1..], value[j..])
      ensures Sane(t + 1)
      ensures Kept(t + 1)
      decreases |tokens| - t, 0
    {
      ok := false;
      var j := first;
      while j <= |value|
        invariant first <= j <= |value| + 1 && Sane(t + 1)
        invariant Kept(t + 1)
        invariant forall m | first <= m < j ::
                    !((valid ==> ValidUtf8(value[i..m])) && GoMatches(tokens[t + 1..], value[m..]))
      {
        if !valid || ValidUtf8(value[i..j]) {
          ok := F(t + 1, j);
          if ok { return; }
        }
        j := j + 1;
      }
    }
  }

  /** `matchPattern`. */
  method MatchPattern(tokens: seq<Token>, value: string) returns (ok: bool)
    ensures ok == GoMatches(tokens, value)
  {
    var matcher := new Matcher(tokens, value);
    ok := matcher.F(0, 0);
    assert tokens[0..] == tokens && value[0..] == value;
  }

  // ---- agreement with the server --------------------------------------------------------------------

  /** The pieces of wildcards are valid UTF-8. */
  ghost predicate WildcardsValid(tokens: seq<Token>, pieces: seq<string>)
    requires |pieces| == |tokens|
  {
    forall i | 0 <= i < |tokens| && tokens[i].Wildcard? :: ValidUtf8(pieces[i])
  }

  lemma {:induction false} SplitsInGo(tokens: seq<Token>, value: string, pieces: seq<string>)
    requires Splits(tokens, value, pieces) && WildcardsValid(tokens, pieces)
    ensures GoMatches(tokens, value)
    decreases |tokens|
  {
    if tokens != [] {
      var rest := pieces[1..];
      assert forall i | 0 <= i < |rest| :: rest[i] == pieces[i + 1] && tokens[1..][i] == tokens[i + 1];
      SplitsInGo(tokens[1..], value[|pieces[0]|..], rest);
      assert value[..|pieces[0]|] == pieces[0];
    }
  }

  lemma {:induction false} GoSplits(tokens: seq<Token>, value: string) returns (pieces: seq<string>)
    requires GoMatches(tokens, value)
    ensures Splits(tokens, value, pieces) && WildcardsValid(tokens, pieces)
    decreases |tokens|
  {
    if tokens == [] {
      pieces := [];
    } else {
      var at;
      match tokens[0] {
        case Literal(text) => at := |text|;
        case Wildcard =>
          var j :| 0 <= j <= |value| && ValidUtf8(value[..j]) && GoMatches(tokens[1..], value[j..]);
          at := j;
        case Capture(_) =>
          var j :| 1 <= j <= |value| && GoMatches(tokens[1..], value[j..]);
          at := j;
      }
      var rest := GoSplits(tokens[1..], value[at..]);
      pieces := [value[..at]] + rest;
      assert pieces[1..] == rest;
      assert forall i | 1 <= i < |tokens| :: pieces[i] == rest[i - 1] && tokens[i] == tokens[1..][i - 1];
    }
  }

  ghost predicate HasGoSplit(tokens: seq<Token>, value: string) {
    exists pieces :: Splits(tokens, value, pieces) && WildcardsValid(tokens, pieces)
  }

  /** The Go matcher accepts exactly the bytes that split along the tokens with valid wildcard
      pieces. */
  lemma GoMatchIffSplit(tokens: seq<Token>, value: string)
    ensures GoMatches(tokens, value) <==> HasGoSplit(tokens, value)
  {
    if GoMatches(tokens, value) {
      var pieces := GoSplits(tokens, value);
    }
    if HasGoSplit(tokens, value) {
      var pieces :| Splits(tokens, value, pieces) && WildcardsValid(tokens, pieces);
      SplitsInGo(tokens, value, pieces);
    }
  }

  lemma {:induction false} AsciiPiecesAreValid(tokens: seq<Token>, value: string, pieces: seq<string>)
    requires IsAscii(value) && Splits(tokens, value, pieces)
    ensures WildcardsValid(tokens, pieces)
    decreases |tokens|
  {
    if tokens != [] {
      AsciiPiecesAreValid(tokens[1..], value[|pieces[0]|..], pieces[1..]);
      AsciiIsValid(value[..|pieces[0]|]);
      assert forall i | 1 <= i < |tokens| :: pieces[i] == pieces[1..][i - 1] && tokens[i] == tokens[1..][i - 1];
    }
  }

  /** On ASCII values the Go matcher and the server's matcher give the same verdict. */
  lemma GoAgreesOnAscii(pattern: string, value: string)
    requires IsAscii(value)
    ensures GoMatches(TokensOf(pattern), value) <==> Matches(pattern, value)
  {
    var tokens := TokensOf(pattern);
    if GoMatches(tokens, value) {
      var pieces := GoSplits(tokens, value);
      MatchIsComplete(tokens, value, pieces);
    }
    if Matches(pattern, value) {
      var pieces := MatchIsPreferredSplit(tokens, value);
      AsciiPiecesAreValid(tokens, value, pieces);
      SplitsInGo(tokens, value, pieces);
    }
  }

  // ---- beyond ASCII ------------------------------------------------------------------------------------

  predicate AllValid(pieces: seq<string>) { forall i | 0 <= i < |pieces| :: ValidUtf8(pieces[i]) }

  lemma {:induction false} SplitInBytes(tokens: seq<Token>, value: string, pieces: seq<string>)
    returns (bytes: seq<string>)
    requires Splits(tokens, value, pieces)
    ensures Splits(AllInBytes(tokens), Encoded(value), bytes) && AllValid(bytes)
    decreases |tokens|
  {
    if tokens == [] {
      bytes := [];
    } else {
      var piece, rest := pieces[0], value[|pieces[0]|..];
      bytes := SplitInBytes(tokens[1..], rest, pieces[1..]);
      assert value == piece + rest;
      EncodedConcat(piece, rest);
      EncodedIsValid(piece);
      BytesSplitMore(tokens, Encoded(piece), Encoded(rest), bytes);
      bytes := [Encoded(piece)] + bytes;
    }
  }

  lemma BytesSplitMore(tokens: seq<Token>, piece: string, rest: string, bytes: seq<string>)
    requires tokens != [] && Splits(AllInBytes(tokens[1..]), rest, bytes)
    requires tokens[0].Literal? ==> piece == Encoded(tokens[0].text)
    requires tokens[0].Capture? ==> piece != ""
    ensures Splits(AllInBytes(tokens), piece + rest, [piece] + bytes)
  {
    var all := AllInBytes(tokens);
    assert all[0] == InBytes(tokens[0]) && all[1..] == AllInBytes(tokens[1..]);
    assert (piece + rest)[..|piece|] == piece && (piece + rest)[|piece|..] == rest && ([piece] + bytes)[1..] == bytes;
  }

  /** A split of the bytes whose pieces are valid is a split into characters. */
  lemma {:induction false} ValidSplitIsSplit(tokens: seq<Token>, value: string, bytes: seq<string>)
    returns (pieces: seq<string>)
    requires Splits(AllInBytes(tokens), Encoded(value), bytes) && AllValid(bytes)
    ensures Splits(tokens, value, pieces)
    decreases |tokens|
  {
    if tokens == [] {
      pieces := [];
      EncodedIsInjective(value, "");
    } else {
      var all := AllInBytes(tokens);
      assert all[0] == InBytes(tokens[0]) && all[1..] == AllInBytes(tokens[1..]);
      var j := |bytes[0]|;
      var k := ValidPrefixIsWhole(value, j);
      if tokens[0].Literal? { EncodedIsInjective(tokens[0].text, value[..k]); }
      var rest := ValidSplitIsSplit(tokens[1..], value[k..], bytes[1..]);
      pieces := [value[..k]] + rest;
      assert pieces[1..] == rest;
    }
  }

  ghost predicate HasValidSplit(tokens: seq<Token>, bytes: string) {
    exists pieces :: Splits(tokens, bytes, pieces) && AllValid(pieces)
  }

  /** The server accepts a value exactly when its bytes split into valid pieces; the Go matcher asks
      that of wildcards only, so the two differ exactly where only a capture that ends within a
      character makes the pattern fit. */
  lemma ServerMatchIffValidSplit(pattern: string, value: string)
    ensures Matches(pattern, value) <==> HasValidSplit(TokensOf(Encoded(pattern)), Encoded(value))
  {
    TokensInBytes(pattern);
    var tokens := TokensOf(pattern);
    if Matches(pattern, value) {
      var pieces := MatchIsPreferredSplit(tokens, value);
      var bytes := SplitInBytes(tokens, value, pieces);
    }
    if HasValidSplit(AllInBytes(tokens), Encoded(value)) {
      var bytes :| Splits(AllInBytes(tokens), Encoded(value), bytes) && AllValid(bytes);
      var pieces := ValidSplitIsSplit(tokens, value, bytes);
      MatchIsComplete(tokens, value, pieces);
    }
  }

  /** For every value, in any script, the Go matcher accepts what the server accepts. */
  lemma ServerMatchHoldsInGo(pattern: string, value: string)
    requires Matches(pattern, value)
    ensures GoMatches(TokensOf(Encoded(pattern)), Encoded(value))
  {
    TokensInBytes(pattern);
    var pieces := MatchIsPreferredSplit(TokensOf(pattern), value);
    var bytes := SplitInBytes(TokensOf(pattern), value, pieces);
    SplitsInGo(AllInBytes(TokensOf(pattern)), Encoded(value), bytes);
  }

  /** The converse fails: two captures share the bytes of one character. */
  lemma GoSplitsCharacters()
    ensures GoMatches(TokensOf(Encoded("{a}{b}")), Encoded("\U{E9}")) && !Matches("{a}{b}", "\U{E9}")
  {
    TwoCaptures();
    TokensInBytes("{a}{b}");
    var e := "\U{E9}";
    var tokens := AllInBytes([Capture("a"), Capture("b")]);
    assert [Capture("a"), Capture("b")][1..] == [Capture("b")] && [Capture("b")][1..] == [];
    assert tokens == [InBytes(Capture("a")), InBytes(Capture("b"))];
    var last := [InBytes(Capture("b"))];
    assert tokens[1..] == last && last[1..] == [];
    assert e[1..] == "" && Encoded(e) == Bytes(e[0]) && |Bytes(e[0])| == 2;
    var bytes := Encoded(e);
    assert bytes[1..][1..] == "";
    assert GoMatches([], bytes[1..][1..]);
    assert GoMatches(last, bytes[1..]);
    OneCharacterIsNotTwo(e);
  }

  lemma OneCharacterIsNotTwo(e: string)
    requires |e| == 1
    ensures Match([Capture("a"), Capture("b")], e).None?
  {
    var tokens := [Capture("a"), Capture("b")];
    if Match(tokens, e).Some? {
      var pieces := MatchIsPreferredSplit(tokens, e);
    }
  }

  lemma TwoCaptures()
    ensures TokensOf("{a}{b}") == [Capture("a"), Capture("b")]
  {
    var s, t := "{a}{b}", "{b}";
    assert s[..2] == "{a" && t[..2] == "{b";
    FindIs(s, '}', 2);
    FindIs(t, '}', 2);
    assert FirstToken(s) == (Capture("a"), 3) by { assert s[1..2] == "a"; }
    assert FirstToken(t) == (Capture("b"), 3) by { assert t[1..2] == "b"; }
    assert s[3..] == t && t[3..] == "";
  }
}
