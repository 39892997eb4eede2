/** Exactly which patterns the Go SDK and the server match alike. */
module GoAgreement {
  import opened Utf8
  import opened Patterns
  import opened GoBytes
  import opened GoPatterns

  /** The tokens go on with a capture, possibly after wildcards. */
  predicate NextIsCapture(tokens: seq<Token>) {
    tokens != [] && (tokens[0].Capture? || (tokens[0].Wildcard? && NextIsCapture(tokens[1..])))
  }

  /** Two captures have nothing but wildcards between them. */
  predicate CapturesMeet(tokens: seq<Token>) {
    tokens != [] && ((tokens[0].Capture? && NextIsCapture(tokens[1..])) || CapturesMeet(tokens[1..]))
  }

  /** The Go matcher, on bytes, and the server give the same verdict. */
  ghost predicate Agree(pattern: string, value: string) {
    GoMatches(TokensOf(Encoded(pattern)), Encoded(value)) <==> Matches(pattern, value)
  }

  predicate NoEmptyLiteral(tokens: seq<Token>) { Literal("") !in tokens }

  lemma {:induction false} TokenizerLeavesNoEmptyLiteral(pattern: string)
    ensures NoEmptyLiteral(TokensOf(pattern))
    decreases |pattern|
  {
    if pattern != "" {
      var (token, n) := FirstToken(pattern);
      FirstTokenWrites(pattern);
      TokensUnfold(pattern, token, n);
      TokenizerLeavesNoEmptyLiteral(pattern[n..]);
    }
  }

  lemma BytesUnfold(tokens: seq<Token>)
    requires tokens != []
    ensures AllInBytes(tokens)[0] == InBytes(tokens[0]) && AllInBytes(tokens)[1..] == AllInBytes(tokens[1..])
  {
  }

  // ---- captures that do not meet end between characters ---------------------------------------------

  /** Bytes that do not start within a character. */
  predicate StartsCharacter(bytes: string) { bytes == "" || !Tail(bytes[0]) }

  lemma EncodedStartsCharacter(s: string, rest: string)
    requires s != ""
    ensures StartsCharacter(Encoded(s) + rest)
  {
    assert (Encoded(s) + rest)[0] == Bytes(s[0])[0];
  }

  /** Whatever follows a capture, unless it is another one, starts with a whole character. */
  lemma {:induction false} NoCaptureStartsCharacter(tokens: seq<Token>, bytes: string)
    requires !NextIsCapture(tokens) && NoEmptyLiteral(tokens) && GoMatches(AllInBytes(tokens), bytes)
    ensures StartsCharacter(bytes)
    decreases |tokens|
  {
    if tokens != [] {
      BytesUnfold(tokens);
      match tokens[0]
      case Literal(text) =>
        var n := |Encoded(text)|;
        assert tokens[0] in tokens && bytes == bytes[..n] + bytes[n..];
        EncodedStartsCharacter(text, bytes[n..]);
      case Wildcard =>
        var j :| 0 <= j <= |bytes| && ValidUtf8(bytes[..j]) && GoMatches(AllInBytes(tokens[1..]), bytes[j..]);
        if j == 0 {
          assert bytes[0..] == bytes;
          NoCaptureStartsCharacter(tokens[1..], bytes);
        } else {
          assert bytes[..j][0] == bytes[0] && Lead(bytes[..j]) > 0;
        }
    }
  }

  lemma PositionIsOutside(s: string, j: nat)
    requires s != "" && 0 < j <= |Encoded(s)| && StartsCharacter(Encoded(s)[j..])
    ensures j >= |Bytes(s[0])|
  {
    var bytes := Bytes(s[0]);
    assert j < |Encoded(s)| ==> Encoded(s)[j..][0] == Encoded(s)[j];
    assert forall i | 0 < i < |bytes| :: Encoded(s)[i] == bytes[i] && Tail(bytes[i]);
  }

  lemma PositionAfterFirst(s: string, j: nat)
    requires s != "" && |Bytes(s[0])| <= j <= |Encoded(s)|
    ensures var n := |Bytes(s[0])|;
            && Encoded(s)[j..] == Encoded(s[1..])[j - n..]
            && Encoded(s)[..j] == Bytes(s[0]) + Encoded(s[1..])[..j - n]
  {
    CutBehind(Bytes(s[0]), Encoded(s[1..]), j);
  }

  lemma CutBehind(a: string, b: string, j: nat)
    requires |a| <= j <= |a + b|
    ensures (a + b)[j..] == b[j - |a|..] && (a + b)[..j] == a + b[..j - |a|]
  {
  }

  /** A position in an encoded text that starts a character is the position of one. */
  lemma {:induction false} CharacterStartIsWhole(s: string, j: nat) returns (k: nat)
    requires j <= |Encoded(s)| && StartsCharacter(Encoded(s)[j..])
    ensures k <= |s| && Encoded(s[..k]) == Encoded(s)[..j] && Encoded(s[k..]) == Encoded(s)[j..]
  {
    if j == 0 {
      k := 0;
      assert s[0..] == s;
    } else {
      PositionIsOutside(s, j);
      PositionAfterFirst(s, j);
      k := CharacterStartIsWhole(s[1..], j - |Bytes(s[0])|);
      assert s[..k + 1][1..] == s[1..][..k] && s[k + 1..] == s[1..][k..];
      k := k + 1;
    }
  }

  /** Where the first piece of a Go match ends in the text. */
  lemma FirstPieceIsWhole(tokens: seq<Token>, value: string) returns (k: nat)
    requires tokens != [] && !CapturesMeet(tokens) && NoEmptyLiteral(tokens)
    requires GoMatches(AllInBytes(tokens), Encoded(value))
    ensures k <= |value| && GoMatches(AllInBytes(tokens[1..]), Encoded(value[k..]))
    ensures tokens[0].Literal? ==> value[..k] == tokens[0].text
    ensures tokens[0].Capture? ==> k > 0
  {
    BytesUnfold(tokens);
    var bytes := Encoded(value);
    match tokens[0]
    case Literal(text) =>
      EncodedIsValid(text);
      k := ValidPrefixIsWhole(value, |Encoded(text)|);
      EncodedIsInjective(text, value[..k]);
    case Wildcard =>
      var j :| 0 <= j <= |bytes| && ValidUtf8(bytes[..j]) && GoMatches(AllInBytes(tokens[1..]), bytes[j..]);
      k := ValidPrefixIsWhole(value, j);
    case Capture(_) =>
      var j :| 1 <= j <= |bytes| && GoMatches(AllInBytes(tokens[1..]), bytes[j..]);
      NoCaptureStartsCharacter(tokens[1..], bytes[j..]);
      k := CharacterStartIsWhole(value, j);
      assert value[..0] == "";
  }

  lemma {:induction false} GoMatchSplits(tokens: seq<Token>, value: string) returns (pieces: seq<string>)
    requires !CapturesMeet(tokens) && NoEmptyLiteral(tokens) && GoMatches(AllInBytes(tokens), Encoded(value))
    ensures Splits(tokens, value, pieces)
    decreases |tokens|
  {
    if tokens == [] {
      pieces := [];
      EncodedIsInjective(value, "");
    } else {
      var k := FirstPieceIsWhole(tokens, value);
      var rest := GoMatchSplits(tokens[1..], value[k..]);
      pieces := [value[..k]] + rest;
      assert pieces[1..] == rest;
    }
  }

  // ---- captures that meet can share a character -------------------------------------------------------

  /** The fewest characters that a match needs. */
  function MinLength(tokens: seq<Token>): nat {
    if tokens == [] then 0
    else (match tokens[0]
          case Literal(text) => |text|
          case Wildcard => 0
          case Capture(_) => 1) + MinLength(tokens[1..])
  }

  lemma {:induction false} SplitNeedsMinLength(tokens: seq<Token>, value: string, pieces: seq<string>)
    requires Splits(tokens, value, pieces)
    ensures |value| >= MinLength(tokens)
    decreases |tokens|
  {
    if tokens != [] { SplitNeedsMinLength(tokens[1..], value[|pieces[0]|..], pieces[1..]); }
  }

  /** A Go match of the rest, with a first piece before it. */
  lemma GoMatchesMore(tokens: seq<Token>, piece: string, rest: string)
    requires tokens != [] && GoMatches(AllInBytes(tokens[1..]), rest)
    requires tokens[0].Literal? ==> piece == Encoded(tokens[0].text)
    requires tokens[0].Wildcard? ==> piece == ""
    requires tokens[0].Capture? ==> piece != ""
    ensures GoMatches(AllInBytes(tokens), piece + rest)
  {
    BytesUnfold(tokens);
    var all, j := piece + rest, |piece|;
    assert all[..j] == piece && all[j..] == rest;
    assert GoMatches(AllInBytes(tokens)[1..], all[j..]);
  }

  /** The shortest piece of a token. */
  function ShortestPiece(token: Token): string {
    match token
    case Literal(text) => text
    case Wildcard => ""
    case Capture(_) => "x"
  }

  lemma ShortestFirst(tokens: seq<Token>, rest: string)
    requires tokens != [] && GoMatches(AllInBytes(tokens[1..]), Encoded(rest))
    ensures GoMatches(AllInBytes(tokens), Encoded(ShortestPiece(tokens[0]) + rest))
  {
    EncodedConcat(ShortestPiece(tokens[0]), rest);
    GoMatchesMore(tokens, Encoded(ShortestPiece(tokens[0])), Encoded(rest));
  }

  lemma {:induction false} ShortestMatch(tokens: seq<Token>) returns (value: string)
    ensures |value| == MinLength(tokens) && GoMatches(AllInBytes(tokens), Encoded(value))
    decreases |tokens|
  {
    if tokens == [] {
      value := "";
    } else {
      var rest := ShortestMatch(tokens[1..]);
      ShortestFirst(tokens, rest);
      value := ShortestPiece(tokens[0]) + rest;
    }
  }

  /** A capture that comes next can take any one byte. */
  lemma {:induction false} NextCaptureTakesByte(tokens: seq<Token>, b: char) returns (value: string)
    requires NextIsCapture(tokens)
    ensures |value| + 1 == MinLength(tokens) && GoMatches(AllInBytes(tokens), [b] + Encoded(value))
    decreases |tokens|
  {
    if tokens[0].Capture? {
      value := ShortestMatch(tokens[1..]);
      GoMatchesMore(tokens, [b], Encoded(value));
    } else {
      value := NextCaptureTakesByte(tokens[1..], b);
      GoMatchesMore(tokens, "", [b] + Encoded(value));
      assert "" + ([b] + Encoded(value)) == [b] + Encoded(value);
    }
  }

  lemma InTwoBytes(c: char, rest: string)
    requires |Bytes(c)| == 2
    ensures Encoded([c] + rest) == [Bytes(c)[0]] + ([Bytes(c)[1]] + Encoded(rest))
  {
    assert ([c] + rest)[1..] == rest;
    assert Bytes(c) == [Bytes(c)[0]] + [Bytes(c)[1]];
  }

  /** Two captures that meet share a character of two bytes. */
  lemma CapturesShare(tokens: seq<Token>, c: char) returns (value: string)
    requires tokens != [] && tokens[0].Capture? && NextIsCapture(tokens[1..]) && |Bytes(c)| == 2
    ensures |value| + 1 == MinLength(tokens) && GoMatches(AllInBytes(tokens), Encoded(value))
  {
    var rest := NextCaptureTakesByte(tokens[1..], Bytes(c)[1]);
    GoMatchesMore(tokens, [Bytes(c)[0]], [Bytes(c)[1]] + Encoded(rest));
    InTwoBytes(c, rest);
    value := [c] + rest;
  }

  /** A value that is one character too short for the server. */
  lemma {:induction false} SharedCharacter(tokens: seq<Token>) returns (value: string)
    requires CapturesMeet(tokens)
    ensures |value| + 1 == MinLength(tokens) && GoMatches(AllInBytes(tokens), Encoded(value))
    decreases |tokens|
  {
    if tokens[0].Capture? && NextIsCapture(tokens[1..]) {
      value := CapturesShare(tokens, '\U{E9}');
    } else {
      var rest := SharedCharacter(tokens[1..]);
      ShortestFirst(tokens, rest);
      value := ShortestPiece(tokens[0]) + rest;
    }
  }

  // ---- the condition is exact ---------------------------------------------------------------------------

  lemma ApartAgree(pattern: string, value: string)
    requires !CapturesMeet(TokensOf(pattern))
    ensures Agree(pattern, value)
  {
    var tokens := TokensOf(pattern);
    TokensInBytes(pattern);
    if Matches(pattern, value) { ServerMatchHoldsInGo(pattern, value); }
    if GoMatches(AllInBytes(tokens), Encoded(value)) {
      TokenizerLeavesNoEmptyLiteral(pattern);
      var pieces := GoMatchSplits(tokens, value);
      MatchIsComplete(tokens, value, pieces);
    }
  }

  lemma MeetingDisagree(pattern: string) returns (value: string)
    requires CapturesMeet(TokensOf(pattern))
    ensures GoMatches(TokensOf(Encoded(pattern)), Encoded(value)) && !Matches(pattern, value)
  {
    var tokens := TokensOf(pattern);
    TokensInBytes(pattern);
    value := SharedCharacter(tokens);
    if Matches(pattern, value) {
      var pieces := MatchIsPreferredSplit(tokens, value);
      SplitNeedsMinLength(tokens, value, pieces);
    }
  }

  /** The Go SDK and the server give the same verdict on every value exactly when the pattern has no
      two captures with nothing but wildcards between them. */
  lemma AgreeIffCapturesApart(pattern: string)
    ensures (forall value :: Agree(pattern, value)) <==> !CapturesMeet(TokensOf(pattern))
  {
    if CapturesMeet(TokensOf(pattern)) {
      var value := MeetingDisagree(pattern);
      assert !Agree(pattern, value);
    } else {
      forall value ensures Agree(pattern, value) { ApartAgree(pattern, value); }
    }
  }
}
