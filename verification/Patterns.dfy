/** Route patterns: the backtracking matcher of the server and its meaning. */
module Patterns {
  import opened Wrappers
  import opened Text

  datatype Token = Literal(text: string) | Wildcard | Capture(name: string)

  // ---- tokenizing ------------------------------------------------------------------------------

  /** The first index of a character, from `i` on. */
  function FindFrom(s: string, c: char, i: nat): (r: Option<nat>)
    ensures r.Some? ==> i <= r.value < |s| && s[r.value] == c
    decreases |s| - i
  {
    if i >= |s| then None else if s[i] == c then Some(i) else FindFrom(s, c, i + 1)
  }

  function Find(s: string, c: char): (r: Option<nat>)
    ensures r.Some? ==> r.value < |s| && s[r.value] == c
  {
    FindFrom(s, c, 0)
  }

  /** The first index of `${`, from `i` on. */
  function FindDollarFrom(s: string, i: nat): (r: Option<nat>)
    ensures r.Some? ==> i <= r.value && r.value + 1 < |s| && s[r.value] == '$' && s[r.value + 1] == '{'
    decreases |s| - i
  {
    if i + 1 >= |s| then None
    else if s[i] == '$' && s[i + 1] == '{' then Some(i)
    else FindDollarFrom(s, i + 1)
  }

  function FindDollar(s: string): (r: Option<nat>)
    ensures r.Some? ==> r.value + 1 < |s| && s[r.value] == '$' && s[r.value + 1] == '{'
  {
    FindDollarFrom(s, 0)
  }

  lemma {:induction false} FindFromIsFirst(s: string, c: char, i: nat)
    ensures var r := FindFrom(s, c, i);
            forall j | i <= j < (if r.Some? then r.value else |s|) :: s[j] != c
    decreases |s| - i
  {
    if i < |s| && s[i] != c { FindFromIsFirst(s, c, i + 1); }
  }

  /** Nothing is found exactly when there is nothing, and what is found is the first. */
  lemma FindIsFirst(s: string, c: char)
    ensures Find(s, c).None? <==> c !in s
    ensures Find(s, c).Some? ==> c !in s[..Find(s, c).value]
  {
    FindFromIsFirst(s, c, 0);
  }

  lemma FindIs(s: string, c: char, k: nat)
    requires k < |s| && s[k] == c && c !in s[..k]
    ensures Find(s, c) == Some(k)
  {
    FindFromIsFirst(s, c, 0);
    assert forall j | 0 <= j < k :: s[j] == s[..k][j] && s[..k][j] in s[..k];
  }

  /** What is found is the first `${`. */
  lemma {:induction false} FindDollarIsFirst(s: string, i: nat)
    ensures var r := FindDollarFrom(s, i);
            forall j | i <= j < (if r.Some? then r.value else |s| - 1) :: !(s[j] == '$' && s[j + 1] == '{')
    decreases |s| - i
  {
    if i + 1 < |s| && !(s[i] == '$' && s[i + 1] == '{') { FindDollarIsFirst(s, i + 1); }
  }

  lemma FindDollarIs(s: string, k: nat)
    requires k + 1 < |s| && s[k] == '$' && s[k + 1] == '{'
    requires forall j | 0 <= j < k :: !(s[j] == '$' && s[j + 1] == '{')
    ensures FindDollar(s) == Some(k)
  {
    FindDollarIsFirst(s, 0);
  }

  lemma {:induction false} NoDollarFrom(s: string, i: nat)
    requires '{' !in s
    ensures FindDollarFrom(s, i).None?
    decreases |s| - i
  {
    if i + 1 < |s| { NoDollarFrom(s, i + 1); }
  }

  function Nearer(end: nat, found: Option<nat>): (r: nat)
    ensures r <= end && (end > 0 ==> r > 0)
  {
    if found.Some? && 0 < found.value < end then found.value else end
  }

  /** Where a literal ends: at the nearest special text that is not at its start. */
  function LiteralEnd(tail: string): (end: nat)
    requires tail != ""
    ensures 0 < end <= |tail|
  {
    Nearer(Nearer(Nearer(|tail|, Find(tail, '*')), Find(tail, '{')), FindDollar(tail))
  }

  function CaptureOffset(tail: string): nat {
    if StartsWith(tail, "${") then 2 else if StartsWith(tail, "{") then 1 else 0
  }

  /** The token a non-empty pattern starts with, and its length. */
  function FirstToken(tail: string): (r: (Token, nat))
    requires tail != ""
    ensures 0 < r.1 <= |tail|
  {
    if tail[0] == '*' then (Wildcard, 1)
    else
      var offset, close := CaptureOffset(tail), Find(tail, '}');
      if offset != 0 && close.Some? && close.value > offset
      then (Capture(tail[offset..close.value]), close.value + 1)
      else (Literal(tail[..LiteralEnd(tail)]), LiteralEnd(tail))
  }

  function TokensOf(pattern: string): seq<Token>
    decreases |pattern|
  {
    if pattern == "" then []
    else
      var (token, n) := FirstToken(pattern);
      [token] + TokensOf(pattern[n..])
  }

  /** How a token may be written: a literal without stars, and without braces unless it starts
      with one; a star; or a capture in either spelling whose name is not empty and has no
      closing brace. */
  predicate Writes(token: Token, text: string) {
    match token
    case Literal(t) => text == t && t != "" && '*' !in t && (t[0] != '{' ==> '{' !in t)
    case Wildcard => text == "*"
    case Capture(name) => name != "" && '}' !in name && (text == "{" + name + "}" || text == "${" + name + "}")
  }

  /** The pattern is the concatenation of texts that write its tokens. */
  ghost predicate Spells(tokens: seq<Token>, pattern: string)
    decreases |tokens|
  {
    if tokens == [] then pattern == ""
    else exists n | 0 < n <= |pattern| :: Writes(tokens[0], pattern[..n]) && Spells(tokens[1..], pattern[n..])
  }

  lemma FirstTokenWrites(tail: string)
    requires tail != ""
    ensures Writes(FirstToken(tail).0, tail[..FirstToken(tail).1])
  {
    var (token, n) := FirstToken(tail);
    match token
    case Wildcard =>
    case Capture(name) =>
      var offset := CaptureOffset(tail);
      assert tail[..n] == tail[..offset] + tail[offset..n - 1] + tail[n - 1..n];
      FindIsFirst(tail, '}');
      assert forall c :: c in name ==> c in tail[..n - 1];
    case Literal(text) =>
      var star := Find(tail, '*');
      FindIsFirst(tail, '*');
      if star.Some? {
        assert n <= star.value && tail[..n] == tail[..star.value][..n];
      }
      var brace := Find(tail, '{');
      FindIsFirst(tail, '{');
      if brace.Some? && tail[0] != '{' {
        assert n <= brace.value && tail[..n] == tail[..brace.value][..n];
      }
  }

  /** Tokenizing loses nothing: the tokens spell the pattern. */
  lemma {:induction false} TokensSpellPattern(pattern: string)
    ensures Spells(TokensOf(pattern), pattern)
    decreases |pattern|
  {
    if pattern != "" {
      var (token, n) := FirstToken(pattern);
      FirstTokenWrites(pattern);
      TokensSpellPattern(pattern[n..]);
      assert TokensOf(pattern)[0] == token && TokensOf(pattern)[1..] == TokensOf(pattern[n..]);
    }
  }

  /** A name in braces, in either spelling, is a capture of that name; a star is a wildcard. */
  lemma CaptureIsRead(opening: string, name: string, rest: string)
    requires (opening == "{" || opening == "${") && name != "" && '}' !in name
    ensures TokensOf(opening + name + "}" + rest) == [Capture(name)] + TokensOf(rest)
    ensures TokensOf("*" + rest) == [Wildcard] + TokensOf(rest)
  {
    var tail, k := opening + name + "}" + rest, |opening| + |name|;
    assert tail[..k] == opening + name && tail[k] == '}';
    FindIs(tail, '}', k);
    OffsetIs(tail, opening);
    assert tail[|opening|..k] == name && tail[k + 1..] == rest;
    assert ("*" + rest)[1..] == rest;
  }

  lemma OffsetIs(tail: string, opening: string)
    requires (opening == "{" || opening == "${") && |tail| >= |opening| && tail[..|opening|] == opening
    ensures CaptureOffset(tail) == |opening| && tail[0] != '*'
  {
    assert tail[0] == opening[0];
    if opening == "{" { assert !StartsWith(tail, "${"); }
  }

  /** The start of a wildcard or of a capture that is not the end of a text. */
  predicate Special(s: string) { s == "" || s[0] == '*' || StartsWith(s, "{") || StartsWith(s, "${") }

  /** Text without stars and opening braces is one literal, up to the next wildcard or opening
      brace; a dollar sign before the brace belongs to the capture. */
  lemma TextIsRead(text: string, rest: string)
    requires text != "" && '*' !in text && '{' !in text && Special(rest)
    requires StartsWith(rest, "{") ==> text[|text| - 1] != '$'
    ensures TokensOf(text + rest) == [Literal(text)] + TokensOf(rest)
  {
    var tail, n := text + rest, |text|;
    assert tail[..n] == text && tail[n..] == rest;
    assert forall j | 0 <= j < n :: tail[j] == text[j] && text[j] in text;
    TextEnds(tail, text, rest);
    NoCaptureHere(tail, text, rest);
    assert FirstToken(tail) == (Literal(text), n);
  }

  lemma NoCaptureHere(tail: string, text: string, rest: string)
    requires text != "" && tail == text + rest && forall j | 0 <= j < |text| :: tail[j] == text[j] && tail[j] != '{'
    requires StartsWith(rest, "{") ==> text[|text| - 1] != '$'
    ensures CaptureOffset(tail) == 0
  {
    assert tail[..1][0] == tail[0];
    assert |tail| > 1 ==> tail[..2][0] == tail[0] && tail[..2][1] == tail[1];
    assert |tail| > 1 && |text| == 1 ==> tail[1] == rest[0] && (rest[0] == '{' ==> rest[..1] == "{");
  }

  lemma TextEnds(tail: string, text: string, rest: string)
    requires text != "" && '*' !in text && '{' !in text && Special(rest)
    requires StartsWith(rest, "{") ==> text[|text| - 1] != '$'
    requires tail == text + rest && forall j | 0 <= j < |text| :: tail[j] == text[j] && tail[j] != '*' && tail[j] != '{'
    ensures LiteralEnd(tail) == |text|
  {
    FindFromIsFirst(tail, '*', 0);
    FindFromIsFirst(tail, '{', 0);
    FindDollarIsFirst(tail, 0);
    var n := |text|;
    if rest != "" {
      assert tail[n] == rest[0];
      if StartsWith(rest, "${") { assert tail[n + 1] == rest[1] == rest[..2][1]; }
      if StartsWith(rest, "{") { assert tail[n - 1] == text[n - 1]; }
    }
  }

  lemma TokenStep(tokens: seq<Token>, tail: string, token: Token, n: nat, all: seq<Token>)
    requires tail != "" && FirstToken(tail) == (token, n) && tokens + TokensOf(tail) == all
    ensures tokens + [token] + TokensOf(tail[n..]) == all
  {
    TokensUnfold(tail, token, n);
    Regroup(tokens, token, TokensOf(tail[n..]));
  }

  lemma TokensUnfold(tail: string, token: Token, n: nat)
    requires tail != "" && FirstToken(tail) == (token, n)
    ensures TokensOf(tail) == [token] + TokensOf(tail[n..])
  {
  }

  lemma Regroup(a: seq<Token>, t: Token, b: seq<Token>)
    ensures a + ([t] + b) == a + [t] + b
  {
  }

  /** One round of the loop of `tokens`. */
  method NextToken(tail: string) returns (token: Token, n: nat)
    requires tail != ""
    ensures (token, n) == FirstToken(tail)
  {
    if tail[0] == '*' { return Wildcard, 1; }
    var offset := CaptureOffset(tail);
    if offset != 0 {
      var end := Find(tail, '}');
      if end.Some? && offset < end.value { return Capture(tail[offset..end.value]), end.value + 1; }
    }
    n := LiteralEnd(tail);
    token := Literal(tail[..n]);
  }

  /** `tokens`, as the loop that the source runs. */
  method Tokenize(pattern: string) returns (tokens: seq<Token>)
    ensures tokens == TokensOf(pattern)
  {
    tokens := [];
    var index := 0;
    ghost var tail := pattern;
    while index < |pattern|
      invariant index <= |pattern| && tail == pattern[index..]
      invariant tokens + TokensOf(tail) == TokensOf(pattern)
    {
      var token, n := NextToken(pattern[index..]);
      TokenStep(tokens, tail, token, n, TokensOf(pattern));
      tokens := tokens + [token];
      tail := tail[n..];
      index := index + n;
    }
    assert tail == "";
  }

  // ---- matching ------------------------------------------------------------------------------------

  type Captures = seq<(string, string)>

  /** `match_tokens`: wildcards try the longest text first, captures the shortest. */
  function Match(tokens: seq<Token>, value: string): Option<Captures>
    decreases |tokens|, 0
  {
    if tokens == [] then (if value == "" then Some([]) else None)
    else
      match tokens[0]
      case Literal(text) => if StartsWith(value, text) then Match(tokens[1..], value[|text|..]) else None
      case Wildcard => Longest(tokens[1..], value, |value|)
      case Capture(name) => Shortest(tokens[1..], name, value, 1)
  }

  function Longest(rest: seq<Token>, value: string, index: nat): Option<Captures>
    requires index <= |value|
    decreases |rest|, index + 1
  {
    var m := Match(rest, value[index..]);
    if m.Some? || index == 0 then m else Longest(rest, value, index - 1)
  }

  function Shortest(rest: seq<Token>, name: string, value: string, index: nat): Option<Captures>
    requires index <= |value| + 1
    decreases |rest|, |value| + 2 - index
  {
    if index > |value| then None
    else
      var m := Match(rest, value[index..]);
      if m.Some? then Some([(name, value[..index])] + m.value) else Shortest(rest, name, value, index + 1)
  }

  predicate Matches(pattern: string, value: string) { Match(TokensOf(pattern), value).Some? }

  // ---- what a match means ----------------------------------------------------------------------------

  /** A value splits along a token list into equal literals, arbitrary wildcard pieces and
      non-empty captures. */
  ghost predicate Splits(tokens: seq<Token>, value: string, pieces: seq<string>)
    decreases |tokens|
  {
    |pieces| == |tokens| &&
    if tokens == [] then value == ""
    else
      && StartsWith(value, pieces[0])
      && (tokens[0].Literal? ==> pieces[0] == tokens[0].text)
      && (tokens[0].Capture? ==> pieces[0] != "")
      && Splits(tokens[1..], value[|pieces[0]|..], pieces[1..])
  }

  /** The captured pieces with their names. */
  function CapturesOf(tokens: seq<Token>, pieces: seq<string>): Captures
    requires |pieces| == |tokens|
    decreases |tokens|
  {
    if tokens == [] then []
    else (if tokens[0].Capture? then [(tokens[0].name, pieces[0])] else []) + CapturesOf(tokens[1..], pieces[1..])
  }

  /** At the first difference the preferred split has the longer wildcard piece or the
      shorter captured piece. */
  ghost predicate Preferred(tokens: seq<Token>, p: seq<string>, q: seq<string>)
    requires |p| == |q| == |tokens|
    decreases |tokens|
  {
    tokens == []
    || (if |p[0]| == |q[0]| then Preferred(tokens[1..], p[1..], q[1..])
        else if tokens[0].Wildcard? then |p[0]| > |q[0]|
        else |p[0]| < |q[0]|)
  }

  lemma {:induction false} LongestFinds(rest: seq<Token>, value: string, index: nat, at: nat)
    requires at <= index <= |value| && Match(rest, value[at..]).Some?
    ensures Longest(rest, value, index).Some?
    decreases index
  {
    if Match(rest, value[index..]).None? { LongestFinds(rest, value, index - 1, at); }
  }

  lemma {:induction false} ShortestFinds(rest: seq<Token>, name: string, value: string, index: nat, at: nat)
    requires index <= at <= |value| && Match(rest, value[at..]).Some?
    ensures Shortest(rest, name, value, index).Some?
    decreases at - index
  {
    if Match(rest, value[index..]).None? { ShortestFinds(rest, name, value, index + 1, at); }
  }

  /** Every value that splits along the pattern is matched. */
  lemma {:induction false} MatchIsComplete(tokens: seq<Token>, value: string, pieces: seq<string>)
    requires Splits(tokens, value, pieces)
    ensures Match(tokens, value).Some?
    decreases |tokens|
  {
    if tokens != [] {
      MatchIsComplete(tokens[1..], value[|pieces[0]|..], pieces[1..]);
      match tokens[0]
      case Literal(_) =>
      case Wildcard => LongestFinds(tokens[1..], value, |value|, |pieces[0]|);
      case Capture(name) => ShortestFinds(tokens[1..], name, value, 1, |pieces[0]|);
    }
  }

  /** Where the longest-first search stops: the first index that matches. */
  lemma {:induction false} LongestAt(rest: seq<Token>, value: string, index: nat) returns (at: nat)
    requires index <= |value| && Longest(rest, value, index).Some?
    ensures at <= index && Longest(rest, value, index) == Match(rest, value[at..])
    ensures forall i | at < i <= index :: Match(rest, value[i..]).None?
    decreases index
  {
    if Match(rest, value[index..]).Some? {
      at := index;
    } else {
      at := LongestAt(rest, value, index - 1);
    }
  }

  lemma {:induction false} ShortestAt(rest: seq<Token>, name: string, value: string, index: nat) returns (at: nat)
    requires index <= |value| + 1 && Shortest(rest, name, value, index).Some?
    ensures index <= at <= |value| && Match(rest, value[at..]).Some?
    ensures Shortest(rest, name, value, index).value == [(name, value[..at])] + Match(rest, value[at..]).value
    ensures forall i | index <= i < at :: Match(rest, value[i..]).None?
    decreases |value| + 1 - index
  {
    if Match(rest, value[index..]).Some? {
      at := index;
    } else {
      at := ShortestAt(rest, name, value, index + 1);
    }
  }

  /** A match is the preferred split of the value, and its captures are those of that split. */
  lemma {:induction false} MatchIsPreferredSplit(tokens: seq<Token>, value: string) returns (pieces: seq<string>)
    requires Match(tokens, value).Some?
    ensures Splits(tokens, value, pieces) && Match(tokens, value).value == CapturesOf(tokens, pieces)
    ensures forall other | Splits(tokens, value, other) :: Preferred(tokens, pieces, other)
    decreases |tokens|
  {
    if tokens == [] {
      pieces := [];
    } else {
      var at;
      match tokens[0] {
        case Literal(text) => at := |text|;
        case Wildcard => at := LongestAt(tokens[1..], value, |value|);
        case Capture(name) => at := ShortestAt(tokens[1..], name, value, 1);
      }
      var rest := MatchIsPreferredSplit(tokens[1..], value[at..]);
      pieces := [value[..at]] + rest;
      assert pieces[1..] == rest && pieces[0] == value[..at];
      forall other | Splits(tokens, value, other)
        ensures Preferred(tokens, pieces, other)
      {
        FirstPieceIsPreferred(tokens, value, at, other);
      }
    }
  }

  /** No split has a preferred first piece when the search rejected it. */
  lemma FirstPieceIsPreferred(tokens: seq<Token>, value: string, at: nat, other: seq<string>)
    requires tokens != [] && at <= |value| && Splits(tokens, value, other)
    requires tokens[0].Literal? ==> at == |tokens[0].text|
    requires tokens[0].Wildcard? ==> forall i | at < i <= |value| :: Match(tokens[1..], value[i..]).None?
    requires tokens[0].Capture? ==> forall i | 1 <= i < at :: Match(tokens[1..], value[i..]).None?
    ensures tokens[0].Literal? ==> |other[0]| == at
    ensures tokens[0].Wildcard? ==> |other[0]| <= at
    ensures tokens[0].Capture? ==> |other[0]| >= at
  {
    MatchIsComplete(tokens[1..], value[|other[0]|..], other[1..]);
  }

  ghost predicate HasSplit(tokens: seq<Token>, value: string) { exists pieces :: Splits(tokens, value, pieces) }

  /** A pattern matches exactly the values that split along it. */
  lemma MatchesIffSplits(pattern: string, value: string)
    ensures Matches(pattern, value) <==> HasSplit(TokensOf(pattern), value)
  {
    var tokens := TokensOf(pattern);
    if Matches(pattern, value) {
      var pieces := MatchIsPreferredSplit(tokens, value);
    }
    if HasSplit(tokens, value) {
      var pieces :| Splits(tokens, value, pieces);
      MatchIsComplete(tokens, value, pieces);
    }
  }
}
