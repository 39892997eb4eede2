/** The frame tokenizer of the line protocol.  The source scans bytes; every character it
    looks for is ASCII, so scanning characters finds the same boundaries. */
module Scanner {
  import opened Wrappers
  import opened Json

  datatype Token = Token(text: string, quoted: bool)

  const MAX_FRAME_BYTES: nat := 1024 * 1024

  predicate IsAsciiSpace(c: char) { c == ' ' || c == '\t' || c == '\n' || c == 12 as char || c == '\r' }

  function CharBytes(c: char): nat {
    if c as nat < 0x80 then 1 else if c as nat < 0x800 then 2 else if c as nat < 0x10000 then 3 else 4
  }

  /** The length of a text in UTF-8. */
  function Utf8Length(s: string): nat {
    if s == "" then 0 else Utf8Length(s[..|s| - 1]) + CharBytes(s[|s| - 1])
  }

  predicate OneLine(s: string) { forall i | 0 <= i < |s| :: s[i] != '\r' && s[i] != '\n' }

  predicate ValidFrame(s: string) { s != "" && Utf8Length(s) <= MAX_FRAME_BYTES && OneLine(s) }

  // ---- what one token is --------------------------------------------------------------------

  function SkipBlanks(s: string): (r: string)
    ensures |r| <= |s|
    ensures r == "" || !IsAsciiSpace(r[0])
  {
    if s != "" && IsAsciiSpace(s[0]) then SkipBlanks(s[1..]) else s
  }

  predicate IsQuotedEscape(c: char) { c == '\"' || c == '\\' || c == 'n' || c == 'r' || c == 't' }

  /** What follows the closing quote; `None` for a foreign escape or a missing quote. */
  function AfterQuoted(s: string, escaped: bool): (r: Option<string>)
    ensures r.Some? ==> |r.value| < |s|
  {
    if s == "" then None
    else if escaped then (if IsQuotedEscape(s[0]) then AfterQuoted(s[1..], false) else None)
    else if s[0] == '\\' then AfterQuoted(s[1..], true)
    else if s[0] == '\"' then Some(s[1..])
    else AfterQuoted(s[1..], false)
  }

  /** What follows the bracket that closes the last open one on the stack. */
  function AfterBrackets(s: string, stack: string, quoted: bool, escaped: bool): (r: Option<string>)
    ensures r.Some? ==> |r.value| < |s|
    decreases |s|
  {
    if s == "" then None
    else if quoted then
      if escaped then AfterBrackets(s[1..], stack, true, false)
      else if s[0] == '\\' then AfterBrackets(s[1..], stack, true, true)
      else AfterBrackets(s[1..], stack, s[0] != '\"', false)
    else if s[0] == '\"' then AfterBrackets(s[1..], stack, true, false)
    else if s[0] == '[' || s[0] == '{' then AfterBrackets(s[1..], stack + [s[0]], false, false)
    else if s[0] == ']' || s[0] == '}' then
      if stack == "" || stack[|stack| - 1] != Opening(s[0]) then None
      else if |stack| == 1 then Some(s[1..])
      else AfterBrackets(s[1..], stack[..|stack| - 1], false, false)
    else AfterBrackets(s[1..], stack, false, false)
  }

  function Opening(closing: char): char { if closing == ']' then '[' else '{' }

  /** What follows a bare word. */
  function AfterWord(s: string): (r: string)
    ensures |r| <= |s|
    ensures s != "" && !IsAsciiSpace(s[0]) ==> |r| < |s|
  {
    if s != "" && !IsAsciiSpace(s[0]) then AfterWord(s[1..]) else s
  }

  function Consumed(s: string, rest: string): string
    requires |rest| <= |s|
  {
    s[..|s| - |rest|]
  }

  datatype Scan = Stop | Bad | Next(token: Token, rest: string)

  function ScanQuoted(s: string): (r: Scan)
    requires s != ""
    ensures r.Next? ==> |r.rest| < |s|
  {
    match AfterQuoted(s[1..], false)
    case None => Bad
    case Some(rest) =>
      match ParseString(Consumed(s, rest)[1..])
      case Fail => Bad
      case Got(text, left) => if left == "" then Next(Token(text, true), rest) else Bad
  }

  function ScanStructured(s: string): (r: Scan)
    requires s != ""
    ensures r.Next? ==> |r.rest| < |s|
  {
    match AfterBrackets(s[1..], [s[0]], false, false)
    case None => Bad
    case Some(rest) =>
      if ParseDocument(Consumed(s, rest)).None? then Bad else Next(Token(Consumed(s, rest), false), rest)
  }

  /** The next token of a frame. */
  function ScanToken(frame: string): (r: Scan)
    ensures r.Next? ==> |r.rest| < |frame|
  {
    var s := SkipBlanks(frame);
    if s == "" then Stop
    else if s[0] == '\"' then ScanQuoted(s)
    else if s[0] == '[' || s[0] == '{' then ScanStructured(s)
    else Next(Token(Consumed(s, AfterWord(s)), false), AfterWord(s))
  }

  /** All tokens of a frame; `None` when some token is malformed. */
  function ScanAll(frame: string): Option<seq<Token>>
    decreases |frame|
  {
    match ScanToken(frame)
    case Stop => Some([])
    case Bad => None
    case Next(token, rest) =>
      match ScanAll(rest)
      case None => None
      case Some(tokens) => Some([token] + tokens)
  }

  function Tokens(frame: string): (r: Option<seq<Token>>)
    ensures r.Some? ==> |r.value| > 0
  {
    if ValidFrame(frame) then NotEmpty(ScanAll(frame)) else None
  }

  /** A frame without tokens is an error. */
  function NotEmpty(tokens: Option<seq<Token>>): Option<seq<Token>> {
    if tokens == Some([]) then None else tokens
  }

  // ---- the scanner as the source runs it ----------------------------------------------------

  class FrameScanner {
    const input: string
    var index: nat

    ghost predicate Valid() reads this { index <= |input| }

    constructor (input: string)
      ensures this.input == input && index == 0 && Valid()
    {
      this.input := input;
      index := 0;
    }

    method SkipToToken()
      requires Valid()
      modifies this
      ensures Valid() && input[index..] == SkipBlanks(old(input[index..]))
    {
      while index < |input| && IsAsciiSpace(input[index])
        invariant Valid()
        invariant SkipBlanks(input[index..]) == SkipBlanks(old(input[index..]))
      {
        assert input[index..][1..] == input[index + 1..];
        index := index + 1;
      }
    }

    /** The loop over a quoted token, after its opening quote. */
    method FindClosingQuote() returns (found: bool)
      requires Valid()
      modifies this
      ensures Valid()
      ensures var after := AfterQuoted(old(input[index..]), false);
              found == after.Some? && (found ==> input[index..] == after.value)
    {
      var escaped := false;
      found := false;
      while index < |input| && !found
        invariant Valid()
        invariant found ==> AfterQuoted(old(input[index..]), false) == Some(input[index..])
        invariant !found ==> AfterQuoted(input[index..], escaped) == AfterQuoted(old(input[index..]), false)
        decreases |input| - index
      {
        var c := input[index];
        assert input[index..][1..] == input[index + 1..];
        index := index + 1;
        if escaped {
          if !IsQuotedEscape(c) { return false; }
          escaped := false;
        } else if c == '\\' {
          escaped := true;
        } else if c == '\"' {
          found := true;
        }
      }
    }

    /** The loop over a structured token, after its opening bracket. */
    method FindClosingBracket(opening: char) returns (found: bool)
      requires Valid()
      modifies this
      ensures Valid()
      ensures var after := AfterBrackets(old(input[index..]), [opening], false, false);
              found == after.Some? && (found ==> input[index..] == after.value)
    {
      var stack := [opening];
      var quoted, escaped := false, false;
      found := false;
      while index < |input| && !found
        invariant Valid() && stack != []
        invariant escaped ==> quoted
        invariant found ==> AfterBrackets(old(input[index..]), [opening], false, false) == Some(input[index..])
        invariant !found ==> AfterBrackets(input[index..], stack, quoted, escaped)
                             == AfterBrackets(old(input[index..]), [opening], false, false)
        decreases |input| - index
      {
        var c := input[index];
        assert input[index..][1..] == input[index + 1..];
        index := index + 1;
        if quoted {
          if escaped {
            escaped := false;
          } else if c == '\\' {
            escaped := true;
          } else if c == '\"' {
            quoted := false;
          }
        } else if c == '\"' {
          quoted := true;
        } else if c == '[' || c == '{' {
          stack := stack + [c];
        } else if c == ']' || c == '}' {
          if stack[|stack| - 1] != Opening(c) { return false; }
          if |stack| == 1 {
            found := true;
          } else {
            stack := stack[..|stack| - 1];
          }
        }
      }
    }

    method FindWordEnd()
      requires Valid()
      modifies this
      ensures Valid() && input[index..] == AfterWord(old(input[index..]))
    {
      while index < |input| && !IsAsciiSpace(input[index])
        invariant Valid()
        invariant AfterWord(input[index..]) == AfterWord(old(input[index..]))
      {
        assert input[index..][1..] == input[index + 1..];
        index := index + 1;
      }
    }

    /** `Scanner::next`. */
    method NextToken() returns (r: Scan)
      requires Valid()
      modifies this
      ensures Valid()
      ensures r == ScanToken(old(input[index..]))
      ensures r.Next? ==> input[index..] == r.rest
    {
      SkipToToken();
      if index == |input| { return Stop; }
      var start := index;
      ghost var s := input[start..];
      var first := input[index];
      if first == '\"' {
        index := index + 1;
        assert s[1..] == input[index..];
        var closed := FindClosingQuote();
        if !closed { return Bad; }
        assert Consumed(s, input[index..]) == input[start..index];
        match ParseString(input[start..index][1..])
        case Fail => return Bad;
        case Got(text, left) => return if left == "" then Next(Token(text, true), input[index..]) else Bad;
      }
      if first == '[' || first == '{' {
        index := index + 1;
        assert s[1..] == input[index..];
        var closed := FindClosingBracket(first);
        if !closed { return Bad; }
        assert Consumed(s, input[index..]) == input[start..index];
        if ParseDocument(input[start..index]).None? { return Bad; }
        return Next(Token(input[start..index], false), input[index..]);
      }
      FindWordEnd();
      assert Consumed(s, input[index..]) == input[start..index];
      return Next(Token(input[start..index], false), input[index..]);
    }

    /** `Scanner::all`. */
    method All() returns (r: Option<seq<Token>>)
      requires Valid()
      modifies this
      ensures r == NotEmpty(ScanAll(old(input[index..])))
    {
      var tokens: seq<Token> := [];
      var more := true;
      ghost var start := input[index..];
      PrefixedNothing(ScanAll(start));
      while more
        invariant Valid()
        invariant more ==> ScanAll(start) == Prefixed(tokens, ScanAll(input[index..]))
        invariant !more ==> ScanAll(start) == Some(tokens)
        decreases more, |input| - index
      {
        var r := NextToken();
        match r
        case Stop =>
          more := false;
          assert tokens + [] == tokens;
        case Bad => return None;
        case Next(token, _) =>
          PrefixedToken(tokens, token, ScanAll(input[index..]));
          tokens := tokens + [token];
      }
      if tokens == [] { return None; }
      return Some(tokens);
    }
  }

  lemma PrefixedNothing(later: Option<seq<Token>>)
    ensures Prefixed([], later) == later
  {
    if later.Some? { assert [] + later.value == later.value; }
  }

  lemma PrefixedToken(tokens: seq<Token>, token: Token, later: Option<seq<Token>>)
    ensures Prefixed(tokens, Prefixed([token], later)) == Prefixed(tokens + [token], later)
  {
    if later.Some? { assert tokens + ([token] + later.value) == tokens + [token] + later.value; }
  }

  function Prefixed(tokens: seq<Token>, later: Option<seq<Token>>): Option<seq<Token>> {
    if later.None? then None else Some(tokens + later.value)
  }
}
