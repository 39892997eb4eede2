/** Frames as words: what the encoders print, the tokenizer reads back. */
module Words {
  import opened Wrappers
  import opened Decimal
  import opened Json
  import opened JsonRoundTrip
  import opened Scanner

  /** One argument of a frame: a bare word, an identifier in quotes, or a JSON literal. */
  datatype Word = Bare(text: string) | Quoted(text: string) | Literal(value: Value)

  predicate IsPlain(c: char) {
    || 'a' <= c <= 'z' || 'A' <= c <= 'Z' || '0' <= c <= '9'
    || c == '_' || c == '.' || c == '/' || c == ':' || c == '*' || c == '~' || c == '$' || c == '-'
  }

  predicate AllPlain(s: string) { forall i | 0 <= i < |s| :: IsPlain(s[i]) }

  /** `quote`: identifiers made of plain characters stay bare. */
  function Identifier(s: string): Word {
    if s != "" && AllPlain(s) then Bare(s) else Quoted(s)
  }

  function Printed(w: Word): string {
    match w
    case Bare(text) => text
    case Quoted(text) => PrintString(text)
    case Literal(v) => Text(v)
  }

  /** Words separated by single spaces. */
  function Frame(words: seq<Word>): string {
    if words == [] then ""
    else if |words| == 1 then Printed(words[0])
    else Printed(words[0]) + " " + Frame(words[1..])
  }

  /** The escapes of the frame tokenizer: no control characters but newline, return and tab. */
  predicate Quotable(s: string) {
    forall i | 0 <= i < |s| :: IsControl(s[i]) ==> s[i] == '\n' || s[i] == '\r' || s[i] == '\t'
  }

  /** Words that are built from valid parts. */
  predicate Sound(w: Word) {
    match w
    case Bare(text) =>
      && text != "" && (forall i | 0 <= i < |text| :: !IsAsciiSpace(text[i]))
      && text[0] != '\"' && text[0] != '[' && text[0] != '{'
    case Quoted(_) => true
    case Literal(v) => WellFormed(v)
  }

  /** Values the tokenizer can read: top-level strings that can be quoted, and arrays and objects
      that do not nest too deeply. */
  predicate ReadableValue(v: Value) { (v.Str? ==> Quotable(v.text)) && Depth(v) < RECURSION_LIMIT }

  /** Words the tokenizer can read. */
  predicate Readable(w: Word) {
    match w
    case Bare(_) => true
    case Quoted(text) => Quotable(text)
    case Literal(v) => ReadableValue(v)
  }

  function TokenOf(w: Word): Token {
    match w
    case Bare(text) => Token(text, false)
    case Quoted(text) => Token(text, true)
    case Literal(v) => if v.Str? then Token(v.text, true) else Token(Text(v), false)
  }

  function TokensOf(words: seq<Word>): (tokens: seq<Token>)
    ensures |tokens| == |words|
    ensures forall i | 0 <= i < |words| :: tokens[i] == TokenOf(words[i])
  {
    if words == [] then [] else [TokenOf(words[0])] + TokensOf(words[1..])
  }

  // ---- quoted words ----------------------------------------------------------------------------

  lemma EscapedQuoted(c: char, t: string)
    ensures AfterQuoted(Escape(c) + t, false) == if Quotable([c]) then AfterQuoted(t, false) else None
  {
    var s := Escape(c) + t;
    if IsControl(c) || c == '\"' || c == '\\' {
      assert s[0] == '\\' && s[1..] == Escape(c)[1..] + t;
      assert s[1..][0] == Escape(c)[1];
      if |Escape(c)| == 2 { assert s[1..][1..] == t; }
      assert [c][0] == c;
    } else {
      assert s[1..] == t;
    }
  }

  /** The quoted scanner stops exactly behind a quotable text and rejects any other. */
  lemma {:induction false} QuotedScan(v: string, rest: string)
    ensures AfterQuoted(EscapeAll(v) + "\"" + rest, false) == if Quotable(v) then Some(rest) else None
  {
    if v == "" {
      assert EscapeAll(v) + "\"" + rest == "\"" + rest;
      assert ("\"" + rest)[1..] == rest;
    } else {
      var t := EscapeAll(v[1..]) + "\"" + rest;
      assert EscapeAll(v) + "\"" + rest == Escape(v[0]) + t;
      EscapedQuoted(v[0], t);
      QuotedScan(v[1..], rest);
      assert v == [v[0]] + v[1..];
    }
  }

  lemma QuotedToken(v: string, rest: string)
    ensures ScanQuoted(PrintString(v) + rest) == if Quotable(v) then Next(Token(v, true), rest) else Bad
  {
    var s := PrintString(v) + rest;
    assert s[1..] == EscapeAll(v) + "\"" + rest;
    QuotedScan(v, rest);
    if Quotable(v) {
      assert Consumed(s, rest) == PrintString(v);
      assert PrintString(v)[1..] == EscapeAll(v) + "\"" + "";
      StringParses(v, "");
    }
  }

  // ---- structured words --------------------------------------------------------------------------

  lemma {:induction false} InsideString(s: string, t: string, stack: string)
    requires forall i | 0 <= i < |s| :: s[i] != '\"' && s[i] != '\\'
    ensures AfterBrackets(s + t, stack, true, false) == AfterBrackets(t, stack, true, false)
  {
    if s == "" {
      assert s + t == t;
    } else {
      assert (s + t)[1..] == s[1..] + t;
      InsideString(s[1..], t, stack);
    }
  }

  lemma EscapedBrackets(c: char, t: string, stack: string)
    ensures AfterBrackets(Escape(c) + t, stack, true, false) == AfterBrackets(t, stack, true, false)
  {
    var s := Escape(c) + t;
    if IsControl(c) || c == '\"' || c == '\\' {
      assert s[0] == '\\' && s[1..] == Escape(c)[1..] + t;
      assert s[1..][1..] == Escape(c)[2..] + t;
      if |Escape(c)| == 2 {
        assert s[1..][1..] == t;
      } else {
        InsideString(Escape(c)[2..], t, stack);
      }
    } else {
      assert s[1..] == t;
    }
  }

  lemma {:induction false} StringBrackets(v: string, rest: string, stack: string)
    ensures AfterBrackets(EscapeAll(v) + "\"" + rest, stack, true, false) == AfterBrackets(rest, stack, false, false)
  {
    if v == "" {
      assert EscapeAll(v) + "\"" + rest == "\"" + rest;
      assert ("\"" + rest)[1..] == rest;
    } else {
      var t := EscapeAll(v[1..]) + "\"" + rest;
      assert EscapeAll(v) + "\"" + rest == Escape(v[0]) + t;
      EscapedBrackets(v[0], t, stack);
      StringBrackets(v[1..], rest, stack);
    }
  }

  predicate Unbracketed(s: string) {
    forall i | 0 <= i < |s| :: s[i] != '\"' && s[i] != '[' && s[i] != '{' && s[i] != ']' && s[i] != '}'
  }

  lemma {:induction false} PlainBrackets(s: string, rest: string, stack: string)
    requires Unbracketed(s)
    ensures AfterBrackets(s + rest, stack, false, false) == AfterBrackets(rest, stack, false, false)
  {
    if s == "" {
      assert s + rest == rest;
    } else {
      assert (s + rest)[1..] == s[1..] + rest;
      PlainBrackets(s[1..], rest, stack);
    }
  }

  /** Inside an open bracket the scanner consumes exactly one printed value. */
  lemma {:induction false} ValueBrackets(v: Value, rest: string, stack: string)
    requires stack != ""
    ensures AfterBrackets(Text(v) + rest, stack, false, false) == AfterBrackets(rest, stack, false, false)
    decreases v, 0
  {
    match v
    case Null => PlainBrackets("null", rest, stack);
    case Bool(b) => PlainBrackets(Text(v), rest, stack);
    case Number(n) => PlainBrackets(PrintNumber(n), rest, stack);
    case Str(text) => QuoteBrackets(text, rest, stack);
    case Array(items) => ArrayBrackets(items, rest, stack);
    case Object(fields) => ObjectBrackets(fields, rest, stack);
  }

  lemma QuoteBrackets(text: string, rest: string, stack: string)
    requires stack != ""
    ensures AfterBrackets(Text(Str(text)) + rest, stack, false, false) == AfterBrackets(rest, stack, false, false)
  {
    var body := EscapeAll(text) + "\"" + rest;
    assert Text(Str(text)) + rest == "\"" + body && ("\"" + body)[1..] == body;
    StringBrackets(text, rest, stack);
  }

  lemma ArrayBrackets(items: Items, rest: string, stack: string)
    requires stack != ""
    ensures AfterBrackets(Text(Array(items)) + rest, stack, false, false) == AfterBrackets(rest, stack, false, false)
    decreases items, 2
  {
    var body := ItemsText(items) + "]" + rest;
    assert Text(Array(items)) + rest == "[" + body;
    OpenBracket('[', body, stack);
    ItemsBrackets(items, rest, stack + "[");
    assert (stack + "[")[..|stack|] == stack;
  }

  lemma ObjectBrackets(fields: Fields, rest: string, stack: string)
    requires stack != ""
    ensures AfterBrackets(Text(Object(fields)) + rest, stack, false, false) == AfterBrackets(rest, stack, false, false)
    decreases fields, 2
  {
    var body := FieldsText(fields) + "}" + rest;
    assert Text(Object(fields)) + rest == "{" + body;
    OpenBracket('{', body, stack);
    FieldsBrackets(fields, rest, stack + "{");
    assert (stack + "{")[..|stack|] == stack;
  }

  lemma OpenBracket(c: char, rest: string, stack: string)
    requires stack != "" && (c == '[' || c == '{')
    ensures AfterBrackets([c] + rest, stack, false, false) == AfterBrackets(rest, stack + [c], false, false)
  {
    assert ([c] + rest)[1..] == rest;
  }

  /** What happens at the bracket that closes the top of the stack. */
  function Closed(rest: string, stack: string): Option<string>
    requires stack != ""
  {
    if |stack| == 1 then Some(rest) else AfterBrackets(rest, stack[..|stack| - 1], false, false)
  }

  lemma CloseBracket(c: char, rest: string, stack: string)
    requires stack != "" && (c == ']' || c == '}') && stack[|stack| - 1] == Opening(c)
    ensures AfterBrackets([c] + rest, stack, false, false) == Closed(rest, stack)
  {
    assert ([c] + rest)[1..] == rest;
  }

  lemma {:induction false} ItemsBrackets(items: Items, rest: string, stack: string)
    requires stack != "" && stack[|stack| - 1] == '['
    ensures AfterBrackets(ItemsText(items) + "]" + rest, stack, false, false) == Closed(rest, stack)
    decreases items, 1
  {
    CloseBracket(']', rest, stack);
    match items
    case End => assert ItemsText(items) + "]" + rest == "]" + rest;
    case Item(v, End) =>
      assert ItemsText(items) + "]" + rest == Text(v) + ("]" + rest);
      ValueBrackets(v, "]" + rest, stack);
    case Item(v, tail) =>
      var later := ItemsText(tail) + "]" + rest;
      assert ItemsText(items) + "]" + rest == Text(v) + ("," + later);
      ValueBrackets(v, "," + later, stack);
      PlainBrackets(",", later, stack);
      ItemsBrackets(tail, rest, stack);
  }

  lemma {:induction false} FieldsBrackets(fields: Fields, rest: string, stack: string)
    requires stack != "" && stack[|stack| - 1] == '{'
    ensures AfterBrackets(FieldsText(fields) + "}" + rest, stack, false, false) == Closed(rest, stack)
    decreases fields, 1
  {
    CloseBracket('}', rest, stack);
    if fields.NoField? {
      assert FieldsText(fields) + "}" + rest == "}" + rest;
    } else {
      var after := AfterMember(fields, rest);
      var member := ":" + (Text(fields.value) + after);
      var body := EscapeAll(fields.name) + "\"" + member;
      FieldsTextSplits(fields, rest);
      assert ("\"" + body)[1..] == body;
      StringBrackets(fields.name, member, stack);
      PlainBrackets(":", Text(fields.value) + after, stack);
      ValueBrackets(fields.value, after, stack);
      if fields.rest.Field? {
        PlainBrackets(",", FieldsText(fields.rest) + "}" + rest, stack);
        FieldsBrackets(fields.rest, rest, stack);
      }
    }
  }

  lemma {:induction false} ArrayEnds(items: Items, rest: string)
    ensures var s := Text(Array(items)) + rest;
            s[0] == '[' && AfterBrackets(s[1..], "[", false, false) == Some(rest)
  {
    Bracketed('[', ItemsText(items), "]", rest);
    ItemsBrackets(items, rest, "[");
  }

  lemma Bracketed(open: char, body: string, close: string, rest: string)
    ensures var s := [open] + body + close + rest; s[0] == open && s[1..] == body + close + rest
  {
  }

  lemma {:induction false} ObjectEnds(fields: Fields, rest: string)
    ensures var s := Text(Object(fields)) + rest;
            s[0] == '{' && AfterBrackets(s[1..], "{", false, false) == Some(rest)
  {
    Bracketed('{', FieldsText(fields), "}", rest);
    FieldsBrackets(fields, rest, "{");
  }

  /** The bracket scanner ends exactly behind a printed array or object. */
  lemma StructuredEnds(v: Value, rest: string)
    requires v.Array? || v.Object?
    ensures var s := Text(v) + rest;
            (s[0] == '[' || s[0] == '{') && AfterBrackets(s[1..], [s[0]], false, false) == Some(rest)
  {
    if v.Array? { ArrayEnds(v.items, rest); } else { ObjectEnds(v.fields, rest); }
  }

  /** A structured token is exactly the printed value, unless that nests too deeply. */
  lemma StructuredToken(v: Value, rest: string)
    requires WellFormed(v) && (v.Array? || v.Object?)
    ensures ScanStructured(Text(v) + rest)
            == if Depth(v) < RECURSION_LIMIT then Next(Token(Text(v), false), rest) else Bad
  {
    StructuredEnds(v, rest);
    assert Consumed(Text(v) + rest, rest) == Text(v);
    DocumentParses(v);
  }

  // ---- bare words ------------------------------------------------------------------------------------

  /** What may follow a word in a frame. */
  predicate WordEnds(rest: string) { rest == "" || rest[0] == ' ' }

  lemma {:induction false} BareScan(word: string, rest: string)
    requires WordEnds(rest) && forall i | 0 <= i < |word| :: !IsAsciiSpace(word[i])
    ensures AfterWord(word + rest) == rest
  {
    if word == "" {
      assert word + rest == rest;
    } else {
      assert (word + rest)[1..] == word[1..] + rest;
      BareScan(word[1..], rest);
    }
  }

  lemma BareToken(word: string, rest: string)
    requires Sound(Bare(word)) && WordEnds(rest)
    ensures ScanToken(word + rest) == Next(Token(word, false), rest)
  {
    var s := word + rest;
    assert s[0] == word[0] && !IsAsciiSpace(s[0]);
    assert SkipBlanks(s) == s;
    BareScan(word, rest);
    assert Consumed(s, rest) == word;
  }

  /** Numbers, booleans and null are printed as bare words. */
  lemma ScalarIsBare(v: Value)
    requires v.Null? || v.Bool? || v.Number?
    ensures Sound(Bare(Text(v)))
  {
    if v.Number? {
      var text := PrintNumber(v.n);
      assert forall i | 0 <= i < |text| :: IsDigit(text[i]) || text[i] == '-';
    }
  }

  /** The tokenizer reads one printed word, or rejects it. */
  lemma WordToken(w: Word, rest: string)
    requires Sound(w) && WordEnds(rest)
    ensures ScanToken(Printed(w) + rest) == if Readable(w) then Next(TokenOf(w), rest) else Bad
  {
    match w
    case Bare(text) => BareToken(text, rest);
    case Quoted(text) => QuotedToken(text, rest);
    case Literal(v) =>
      if v.Str? {
        QuotedToken(v.text, rest);
      } else if v.Array? || v.Object? {
        StructuredToken(v, rest);
      } else {
        ScalarIsBare(v);
        BareToken(Text(v), rest);
      }
  }

  lemma SpaceBefore(rest: string)
    ensures ScanToken(" " + rest) == ScanToken(rest)
  {
    assert (" " + rest)[1..] == rest;
  }

  predicate AllReadable(words: seq<Word>) { forall i | 0 <= i < |words| :: Readable(words[i]) }

  lemma ReadableFirst(words: seq<Word>)
    requires words != []
    ensures AllReadable(words) <==> Readable(words[0]) && AllReadable(words[1..])
  {
    assert forall i | 1 <= i < |words| :: words[i] == words[1..][i - 1];
  }

  /** A frame of sound words is read back word by word, or rejected as a whole. */
  lemma {:induction false} FrameTokens(words: seq<Word>)
    requires words != [] && forall i | 0 <= i < |words| :: Sound(words[i])
    ensures ScanAll(Frame(words)) == if AllReadable(words) then Some(TokensOf(words)) else None
    decreases |words|
  {
    var rest := FrameRest(words);
    FrameFirst(words);
    WordToken(words[0], rest);
    ReadableFirst(words);
    if |words| == 1 {
      assert words[1..] == [] && TokensOf(words) == [TokenOf(words[0])];
    } else {
      FrameTokens(words[1..]);
      SpaceBefore(Frame(words[1..]));
    }
    ScanFirst(Printed(words[0]) + rest, words[0], rest);
  }

  /** What follows the first word of a frame. */
  function FrameRest(words: seq<Word>): string { if |words| <= 1 then "" else " " + Frame(words[1..]) }

  lemma FrameFirst(words: seq<Word>)
    requires words != []
    ensures Frame(words) == Printed(words[0]) + FrameRest(words)
  {
  }

  lemma ScanFirst(frame: string, w: Word, rest: string)
    requires ScanToken(frame) == if Readable(w) then Next(TokenOf(w), rest) else Bad
    ensures ScanAll(frame)
            == if !Readable(w) || ScanAll(rest).None? then None else Some([TokenOf(w)] + ScanAll(rest).value)
  {
  }

  // ---- frames are one line -------------------------------------------------------------------------------

  lemma {:induction false} EscapeAllOneLine(v: string)
    ensures OneLine(EscapeAll(v))
  {
    if v != "" { EscapeAllOneLine(v[1..]); }
  }

  lemma {:induction false} TextOneLine(v: Value)
    ensures OneLine(Text(v))
    decreases v, 0
  {
    match v
    case Str(text) => EscapeAllOneLine(text);
    case Array(items) => ItemsOneLine(items);
    case Object(fields) => FieldsOneLine(fields);
    case Number(n) => assert forall i | 0 <= i < |Text(v)| :: IsDigit(Text(v)[i]) || Text(v)[i] == '-';
    case _ =>
  }

  lemma {:induction false} ItemsOneLine(items: Items)
    ensures OneLine(ItemsText(items))
    decreases items, 1
  {
    if items.Item? {
      TextOneLine(items.head);
      ItemsOneLine(items.tail);
    }
  }

  lemma {:induction false} FieldsOneLine(fields: Fields)
    ensures OneLine(FieldsText(fields))
    decreases fields, 1
  {
    if fields.Field? {
      EscapeAllOneLine(fields.name);
      TextOneLine(fields.value);
      FieldsOneLine(fields.rest);
      var member := PrintString(fields.name) + ":" + Text(fields.value);
      assert OneLine(member);
      assert FieldsText(fields) == if fields.rest.NoField? then member else member + "," + FieldsText(fields.rest);
    }
  }

  lemma PrintedOneLine(w: Word)
    requires Sound(w)
    ensures OneLine(Printed(w)) && Printed(w) != ""
  {
    match w
    case Bare(text) =>
    case Quoted(text) => EscapeAllOneLine(text);
    case Literal(v) =>
      TextOneLine(v);
      TextStart(v);
  }

  lemma {:induction false} FrameOneLine(words: seq<Word>)
    requires forall i | 0 <= i < |words| :: Sound(words[i])
    ensures OneLine(Frame(words)) && (words != [] ==> Frame(words) != "")
    decreases |words|
  {
    if words != [] {
      PrintedOneLine(words[0]);
      FrameOneLine(words[1..]);
    }
  }

  /** Encoding words and tokenizing the frame gives the words back exactly when every
      word is readable and the frame fits. */
  lemma FrameRoundTrip(words: seq<Word>)
    requires words != [] && forall i | 0 <= i < |words| :: Sound(words[i])
    ensures Tokens(Frame(words)) ==
            if Utf8Length(Frame(words)) <= MAX_FRAME_BYTES && forall i | 0 <= i < |words| :: Readable(words[i])
            then Some(TokensOf(words)) else None
  {
    FrameTokens(words);
    FrameOneLine(words);
  }
}
