/** Parsing inverts printing for every well-formed JSON value. */
module JsonRoundTrip {
  import opened Wrappers
  import opened Decimal
  import opened Hex
  import opened Json

  // ---- strings ---------------------------------------------------------------------------------

  lemma EscapedParses(c: char, t: string)
    ensures ParseString(Escape(c) + t) == Prepend(c, ParseString(t))
  {
    var s := Escape(c) + t;
    if IsControl(c) || c == '\"' || c == '\\' {
      if |Escape(c)| == 2 { ShortParses(c, t); } else { ControlParses(c, t); }
      EscapeParses(c, s, Escape(c)[1..] + t, t);
    } else {
      assert s[1..] == t;
    }
  }

  lemma EscapeParses(c: char, s: string, body: string, t: string)
    requires s != "" && s[0] == '\\' && s[1..] == body && ParseEscape(body) == Got(c, t)
    ensures ParseString(s) == Prepend(c, ParseString(t))
  {
  }

  lemma ShortParses(c: char, t: string)
    requires (IsControl(c) || c == '\"' || c == '\\') && |Escape(c)| == 2
    ensures ParseEscape(Escape(c)[1..] + t) == Got(c, t)
  {
    var s := Escape(c)[1..] + t;
    assert s[0] == Escape(c)[1] && s[1..] == t;
  }

  lemma ControlParses(c: char, t: string)
    requires IsControl(c) && |Escape(c)| == 6
    ensures ParseEscape(Escape(c)[1..] + t) == Got(c, t)
  {
    var s := Escape(c)[1..] + t;
    var hi, lo := c as nat / 16, c as nat % 16;
    assert s[0] == 'u' && s[1] == '0' && s[2] == '0' && s[3] == LowerHexDigit(hi) && s[4] == LowerHexDigit(lo);
    assert s[1..][0] == '0' && s[1..][1] == '0' && s[1..][2] == s[3] && s[1..][3] == s[4];
    assert HexValue(LowerHexDigit(hi)) == Some(hi) && HexValue(LowerHexDigit(lo)) == Some(lo);
    assert s[5..] == t;
  }

  lemma {:induction false} StringParses(v: string, rest: string)
    ensures ParseString(EscapeAll(v) + "\"" + rest) == Got(v, rest)
  {
    if v == "" {
      var s := EscapeAll(v) + "\"" + rest;
      assert s == "\"" + rest && s[1..] == rest;
    } else {
      var t := EscapeAll(v[1..]) + "\"" + rest;
      assert EscapeAll(v) + "\"" + rest == Escape(v[0]) + t;
      EscapedParses(v[0], t);
      StringParses(v[1..], rest);
      assert [v[0]] + v[1..] == v;
    }
  }

  // ---- numbers ---------------------------------------------------------------------------------

  /** What may follow a number without becoming part of it. */
  predicate Delimited(rest: string) {
    rest == "" || !(IsDigit(rest[0]) || rest[0] == '.' || rest[0] == 'e' || rest[0] == 'E')
  }

  lemma NaturalParses(n: nat, rest: string)
    requires Delimited(rest)
    ensures ParseNatural(Print(n) + rest) == Got(n, rest)
  {
    var s := Print(n) + rest;
    DigitRunOf(Print(n), rest);
    assert s[..|Print(n)|] == Print(n) && s[|Print(n)|..] == rest;
    if n == 0 { assert Print(n) == "0"; } else { assert s[0] == Print(n)[0]; }
    assert |rest| > 0 ==> s[|Print(n)|] == rest[0];
  }

  lemma NegativeParses(n: nat, rest: string)
    requires 0 < n <= -MIN_NUMBER && Delimited(rest)
    ensures ParseNumber("-" + Print(n) + rest) == Got(Number(-(n as int)), rest)
  {
    NaturalParses(n, rest);
    MinusParses(Print(n) + rest, n, rest);
    assert "-" + (Print(n) + rest) == "-" + Print(n) + rest;
  }

  lemma MinusParses(body: string, n: nat, rest: string)
    requires 0 < n <= -MIN_NUMBER && ParseNatural(body) == Got(n, rest)
    ensures ParseNumber("-" + body) == Got(Number(-(n as int)), rest)
  {
    assert ("-" + body)[1..] == body;
  }

  lemma NonNegativeParses(n: nat, rest: string)
    requires n <= MAX_NUMBER && Delimited(rest)
    ensures ParseNumber(Print(n) + rest) == Got(Number(n), rest)
  {
    NaturalParses(n, rest);
    assert (Print(n) + rest)[0] == Print(n)[0];
  }

  // ---- ordered members ---------------------------------------------------------------------------

  lemma {:induction false} BeforeIsTransitive(a: string, b: string, c: string)
    requires Before(a, b) && Before(b, c)
    ensures Before(a, c)
  {
    if a != "" && a[0] == b[0] && b[0] == c[0] { BeforeIsTransitive(a[1..], b[1..], c[1..]); }
  }

  lemma {:induction false} BeforeIsStrict(a: string)
    ensures !Before(a, a)
  {
    if a != "" { BeforeIsStrict(a[1..]); }
  }

  lemma {:induction false} SmallerNameIsAbsent(name: string, fields: Fields)
    requires WellFormedFields(fields) && (fields.Field? ==> Before(name, fields.name))
    ensures !HasName(fields, name)
  {
    if fields.Field? {
      BeforeIsStrict(name);
      if fields.rest.Field? { BeforeIsTransitive(name, fields.name, fields.rest.name); }
      SmallerNameIsAbsent(name, fields.rest);
    }
  }

  lemma {:induction false} SortedIsNormal(fields: Fields)
    requires WellFormedFields(fields)
    ensures Normalize(fields) == fields
  {
    if fields.Field? {
      SortedIsNormal(fields.rest);
      SmallerNameIsAbsent(fields.name, fields.rest);
    }
  }

  // ---- values --------------------------------------------------------------------------------------

  lemma NoLeadingSpace(s: string)
    requires s != "" && !IsSpace(s[0])
    ensures SkipSpace(s) == s
  {
  }

  /** Printed values start with a character that decides how they are parsed. */
  lemma TextStart(v: Value)
    ensures Text(v) != "" && !IsSpace(Text(v)[0]) && Text(v)[0] != ']'
  {
    if v.Number? { assert IsDigit(PrintNumber(v.n)[0]) || PrintNumber(v.n)[0] == '-'; }
  }

  lemma NumberIsParsed(s: string, left: nat)
    requires s != "" && (IsDigit(s[0]) || s[0] == '-')
    ensures ParseValue(s, left) == ParseNumber(s)
  {
    NoLeadingSpace(s);
  }

  lemma NumberValueParses(n: int, rest: string, left: nat)
    requires MIN_NUMBER <= n <= MAX_NUMBER && Delimited(rest)
    ensures ParseValue(PrintNumber(n) + rest, left) == Got(Number(n), rest)
  {
    var s := PrintNumber(n) + rest;
    assert s[0] == PrintNumber(n)[0];
    NumberIsParsed(s, left);
    if n < 0 { NegativeParses(-n, rest); } else { NonNegativeParses(n, rest); }
  }

  lemma WordParses(v: Value, rest: string, left: nat)
    requires v.Null? || v.Bool?
    ensures ParseValue(Text(v) + rest, left) == Got(v, rest)
  {
    var s := Text(v) + rest;
    NoLeadingSpace(s);
    assert s[..|Text(v)|] == Text(v) && s[|Text(v)|..] == rest;
  }

  lemma StringValueParses(text: string, rest: string, left: nat)
    ensures ParseValue(PrintString(text) + rest, left) == Got(Str(text), rest)
  {
    StringParses(text, rest);
    QuotedParses(EscapeAll(text) + "\"" + rest, text, rest, left);
    PrintedString(text, rest);
  }

  lemma PrintedString(text: string, rest: string)
    ensures "\"" + (EscapeAll(text) + "\"" + rest) == PrintString(text) + rest
  {
  }

  lemma QuotedParses(body: string, text: string, rest: string, left: nat)
    requires ParseString(body) == Got(text, rest)
    ensures ParseValue("\"" + body, left) == Got(Str(text), rest)
  {
    var s := "\"" + body;
    NoLeadingSpace(s);
    assert s[1..] == body;
  }

  /** What is read, if the depth allows it. */
  function Within<T>(allowed: bool, v: T, rest: string): Parsed<T> { if allowed then Got(v, rest) else Fail }

  /** Parsing reads exactly the printed value, whatever follows it, or rejects it for its depth. */
  lemma {:induction false} ValueParses(v: Value, rest: string, left: nat)
    requires WellFormed(v) && Delimited(rest) && left > 0
    ensures ParseValue(Text(v) + rest, left) == Within(Depth(v) < left, v, rest)
    decreases v, 0
  {
    match v
    case Null => WordParses(v, rest, left);
    case Bool(_) => WordParses(v, rest, left);
    case Number(n) => NumberValueParses(n, rest, left);
    case Str(text) => StringValueParses(text, rest, left);
    case Array(items) => ArrayValueParses(items, rest, left);
    case Object(fields) => ObjectValueParses(fields, rest, left);
  }

  lemma ArrayValueParses(items: Items, rest: string, left: nat)
    requires WellFormedItems(items) && left > 0
    ensures ParseValue("[" + ItemsText(items) + "]" + rest, left)
            == Within(Depth(Array(items)) < left, Array(items), rest)
    decreases items, 3
  {
    var body := ItemsText(items) + "]" + rest;
    if left > 1 { ArrayParses(items, rest, left - 1); }
    assert "[" + ItemsText(items) + "]" + rest == "[" + body;
    OpenBracketParses(body, items, rest, left);
  }

  lemma OpenBracketParses(body: string, items: Items, rest: string, left: nat)
    requires left > 1 ==>
               var u := SkipSpace(body);
               u != "" && if items.End? then u == "]" + rest
                          else u[0] != ']' && ParseItems(u, left - 1)
                                          == Within(ItemsDepth(items) < left - 1, items, rest)
    ensures ParseValue("[" + body, left) == Within(1 + ItemsDepth(items) < left, Array(items), rest)
  {
    var s := "[" + body;
    NoLeadingSpace(s);
    assert s[1..] == body && ("]" + rest)[1..] == rest;
  }

  lemma ObjectValueParses(fields: Fields, rest: string, left: nat)
    requires WellFormedFields(fields) && left > 0
    ensures ParseValue("{" + FieldsText(fields) + "}" + rest, left)
            == Within(Depth(Object(fields)) < left, Object(fields), rest)
    decreases fields, 3
  {
    var body := FieldsText(fields) + "}" + rest;
    if left > 1 { ObjectParses(fields, rest, left - 1); }
    SortedIsNormal(fields);
    assert "{" + FieldsText(fields) + "}" + rest == "{" + body;
    OpenBraceParses(body, fields, rest, left);
  }

  lemma OpenBraceParses(body: string, fields: Fields, rest: string, left: nat)
    requires Normalize(fields) == fields
    requires left > 1 ==>
               var u := SkipSpace(body);
               u != "" && if fields.NoField? then u == "}" + rest
                          else u[0] != '}' && ParseFields(u, left - 1)
                                          == Within(FieldsDepth(fields) < left - 1, fields, rest)
    ensures ParseValue("{" + body, left) == Within(1 + FieldsDepth(fields) < left, Object(fields), rest)
  {
    var s := "{" + body;
    NoLeadingSpace(s);
    assert s[1..] == body && ("}" + rest)[1..] == rest;
  }

  lemma ArrayParses(items: Items, rest: string, left: nat)
    requires WellFormedItems(items) && left > 0
    ensures var u := SkipSpace(ItemsText(items) + "]" + rest);
            u != "" && if items.End? then u == "]" + rest
                       else u[0] != ']' && ParseItems(u, left) == Within(ItemsDepth(items) < left, items, rest)
    decreases items, 2
  {
    var u := ItemsText(items) + "]" + rest;
    if items.Item? {
      TextStart(items.head);
      assert u[0] == Text(items.head)[0];
      ItemsParse(items, rest, left);
    } else {
      assert u == "]" + rest;
    }
    NoLeadingSpace(u);
  }

  lemma {:induction false} ItemsParse(items: Items, rest: string, left: nat)
    requires items.Item? && WellFormedItems(items) && left > 0
    ensures ParseItems(ItemsText(items) + "]" + rest, left) == Within(ItemsDepth(items) < left, items, rest)
    decreases items, 1
  {
    var after := if items.tail.End? then "]" + rest else "," + (ItemsText(items.tail) + "]" + rest);
    assert ItemsText(items) + "]" + rest == Text(items.head) + after;
    ValueParses(items.head, after, left);
    NoLeadingSpace(after);
    if items.tail.End? {
      assert after[1..] == rest;
    } else {
      assert after[1..] == ItemsText(items.tail) + "]" + rest;
      ItemsParse(items.tail, rest, left);
    }
  }

  lemma ObjectParses(fields: Fields, rest: string, left: nat)
    requires WellFormedFields(fields) && left > 0
    ensures var u := SkipSpace(FieldsText(fields) + "}" + rest);
            u != "" && if fields.NoField? then u == "}" + rest
                       else u[0] != '}' && ParseFields(u, left) == Within(FieldsDepth(fields) < left, fields, rest)
    decreases fields, 2
  {
    var u := FieldsText(fields) + "}" + rest;
    if fields.Field? {
      assert u[0] == '\"';
      FieldsParse(fields, rest, left);
    } else {
      assert u == "}" + rest;
    }
    NoLeadingSpace(u);
  }

  /** The rest of an object's text after its first member. */
  function AfterMember(fields: Fields, rest: string): string
    requires fields.Field?
  {
    if fields.rest.NoField? then "}" + rest else "," + (FieldsText(fields.rest) + "}" + rest)
  }

  lemma FieldsTextSplits(fields: Fields, rest: string)
    requires fields.Field?
    ensures FieldsText(fields) + "}" + rest ==
            "\"" + (EscapeAll(fields.name) + "\"" + (":" + (Text(fields.value) + AfterMember(fields, rest))))
  {
    if fields.rest.NoField? {
      JoinMember(EscapeAll(fields.name), Text(fields.value), "}" + rest);
    } else {
      JoinMember(EscapeAll(fields.name), Text(fields.value), "," + (FieldsText(fields.rest) + "}" + rest));
      JoinRest(PrintString(fields.name) + ":" + Text(fields.value), FieldsText(fields.rest), rest);
    }
  }

  lemma JoinRest(member: string, more: string, rest: string)
    ensures member + "," + more + "}" + rest == member + ("," + (more + "}" + rest))
  {
  }

  lemma JoinMember(name: string, text: string, after: string)
    ensures "\"" + name + "\"" + ":" + text + after == "\"" + (name + "\"" + (":" + (text + after)))
  {
  }

  lemma {:induction false} FieldsParse(fields: Fields, rest: string, left: nat)
    requires fields.Field? && WellFormedFields(fields) && left > 0
    ensures ParseFields(FieldsText(fields) + "}" + rest, left) == Within(FieldsDepth(fields) < left, fields, rest)
    decreases fields, 1
  {
    var after := AfterMember(fields, rest);
    var member := ":" + (Text(fields.value) + after);
    var body := EscapeAll(fields.name) + "\"" + member;
    FieldsTextSplits(fields, rest);
    NoLeadingSpace("\"" + body);
    assert ("\"" + body)[1..] == body;
    StringParses(fields.name, member);
    NoLeadingSpace(member);
    assert member[1..] == Text(fields.value) + after;
    ValueParses(fields.value, after, left);
    NoLeadingSpace(after);
    if fields.rest.NoField? {
      assert after[1..] == rest;
    } else {
      assert after[1..] == FieldsText(fields.rest) + "}" + rest;
      FieldsParse(fields.rest, rest, left);
    }
  }

  /** Parsing gives exactly the rendered values back that nest no deeper than the library reads. */
  lemma DocumentParses(v: Value)
    requires WellFormed(v)
    ensures ParseDocument(Text(v)) == if Depth(v) < RECURSION_LIMIT then Some(v) else None
  {
    ValueParses(v, "", RECURSION_LIMIT);
    assert Text(v) + "" == Text(v);
  }
}
