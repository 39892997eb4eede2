/** The JSON parser accepts nothing but written documents (RFC 8259, numbers being integers). */
module JsonGrammar {
  import opened Wrappers
  import opened Decimal
  import opened Json
  import opened JsonRoundTrip
  import opened JsonDocuments

  lemma {:induction false} SpaceSplits(s: string) returns (blank: string)
    ensures IsBlanks(blank) && s == blank + SkipSpace(s)
  {
    if s != "" && IsSpace(s[0]) {
      blank := SpaceSplits(s[1..]);
      assert s == [s[0]] + (blank + SkipSpace(s)) == [s[0]] + blank + SkipSpace(s);
      blank := [s[0]] + blank;
    } else {
      blank := "";
    }
  }

  // ---- strings -------------------------------------------------------------------------------------

  lemma Hex4IsDigits(s: string, n: nat)
    requires Hex4(s) == Some(n)
    ensures |s| >= 4 && IsHex4(s[..4]) && HexNumber(s[..4]) == n && n < 0x10000
  {
    Hex4Reads(s[..4], s[4..]);
    assert s[..4] + s[4..] == s;
  }

  lemma CodeIsGlyph(s: string) returns (g: Glyph)
    requires s != "" && s[0] == 'u' && ParseEscape(s).Got?
    ensures ValidGlyph(g) && !g.Plain? && s == BodyOf(g) + ParseEscape(s).rest && Meant(g) == ParseEscape(s).value
  {
    var code := Hex4(s[1..]);
    Hex4IsDigits(s[1..], code.value);
    assert s[1..][..4] == s[1..5];
    if code.value < 0xD800 || 0xE000 <= code.value < 0x10000 {
      g := Code(s[1..5]);
      assert s == "u" + s[1..5] + s[5..];
    } else {
      Hex4IsDigits(s[7..], Hex4(s[7..]).value);
      assert s[7..][..4] == s[7..11];
      g := Pair(s[1..5], s[7..11]);
      PairIsText(s);
    }
  }

  lemma PairIsText(s: string)
    requires |s| >= 11 && s[0] == 'u' && s[5] == '\\' && s[6] == 'u'
    ensures s == "u" + s[1..5] + "\\u" + s[7..11] + s[11..]
  {
    assert s[5..7] == "\\u";
    assert s == s[..1] + s[1..5] + s[5..7] + s[7..11] + s[11..];
  }

  lemma EscapeIsGlyph(s: string) returns (g: Glyph)
    requires ParseEscape(s).Got?
    ensures ValidGlyph(g) && !g.Plain? && s == BodyOf(g) + ParseEscape(s).rest && Meant(g) == ParseEscape(s).value
  {
    if s[0] == 'u' {
      g := CodeIsGlyph(s);
    } else {
      g := Short(s[0]);
      assert s == [s[0]] + s[1..];
    }
  }

  lemma {:induction false} StringIsGlyphs(s: string) returns (glyphs: seq<Glyph>)
    requires ParseString(s).Got?
    ensures ValidGlyphs(glyphs) && s == SpellingOf(glyphs) + "\"" + ParseString(s).rest
    ensures TextOf(glyphs) == ParseString(s).value
    decreases |s|
  {
    if s[0] == '\"' {
      glyphs := [];
      assert s == "" + "\"" + s[1..];
    } else if s[0] == '\\' {
      var g := EscapeIsGlyph(s[1..]);
      var rest := ParseEscape(s[1..]).rest;
      var more := StringIsGlyphs(rest);
      assert s == "\\" + s[1..] == "\\" + (BodyOf(g) + rest);
      Joined(g, more, ParseString(s).rest);
      glyphs := [g] + more;
    } else {
      var more := StringIsGlyphs(s[1..]);
      assert s == [s[0]] + s[1..];
      Joined(Plain(s[0]), more, ParseString(s).rest);
      glyphs := [Plain(s[0])] + more;
    }
  }

  lemma Joined(g: Glyph, more: seq<Glyph>, rest: string)
    requires ValidGlyph(g) && ValidGlyphs(more)
    ensures ValidGlyphs([g] + more) && TextOf([g] + more) == [Meant(g)] + TextOf(more)
    ensures SpellingOf([g] + more) + "\"" + rest == Spelling(g) + (SpellingOf(more) + "\"" + rest)
    ensures !g.Plain? ==> SpellingOf([g] + more) + "\"" + rest == "\\" + (BodyOf(g) + (SpellingOf(more) + "\"" + rest))
  {
    var all := [g] + more;
    assert all[0] == g && all[1..] == more;
    JoinedText(Spelling(g), SpellingOf(more), rest);
    if !g.Plain? { JoinedText2(BodyOf(g), SpellingOf(more) + "\"" + rest); }
  }

  lemma JoinedText(a: string, b: string, rest: string)
    ensures a + b + "\"" + rest == a + (b + "\"" + rest)
  {
  }

  lemma JoinedText2(body: string, rest: string)
    ensures "\\" + body + rest == "\\" + (body + rest)
  {
  }

  // ---- numbers ---------------------------------------------------------------------------------------

  /** Digits without a superfluous leading zero are those that are printed. */
  lemma {:induction false} PrintedDigits(digits: string)
    requires digits != "" && AllDigits(digits) && (digits[0] == '0' ==> |digits| == 1)
    ensures Print(Decimal.Value(digits)) == digits
  {
    var n := |digits| - 1;
    var init, last := digits[..n], DigitValue(digits[n]);
    assert digits == init + [digits[n]] && DigitChar(last) == digits[n];
    if n > 0 {
      PrintedDigits(init);
      assert init[0] == digits[0];
      assert Decimal.Value(digits) / 10 == Decimal.Value(init) && Decimal.Value(digits) % 10 == last;
    } else {
      assert init == "" && Decimal.Value(digits) == last;
    }
  }

  lemma NaturalIsPrinted(s: string)
    requires ParseNatural(s).Got?
    ensures s == Print(ParseNatural(s).value) + ParseNatural(s).rest && Delimited(ParseNatural(s).rest)
  {
    var k := DigitRun(s);
    PrintedDigits(s[..k]);
    assert s == s[..k] + s[k..];
  }

  lemma NumberIsPrinted(s: string)
    requires ParseNumber(s).Got?
    ensures var p := ParseNumber(s);
            p.value.Number? && WellFormed(p.value) && s == Text(p.value) + p.rest && Delimited(p.rest)
  {
    if s != "" && s[0] == '-' {
      NaturalIsPrinted(s[1..]);
      MinusPrinted(s, ParseNatural(s[1..]).value, ParseNatural(s[1..]).rest);
    } else {
      NaturalIsPrinted(s);
    }
  }

  lemma MinusPrinted(s: string, n: nat, rest: string)
    requires s != "" && s[0] == '-' && s[1..] == Print(n) + rest && n > 0
    ensures s == PrintNumber(-(n as int)) + rest
  {
    assert s == "-" + (Print(n) + rest) == "-" + Print(n) + rest;
  }

  lemma KeywordIsText(s: string, word: string, v: Value)
    requires word != "" && Json.Keyword(s, word, v).Got?
    ensures s == word + Json.Keyword(s, word, v).rest
  {
  }

  // ---- values ----------------------------------------------------------------------------------------

  /** What the parser has read is the text of a document that means the value it returns. */
  lemma {:induction false} ParsedIsWritten(s: string, left: nat) returns (lead: string, d: Doc)
    requires ParseValue(s, left).Got? && left > 0
    ensures IsBlanks(lead) && ValidDoc(d) && DocDepth(d) < left
    ensures var p := ParseValue(s, left); s == lead + Spell(d, p.rest) && Meaning(d) == p.value
    decreases |s|, 2
  {
    lead := SpaceSplits(s);
    var t := SkipSpace(s);
    if t[0] == '[' {
      d := ListIsWritten(s, t, left);
    } else if t[0] == '{' {
      d := RecordIsWritten(s, t, left);
    } else {
      d := ScalarIsWritten(s, t, left);
    }
  }

  lemma ScalarIsWritten(s: string, t: string, left: nat) returns (d: Doc)
    requires t == SkipSpace(s) && ParseValue(s, left).Got? && t[0] != '[' && t[0] != '{'
    ensures ValidDoc(d) && DocDepth(d) == 0
    ensures var p := ParseValue(s, left); t == Spell(d, p.rest) && Meaning(d) == p.value
  {
    if t[0] == '\"' {
      var glyphs := StringIsGlyphs(t[1..]);
      assert t == "\"" + t[1..];
      d := Quoted(glyphs);
    } else {
      d := Scalar(ParseValue(s, left).value);
      if t[0] == 'n' {
        KeywordIsText(t, "null", Null);
      } else if t[0] == 't' {
        KeywordIsText(t, "true", Bool(true));
      } else if t[0] == 'f' {
        KeywordIsText(t, "false", Bool(false));
      } else {
        NumberIsPrinted(t);
      }
    }
  }

  lemma ListIsWritten(s: string, t: string, left: nat) returns (d: Doc)
    requires t == SkipSpace(s) && ParseValue(s, left).Got? && t[0] == '['
    ensures ValidDoc(d) && DocDepth(d) < left
    ensures var p := ParseValue(s, left); t == Spell(d, p.rest) && Meaning(d) == p.value
    decreases |s|, 1
  {
    var blank := SpaceSplits(t[1..]);
    var u := SkipSpace(t[1..]);
    assert t == "[" + (blank + u);
    ListRead(s, t, u, left);
    if u[0] == ']' {
      assert u == "]" + u[1..];
      d := List(blank, NoDoc);
    } else {
      var lead, docs := ItemsAreWritten(u, left - 1);
      NotBlankAfterSkip(t[1..]);
      NoBlankFirst(u, lead, SpellDocs(docs, ParseItems(u, left - 1).rest));
      MoreDocs(docs, blank, ParseItems(u, left - 1).rest);
      d := List("", docs.(before := blank));
    }
  }

  lemma ListRead(s: string, t: string, u: string, left: nat)
    requires t == SkipSpace(s) && ParseValue(s, left).Got? && t[0] == '[' && u == SkipSpace(t[1..])
    ensures left > 1 && u != "" && |u| < |s|
    ensures u[0] == ']' ==> ParseValue(s, left) == Got(Array(End), u[1..])
    ensures u[0] != ']' ==>
              var p := ParseItems(u, left - 1);
              p.Got? && ParseValue(s, left) == Got(Array(p.value), p.rest)
  {
  }

  lemma {:induction false} NotBlankAfterSkip(s: string)
    ensures SkipSpace(s) == "" || !IsSpace(SkipSpace(s)[0])
  {
    if s != "" && IsSpace(s[0]) { NotBlankAfterSkip(s[1..]); }
  }

  lemma {:induction false} ItemsAreWritten(s: string, left: nat) returns (lead: string, docs: Docs)
    requires ParseItems(s, left).Got? && left > 0
    ensures IsBlanks(lead) && docs.OneDoc? && ValidDocs(docs) && DocsDepth(docs) < left
    ensures var p := ParseItems(s, left); s == lead + SpellDocs(docs, p.rest) && ItemsOf(docs) == p.value
    decreases |s|, 3
  {
    var t := ItemsRead(s, left);
    var d;
    lead, d := ParsedIsWritten(s, left);
    var after := SpaceSplits(ParseValue(s, left).rest);
    var more := NoDoc;
    if t[0] == ',' {
      var before, later := ItemsAreWritten(t[1..], left);
      more := later.(before := before);
      MoreDocs(later, before, ParseItems(s, left).rest);
    }
    docs := OneDoc("", d, after, more);
    assert t == [t[0]] + t[1..] == AfterDoc(more, ParseItems(s, left).rest);
    Listed(docs, ParseItems(s, left).rest, t);
  }

  lemma Listed(docs: Docs, rest: string, t: string)
    requires docs.OneDoc? && t == AfterDoc(docs.more, rest)
    ensures SpellDocs(docs, rest) == Spell(docs.doc, docs.after + t)
  {
  }

  /** What follows the first element. */
  lemma ItemsRead(s: string, left: nat) returns (t: string)
    requires ParseItems(s, left).Got?
    ensures ParseValue(s, left).Got? && t == SkipSpace(ParseValue(s, left).rest) && t != "" && |t[1..]| < |s|
    ensures t[0] == ']' || (t[0] == ',' && ParseItems(t[1..], left).Got?)
    ensures var v, p := ParseValue(s, left).value, ParseItems(s, left);
            p == if t[0] == ']' then Got(Item(v, End), t[1..])
                 else Got(Item(v, ParseItems(t[1..], left).value), ParseItems(t[1..], left).rest)
  {
    t := SkipSpace(ParseValue(s, left).rest);
  }

  lemma MoreDocs(more: Docs, before: string, rest: string)
    requires more.OneDoc?
    ensures SpellDocs(more.(before := before), rest) == SpellDocs(more, rest)
  {
  }

  lemma RecordIsWritten(s: string, t: string, left: nat) returns (d: Doc)
    requires t == SkipSpace(s) && ParseValue(s, left).Got? && t[0] == '{'
    ensures ValidDoc(d) && DocDepth(d) < left
    ensures var p := ParseValue(s, left); t == Spell(d, p.rest) && Meaning(d) == p.value
    decreases |s|, 1
  {
    var blank := SpaceSplits(t[1..]);
    var u := SkipSpace(t[1..]);
    assert t == "{" + (blank + u);
    RecordRead(s, t, u, left);
    if u[0] == '}' {
      assert u == "}" + u[1..];
      d := Record(blank, NoMember);
    } else {
      var lead, m := FieldsAreWritten(u, left - 1);
      NotBlankAfterSkip(t[1..]);
      NoBlankFirst(u, lead, SpellMembers(m, ParseFields(u, left - 1).rest));
      MoreMembers(m, blank, ParseFields(u, left - 1).rest);
      d := Record("", m.(before := blank));
    }
  }

  lemma NoBlankFirst(u: string, lead: string, s: string)
    requires IsBlanks(lead) && u == lead + s && (u == "" || !IsSpace(u[0]))
    ensures lead == "" && u == s
  {
  }

  lemma RecordRead(s: string, t: string, u: string, left: nat)
    requires t == SkipSpace(s) && ParseValue(s, left).Got? && t[0] == '{' && u == SkipSpace(t[1..])
    ensures left > 1 && u != "" && |u| < |s|
    ensures u[0] == '}' ==> ParseValue(s, left) == Got(Object(NoField), u[1..])
    ensures u[0] != '}' ==>
              var p := ParseFields(u, left - 1);
              p.Got? && ParseValue(s, left) == Got(Object(Normalize(p.value)), p.rest)
  {
  }

  lemma MoreMembers(m: Members, before: string, rest: string)
    requires m.Member?
    ensures SpellMembers(m.(before := before), rest) == SpellMembers(m, rest)
  {
  }

  /** A member's text, followed by `t`. */
  function HeadText(m: Members, t: string): string
    requires m.Member?
  {
    "\"" + (SpellingOf(m.name) + "\"" + (m.colon + (":" + (m.gap + Spell(m.doc, m.after + t)))))
  }

  lemma HeadIsWritten(s: string, left: nat) returns (lead: string, m: Members, t: string)
    requires ParseFields(s, left).Got? && left > 0
    ensures IsBlanks(lead) && m.Member? && ValidMembers(m) && DocDepth(m.doc) < left && m.more.NoMember?
    ensures s == lead + HeadText(m, t) && t != "" && |t[1..]| < |s|
    ensures t[0] == '}' || (t[0] == ',' && ParseFields(t[1..], left).Got?)
    ensures var p := ParseFields(s, left);
            p == if t[0] == '}' then Got(Field(TextOf(m.name), Meaning(m.doc), NoField), t[1..])
                 else Got(Field(TextOf(m.name), Meaning(m.doc), ParseFields(t[1..], left).value),
                          ParseFields(t[1..], left).rest)
    decreases |s|, 2
  {
    var n, c;
    n, c, t := FieldsRead(s, left);
    lead := SpaceSplits(s);
    var name := StringIsGlyphs(n[1..]);
    var colon := SpaceSplits(ParseString(n[1..]).rest);
    var gap, d := ParsedIsWritten(c[1..], left);
    var after := SpaceSplits(ParseValue(c[1..], left).rest);
    assert n == "\"" + n[1..] && c == ":" + c[1..];
    m := Member("", name, colon, gap, d, after, NoMember);
  }

  lemma {:induction false} FieldsAreWritten(s: string, left: nat) returns (lead: string, m: Members)
    requires ParseFields(s, left).Got? && left > 0
    ensures IsBlanks(lead) && m.Member? && ValidMembers(m) && MembersDepth(m) < left
    ensures var p := ParseFields(s, left); s == lead + SpellMembers(m, p.rest) && FieldsOf(m) == p.value
    decreases |s|, 3
  {
    var first, t;
    lead, first, t := HeadIsWritten(s, left);
    var rest := ParseFields(s, left).rest;
    var more := NoMember;
    if t[0] == ',' {
      var before, later := FieldsAreWritten(t[1..], left);
      more := later.(before := before);
      MoreMembers(later, before, rest);
    }
    m := first.(more := more);
    assert t == [t[0]] + t[1..] == AfterDocOf(more, rest);
    Membered(m, rest, t);
    assert HeadText(m, t) == HeadText(first, t);
  }

  lemma Membered(m: Members, rest: string, t: string)
    requires m.Member? && t == AfterDocOf(m.more, rest)
    ensures SpellMembers(m, rest) == HeadText(m, t)
  {
  }

  /** The parts of the first member. */
  lemma FieldsRead(s: string, left: nat) returns (n: string, c: string, t: string)
    requires ParseFields(s, left).Got?
    ensures n == SkipSpace(s) && n != "" && n[0] == '\"' && ParseString(n[1..]).Got?
    ensures c == SkipSpace(ParseString(n[1..]).rest) && c != "" && c[0] == ':' && |c[1..]| < |s|
    ensures ParseValue(c[1..], left).Got? && t == SkipSpace(ParseValue(c[1..], left).rest) && t != "" && |t[1..]| < |s|
    ensures t[0] == '}' || (t[0] == ',' && ParseFields(t[1..], left).Got?)
    ensures var name, v, p := ParseString(n[1..]).value, ParseValue(c[1..], left).value, ParseFields(s, left);
            p == if t[0] == '}' then Got(Field(name, v, NoField), t[1..])
                 else Got(Field(name, v, ParseFields(t[1..], left).value), ParseFields(t[1..], left).rest)
  {
    n := SkipSpace(s);
    c := SkipSpace(ParseString(n[1..]).rest);
    t := SkipSpace(ParseValue(c[1..], left).rest);
  }

  /** The decoder accepts exactly the written documents that nest no deeper than the library reads,
      and returns what they mean. */
  lemma DocumentGrammar(s: string, v: Value)
    ensures ParseDocument(s) == Some(v)
            <==> exists lead, d, trail ::
                   && IsBlanks(lead) && IsBlanks(trail) && ValidDoc(d) && DocDepth(d) < RECURSION_LIMIT
                   && s == lead + Spell(d, trail) && Meaning(d) == v
  {
    if ParseDocument(s) == Some(v) {
      var lead, d := ParsedIsWritten(s, RECURSION_LIMIT);
      var rest := ParseValue(s, RECURSION_LIMIT).rest;
      var trail := SpaceSplits(rest);
      assert rest == trail + "" == trail;
    }
    if lead, d, trail :| IsBlanks(lead) && IsBlanks(trail) && ValidDoc(d) && DocDepth(d) < RECURSION_LIMIT
                         && s == lead + Spell(d, trail) && Meaning(d) == v {
      WrittenDocumentParses(lead, d, trail);
    }
  }
}
