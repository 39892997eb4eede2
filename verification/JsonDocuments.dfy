/** What the decoder makes of a JSON text that somebody else wrote (RFC 8259): members in any order
    and more than once, white space between tokens, and any spelling of a string. */
module JsonDocuments {
  import opened Wrappers
  import opened Decimal
  import opened Hex
  import opened Json
  import opened JsonRoundTrip

  // ---- members ---------------------------------------------------------------------------------------

  predicate WellFormedValues(fields: Fields) {
    fields.Field? ==> WellFormed(fields.value) && WellFormedValues(fields.rest)
  }

  /** The value of a name's last occurrence. */
  function LastValue(fields: Fields, name: string): Option<Value> {
    match fields
    case NoField => None
    case Field(n, v, rest) =>
      var later := LastValue(rest, name);
      if later.Some? then later else if n == name then Some(v) else None
  }

  lemma {:induction false} BeforeIsTotal(a: string, b: string)
    ensures Before(a, b) || a == b || Before(b, a)
  {
    if a != "" && b != "" && a[0] == b[0] {
      BeforeIsTotal(a[1..], b[1..]);
      assert a == [a[0]] + a[1..] && b == [b[0]] + b[1..];
    }
  }

  lemma {:induction false} HasNameIff(fields: Fields, name: string)
    ensures HasName(fields, name) <==> LastValue(fields, name).Some?
  {
    if fields.Field? { HasNameIff(fields.rest, name); }
  }

  lemma {:induction false} InsertKeepsOrder(name: string, v: Value, fields: Fields)
    requires WellFormedFields(fields) && WellFormed(v) && !HasName(fields, name)
    ensures WellFormedFields(Insert(name, v, fields))
    ensures Insert(name, v, fields).Field?
    ensures var first := Insert(name, v, fields).name; first == name || (fields.Field? && first == fields.name)
  {
    if fields.Field? && !Before(name, fields.name) {
      BeforeIsTotal(name, fields.name);
      InsertKeepsOrder(name, v, fields.rest);
    }
  }

  lemma {:induction false} InsertAdds(name: string, v: Value, fields: Fields, n: string)
    requires !HasName(fields, name)
    ensures LastValue(Insert(name, v, fields), n) == if n == name then Some(v) else LastValue(fields, n)
  {
    HasNameIff(fields, name);
    if fields.Field? && !Before(name, fields.name) { InsertAdds(name, v, fields.rest, n); }
  }

  /** Members in any order become members in order, and every name has the value of its last
      occurrence. */
  lemma {:induction false} NormalizeKeepsLast(fields: Fields, name: string)
    requires WellFormedValues(fields)
    ensures WellFormedFields(Normalize(fields))
    ensures LastValue(Normalize(fields), name) == LastValue(fields, name)
  {
    if fields.Field? {
      var later := Normalize(fields.rest);
      NormalizeKeepsLast(fields.rest, name);
      NormalizeKeepsLast(fields.rest, fields.name);
      HasNameIff(later, fields.name);
      if !HasName(later, fields.name) {
        InsertKeepsOrder(fields.name, fields.value, later);
        InsertAdds(fields.name, fields.value, later, name);
      }
    }
  }

  // ---- strings -----------------------------------------------------------------------------------------

  /** A character as it may be written between quotes: itself, a short escape, the four hexadecimal
      digits of its code, or those of its two surrogates. */
  datatype Glyph = Plain(c: char) | Short(letter: char) | Code(digits: string) | Pair(high: string, low: string)

  predicate IsHex4(digits: string) { |digits| == 4 && forall i | 0 <= i < 4 :: HexValue(digits[i]).Some? }

  /** The number that hexadecimal digits stand for. */
  function HexNumber(digits: string): (n: nat)
    requires forall i | 0 <= i < |digits| :: HexValue(digits[i]).Some?
  {
    if digits == "" then 0
    else 16 * HexNumber(digits[..|digits| - 1]) + HexValue(digits[|digits| - 1]).value
  }

  predicate ValidGlyph(g: Glyph) {
    match g
    case Plain(c) => !IsControl(c) && c != '\"' && c != '\\'
    case Short(letter) => letter in {'\"', '\\', '/', 'b', 'f', 'n', 'r', 't'}
    case Code(digits) =>
      IsHex4(digits) && (HexNumber(digits) < 0xD800 || 0xE000 <= HexNumber(digits) < 0x10000)
    case Pair(high, low) =>
      && IsHex4(high) && 0xD800 <= HexNumber(high) < 0xDC00
      && IsHex4(low) && 0xDC00 <= HexNumber(low) < 0xE000
  }

  function Spelling(g: Glyph): string { if g.Plain? then [g.c] else "\\" + BodyOf(g) }

  /** What follows the backslash. */
  function BodyOf(g: Glyph): string
    requires !g.Plain?
  {
    match g
    case Short(letter) => [letter]
    case Code(digits) => "u" + digits
    case Pair(high, low) => "u" + high + "\\u" + low
  }

  function Meant(g: Glyph): char
    requires ValidGlyph(g)
  {
    match g
    case Plain(c) => c
    case Short(letter) =>
      if letter == 'b' then 8 as char
      else if letter == 't' then 9 as char
      else if letter == 'n' then 10 as char
      else if letter == 'f' then 12 as char
      else if letter == 'r' then 13 as char
      else letter
    case Code(digits) => HexNumber(digits) as char
    case Pair(high, low) => (0x10000 + 0x400 * (HexNumber(high) - 0xD800) + (HexNumber(low) - 0xDC00)) as char
  }

  predicate ValidGlyphs(glyphs: seq<Glyph>) { forall i | 0 <= i < |glyphs| :: ValidGlyph(glyphs[i]) }

  function SpellingOf(glyphs: seq<Glyph>): string {
    if glyphs == [] then "" else Spelling(glyphs[0]) + SpellingOf(glyphs[1..])
  }

  function TextOf(glyphs: seq<Glyph>): string
    requires ValidGlyphs(glyphs)
  {
    if glyphs == [] then "" else [Meant(glyphs[0])] + TextOf(glyphs[1..])
  }

  lemma Hex4Reads(digits: string, rest: string)
    requires IsHex4(digits)
    ensures Hex4(digits + rest) == Some(HexNumber(digits))
  {
    var s := digits + rest;
    assert s[0] == digits[0] && s[1] == digits[1] && s[2] == digits[2] && s[3] == digits[3];
    var d3, d2, d1 := digits[..3], digits[..2], digits[..1];
    assert d3[..2] == d2 && d2[..1] == d1 && d1[..0] == "";
    assert HexNumber(d1) == HexValue(digits[0]).value;
    assert HexNumber(d2) == 16 * HexNumber(d1) + HexValue(digits[1]).value;
    assert HexNumber(d3) == 16 * HexNumber(d2) + HexValue(digits[2]).value;
  }

  lemma CodeParses(digits: string, rest: string)
    requires ValidGlyph(Code(digits))
    ensures ParseEscape("u" + digits + rest) == Got(Meant(Code(digits)), rest)
  {
    var s := "u" + digits + rest;
    Hex4Reads(digits, rest);
    assert s[1..] == digits + rest && s[5..] == rest;
  }

  lemma PairParses(high: string, low: string, rest: string)
    requires ValidGlyph(Pair(high, low))
    ensures ParseEscape("u" + high + "\\u" + low + rest) == Got(Meant(Pair(high, low)), rest)
  {
    Hex4Reads(high, "\\u" + low + rest);
    Hex4Reads(low, rest);
    PairText(high, low, rest);
  }

  lemma PairText(high: string, low: string, rest: string)
    requires |high| == 4 && |low| == 4
    ensures var s := "u" + high + "\\u" + low + rest;
            && |s| >= 11 && s[0] == 'u' && s[5] == '\\' && s[6] == 'u'
            && s[1..] == high + ("\\u" + low + rest) && s[7..] == low + rest && s[11..] == rest
  {
    var s := "u" + high + "\\u" + low + rest;
    assert s[1..] == high + ("\\u" + low + rest);
    assert s[7..] == low + rest;
    assert s[11..] == rest;
  }

  lemma GlyphParses(g: Glyph, rest: string)
    requires ValidGlyph(g)
    ensures ParseString(Spelling(g) + rest) == Prepend(Meant(g), ParseString(rest))
  {
    if g.Plain? {
      assert (Spelling(g) + rest)[1..] == rest;
    } else {
      BodyParses(g, rest);
      BackslashParses(BodyOf(g), rest, Meant(g));
    }
  }

  lemma BackslashParses(body: string, rest: string, c: char)
    requires ParseEscape(body + rest) == Got(c, rest)
    ensures ParseString("\\" + body + rest) == Prepend(c, ParseString(rest))
  {
    var s := "\\" + body + rest;
    assert s[1..] == body + rest;
    EscapeParses(c, s, body + rest, rest);
  }

  lemma BodyParses(g: Glyph, rest: string)
    requires ValidGlyph(g) && !g.Plain?
    ensures ParseEscape(BodyOf(g) + rest) == Got(Meant(g), rest)
  {
    match g
    case Short(letter) => LetterParses(letter, rest);
    case Code(digits) => CodeParses(digits, rest);
    case Pair(high, low) => PairParses(high, low, rest);
  }

  lemma LetterParses(letter: char, rest: string)
    requires ValidGlyph(Short(letter))
    ensures ParseEscape([letter] + rest) == Got(Meant(Short(letter)), rest)
  {
    assert ([letter] + rest)[1..] == rest;
  }

  /** A string is read as its glyphs, however they are spelled. */
  lemma {:induction false} GlyphsParse(glyphs: seq<Glyph>, rest: string)
    requires ValidGlyphs(glyphs)
    ensures ParseString(SpellingOf(glyphs) + "\"" + rest) == Got(TextOf(glyphs), rest)
  {
    if glyphs == [] {
      var s := SpellingOf(glyphs) + "\"" + rest;
      assert s == "\"" + rest && s[1..] == rest;
    } else {
      var later := SpellingOf(glyphs[1..]) + "\"" + rest;
      assert SpellingOf(glyphs) + "\"" + rest == Spelling(glyphs[0]) + later;
      GlyphParses(glyphs[0], later);
      GlyphsParse(glyphs[1..], rest);
    }
  }

  // ---- documents ------------------------------------------------------------------------------------------

  /** A JSON text with its white space. */
  datatype Doc =
    | Scalar(v: Value)
    | Quoted(glyphs: seq<Glyph>)
    | List(blank: string, docs: Docs)
    | Record(blank: string, members: Members)

  datatype Docs = NoDoc | OneDoc(before: string, doc: Doc, after: string, more: Docs)

  datatype Members =
    | NoMember
    | Member(before: string, name: seq<Glyph>, colon: string, gap: string, doc: Doc, after: string, more: Members)

  predicate IsBlanks(s: string) { forall i | 0 <= i < |s| :: IsSpace(s[i]) }

  predicate ValidDoc(d: Doc) {
    match d
    case Scalar(v) => (v.Null? || v.Bool? || v.Number?) && WellFormed(v)
    case Quoted(glyphs) => ValidGlyphs(glyphs)
    case List(blank, docs) => IsBlanks(blank) && ValidDocs(docs)
    case Record(blank, members) => IsBlanks(blank) && ValidMembers(members)
  }

  predicate ValidDocs(docs: Docs) {
    docs.OneDoc? ==> IsBlanks(docs.before) && ValidDoc(docs.doc) && IsBlanks(docs.after) && ValidDocs(docs.more)
  }

  predicate ValidMembers(m: Members) {
    m.Member? ==>
      && IsBlanks(m.before) && ValidGlyphs(m.name) && IsBlanks(m.colon) && IsBlanks(m.gap)
      && ValidDoc(m.doc) && IsBlanks(m.after) && ValidMembers(m.more)
  }

  /** The text of a document, followed by `rest`. */
  function Spell(d: Doc, rest: string): string
    decreases d, 0
  {
    match d
    case Scalar(v) => Text(v) + rest
    case Quoted(glyphs) => "\"" + (SpellingOf(glyphs) + "\"" + rest)
    case List(blank, NoDoc) => "[" + (blank + ("]" + rest))
    case List(_, docs) => "[" + (docs.before + SpellDocs(docs, rest))
    case Record(blank, NoMember) => "{" + (blank + ("}" + rest))
    case Record(_, members) => "{" + (members.before + SpellMembers(members, rest))
  }

  /** One or more elements and the closing bracket. */
  function SpellDocs(docs: Docs, rest: string): string
    requires docs.OneDoc?
    decreases docs, 1
  {
    Spell(docs.doc, docs.after + AfterDoc(docs.more, rest))
  }

  function AfterDoc(more: Docs, rest: string): string
    decreases more, 2
  {
    if more.NoDoc? then "]" + rest else "," + (more.before + SpellDocs(more, rest))
  }

  /** One or more members and the closing brace. */
  function SpellMembers(m: Members, rest: string): string
    requires m.Member?
    decreases m, 1
  {
    "\"" + (SpellingOf(m.name) + "\"" + (m.colon + (":" + (m.gap + Spell(m.doc, m.after + AfterDocOf(m.more, rest))))))
  }

  function AfterDocOf(more: Members, rest: string): string
    decreases more, 2
  {
    if more.NoMember? then "}" + rest else "," + (more.before + SpellMembers(more, rest))
  }

  function Meaning(d: Doc): Value
    requires ValidDoc(d)
  {
    match d
    case Scalar(v) => v
    case Quoted(glyphs) => Str(TextOf(glyphs))
    case List(_, docs) => Array(ItemsOf(docs))
    case Record(_, members) => Object(Normalize(FieldsOf(members)))
  }

  function ItemsOf(docs: Docs): Items
    requires ValidDocs(docs)
  {
    if docs.NoDoc? then End else Item(Meaning(docs.doc), ItemsOf(docs.more))
  }

  /** The members as they are written. */
  function FieldsOf(m: Members): Fields
    requires ValidMembers(m)
  {
    if m.NoMember? then NoField else Field(TextOf(m.name), Meaning(m.doc), FieldsOf(m.more))
  }

  function DocDepth(d: Doc): nat {
    match d
    case List(_, docs) => 1 + DocsDepth(docs)
    case Record(_, members) => 1 + MembersDepth(members)
    case _ => 0
  }

  function DocsDepth(docs: Docs): nat { if docs.NoDoc? then 0 else Max(DocDepth(docs.doc), DocsDepth(docs.more)) }

  function MembersDepth(m: Members): nat { if m.NoMember? then 0 else Max(DocDepth(m.doc), MembersDepth(m.more)) }

  // ---- parsing ---------------------------------------------------------------------------------------------

  lemma {:induction false} BlanksSkipped(blank: string, s: string)
    requires IsBlanks(blank)
    ensures SkipSpace(blank + s) == SkipSpace(s)
  {
    if blank == "" {
      assert blank + s == s;
    } else {
      assert (blank + s)[1..] == blank[1..] + s;
      BlanksSkipped(blank[1..], s);
    }
  }

  lemma SpellStart(d: Doc, rest: string)
    requires ValidDoc(d)
    ensures var s := Spell(d, rest); s != "" && !IsSpace(s[0]) && s[0] != ']' && s[0] != '}'
  {
    if d.Scalar? {
      TextStart(d.v);
      if d.v.Number? { assert IsDigit(Text(d.v)[0]) || Text(d.v)[0] == '-'; }
      assert (Text(d.v) + rest)[0] == Text(d.v)[0];
    }
  }

  lemma BlanksDelimit(blank: string, rest: string)
    requires IsBlanks(blank) && Delimited(rest)
    ensures Delimited(blank + rest)
  {
    if blank == "" { assert blank + rest == rest; } else { assert (blank + rest)[0] == blank[0]; }
  }

  lemma ValueAfterBlanks(blank: string, s: string, left: nat)
    requires IsBlanks(blank) && s != "" && !IsSpace(s[0])
    ensures SkipSpace(blank + s) == s && ParseValue(blank + s, left) == ParseValue(s, left)
  {
    BlanksSkipped(blank, s);
    NoLeadingSpace(s);
  }

  /** Parsing reads exactly the written document, whatever follows it, or rejects it for its depth. */
  lemma {:induction false} DocParses(d: Doc, rest: string, left: nat)
    requires ValidDoc(d) && Delimited(rest) && left > 0
    ensures ParseValue(Spell(d, rest), left) == Within(DocDepth(d) < left, Meaning(d), rest)
    decreases d, 0
  {
    match d
    case Scalar(v) => ValueParses(v, rest, left);
    case Quoted(glyphs) =>
      GlyphsParse(glyphs, rest);
      QuotedParses(SpellingOf(glyphs) + "\"" + rest, TextOf(glyphs), rest, left);
    case List(blank, docs) =>
      if docs.NoDoc? {
        ClosedList(blank, rest, left);
      } else {
        if left > 1 { DocsParse(docs, rest, left - 1); }
        OpenList(docs, rest, left);
      }
    case Record(blank, members) =>
      if members.NoMember? {
        ClosedRecord(blank, rest, left);
      } else {
        if left > 1 { MembersParse(members, rest, left - 1); }
        OpenRecord(members, rest, left);
      }
  }

  lemma ClosedList(blank: string, rest: string, left: nat)
    requires IsBlanks(blank) && left > 0
    ensures ParseValue("[" + (blank + ("]" + rest)), left) == Within(1 < left, Array(End), rest)
  {
    ValueAfterBlanks(blank, "]" + rest, left);
    assert ("[" + (blank + ("]" + rest)))[1..] == blank + ("]" + rest) && ("]" + rest)[1..] == rest;
    NoLeadingSpace("[" + (blank + ("]" + rest)));
  }

  lemma ClosedRecord(blank: string, rest: string, left: nat)
    requires IsBlanks(blank) && left > 0
    ensures ParseValue("{" + (blank + ("}" + rest)), left) == Within(1 < left, Object(NoField), rest)
  {
    ValueAfterBlanks(blank, "}" + rest, left);
    assert ("{" + (blank + ("}" + rest)))[1..] == blank + ("}" + rest) && ("}" + rest)[1..] == rest;
    NoLeadingSpace("{" + (blank + ("}" + rest)));
  }

  lemma OpenList(docs: Docs, rest: string, left: nat)
    requires docs.OneDoc? && ValidDocs(docs) && left > 0
    requires left > 1 ==>
               ParseItems(SpellDocs(docs, rest), left - 1) == Within(DocsDepth(docs) < left - 1, ItemsOf(docs), rest)
    ensures ParseValue("[" + (docs.before + SpellDocs(docs, rest)), left)
            == Within(1 + DocsDepth(docs) < left, Array(ItemsOf(docs)), rest)
  {
    var body := SpellDocs(docs, rest);
    var s := "[" + (docs.before + body);
    SpellStart(docs.doc, docs.after + AfterDoc(docs.more, rest));
    ValueAfterBlanks(docs.before, body, left);
    NoLeadingSpace(s);
    assert s[1..] == docs.before + body;
  }

  lemma OpenRecord(m: Members, rest: string, left: nat)
    requires m.Member? && ValidMembers(m) && left > 0
    requires left > 1 ==>
               ParseFields(SpellMembers(m, rest), left - 1) == Within(MembersDepth(m) < left - 1, FieldsOf(m), rest)
    ensures ParseValue("{" + (m.before + SpellMembers(m, rest)), left)
            == Within(1 + MembersDepth(m) < left, Object(Normalize(FieldsOf(m))), rest)
  {
    var body := SpellMembers(m, rest);
    var s := "{" + (m.before + body);
    ValueAfterBlanks(m.before, body, left);
    NoLeadingSpace(s);
    assert s[1..] == m.before + body;
  }

  lemma ItemsAfterBlanks(blank: string, s: string, left: nat)
    requires IsBlanks(blank) && s != "" && !IsSpace(s[0])
    ensures ParseItems(blank + s, left) == ParseItems(s, left)
  {
    ValueAfterBlanks(blank, s, left);
  }

  lemma FieldsAfterBlanks(blank: string, s: string, left: nat)
    requires IsBlanks(blank) && s != "" && !IsSpace(s[0])
    ensures ParseFields(blank + s, left) == ParseFields(s, left)
  {
    ValueAfterBlanks(blank, s, left);
    NoLeadingSpace(s);
  }

  lemma {:induction false} DocsParse(docs: Docs, rest: string, left: nat)
    requires docs.OneDoc? && ValidDocs(docs) && left > 0
    ensures ParseItems(SpellDocs(docs, rest), left) == Within(DocsDepth(docs) < left, ItemsOf(docs), rest)
    decreases docs, 1
  {
    var next := AfterDoc(docs.more, rest);
    BlanksDelimit(docs.after, next);
    DocParses(docs.doc, docs.after + next, left);
    ValueAfterBlanks(docs.after, next, left);
    if docs.more.NoDoc? {
      assert next[1..] == rest;
    } else {
      var later := SpellDocs(docs.more, rest);
      assert next[1..] == docs.more.before + later;
      SpellStart(docs.more.doc, docs.more.after + AfterDoc(docs.more.more, rest));
      ItemsAfterBlanks(docs.more.before, later, left);
      DocsParse(docs.more, rest, left);
    }
  }

  /** A member up to its value. */
  lemma MemberParses(m: Members, value: string, left: nat)
    requires m.Member? && ValidMembers(m) && value != "" && !IsSpace(value[0])
    ensures ParseFields("\"" + (SpellingOf(m.name) + "\"" + (m.colon + (":" + (m.gap + value)))), left)
            == MemberThen(TextOf(m.name), ParseValue(value, left), left)
  {
    var member := ":" + (m.gap + value);
    var body := SpellingOf(m.name) + "\"" + (m.colon + member);
    NoLeadingSpace("\"" + body);
    assert ("\"" + body)[1..] == body;
    GlyphsParse(m.name, m.colon + member);
    ValueAfterBlanks(m.colon, member, left);
    assert member[1..] == m.gap + value;
    ValueAfterBlanks(m.gap, value, left);
  }

  /** What follows the value of a member. */
  function MemberThen(name: string, p: Parsed<Value>, left: nat): Parsed<Fields> {
    match p
    case Fail => Fail
    case Got(v, rest) =>
      var t := SkipSpace(rest);
      if t == "" then Fail
      else if t[0] == '}' then Got(Field(name, v, NoField), t[1..])
      else if t[0] != ',' then Fail
      else
        match ParseFields(t[1..], left)
        case Fail => Fail
        case Got(fields, rest) => Got(Field(name, v, fields), rest)
  }

  lemma {:induction false} MembersParse(m: Members, rest: string, left: nat)
    requires m.Member? && ValidMembers(m) && left > 0
    ensures ParseFields(SpellMembers(m, rest), left) == Within(MembersDepth(m) < left, FieldsOf(m), rest)
    decreases m, 1
  {
    var next := AfterDocOf(m.more, rest);
    var value := Spell(m.doc, m.after + next);
    SpellStart(m.doc, m.after + next);
    MemberParses(m, value, left);
    BlanksDelimit(m.after, next);
    DocParses(m.doc, m.after + next, left);
    ValueAfterBlanks(m.after, next, left);
    if m.more.NoMember? {
      assert next[1..] == rest;
    } else {
      var later := SpellMembers(m.more, rest);
      assert next[1..] == m.more.before + later;
      FieldsAfterBlanks(m.more.before, later, left);
      MembersParse(m.more, rest, left);
    }
  }

  lemma {:induction false} MeaningIsWellFormed(d: Doc)
    requires ValidDoc(d)
    ensures WellFormed(Meaning(d))
    decreases d, 0
  {
    match d
    case List(_, docs) => ItemsAreWellFormed(docs);
    case Record(_, members) =>
      FieldsAreWellFormed(members);
      NormalizeKeepsLast(FieldsOf(members), "");
    case _ =>
  }

  lemma {:induction false} ItemsAreWellFormed(docs: Docs)
    requires ValidDocs(docs)
    ensures WellFormedItems(ItemsOf(docs))
    decreases docs, 1
  {
    if docs.OneDoc? {
      MeaningIsWellFormed(docs.doc);
      ItemsAreWellFormed(docs.more);
    }
  }

  lemma {:induction false} FieldsAreWellFormed(m: Members)
    requires ValidMembers(m)
    ensures WellFormedValues(FieldsOf(m))
    decreases m, 1
  {
    if m.Member? {
      MeaningIsWellFormed(m.doc);
      FieldsAreWellFormed(m.more);
    }
  }

  /** A JSON text is read as what it means, whatever its white space, its spelling of strings and the
      order of its members, exactly when it nests no deeper than the library reads. An object's
      members are then in order, and each name has the value of its last occurrence. */
  lemma WrittenDocumentParses(lead: string, d: Doc, trail: string)
    requires ValidDoc(d) && IsBlanks(lead) && IsBlanks(trail)
    ensures ParseDocument(lead + Spell(d, trail)) == if DocDepth(d) < RECURSION_LIMIT then Some(Meaning(d)) else None
    ensures WellFormed(Meaning(d))
    ensures d.Record? ==>
              && Meaning(d).Object?
              && forall name :: LastValue(Meaning(d).fields, name) == LastValue(FieldsOf(d.members), name)
  {
    SpellStart(d, trail);
    ValueAfterBlanks(lead, Spell(d, trail), RECURSION_LIMIT);
    assert Delimited(trail);
    DocParses(d, trail, RECURSION_LIMIT);
    BlanksSkipped(trail, "");
    assert trail + "" == trail;
    MeaningIsWellFormed(d);
    if d.Record? {
      FieldsAreWellFormed(d.members);
      forall name ensures LastValue(Meaning(d).fields, name) == LastValue(FieldsOf(d.members), name) {
        NormalizeKeepsLast(FieldsOf(d.members), name);
      }
    }
  }
}
