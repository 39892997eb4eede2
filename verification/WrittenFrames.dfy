/** Frames whose values somebody else wrote are scanned and decoded as what they mean. */
module WrittenFrames {
  import opened Wrappers
  import opened Json
  import opened JsonDocuments
  import opened Scanner
  import opened Words
  import opened LineProtocol
  import opened LineRoundTrip

  // ---- what follows a document -------------------------------------------------------------------------

  lemma Reassociate(a: string, b: string, c: string)
    ensures a + (b + c) == a + b + c
  {
  }

  lemma {:induction false} SpellSplits(d: Doc, rest: string)
    ensures Spell(d, rest) == Spell(d, "") + rest
    decreases d, 0
  {
    match d
    case Scalar(v) => Reassociate(Text(v), "", rest);
    case Quoted(glyphs) =>
      var body := SpellingOf(glyphs) + "\"";
      assert body + "" == body;
      Reassociate("\"", body, rest);
    case List(blank, docs) =>
      if docs.NoDoc? {
        ClosingSplits("[", blank, "]", rest);
      } else {
        DocsSplit(docs, rest);
        OpeningSplits("[", docs.before, SpellDocs(docs, ""), rest);
      }
    case Record(blank, members) =>
      if members.NoMember? {
        ClosingSplits("{", blank, "}", rest);
      } else {
        MembersSplit(members, rest);
        OpeningSplits("{", members.before, SpellMembers(members, ""), rest);
      }
  }

  lemma ClosingSplits(open: string, blank: string, close: string, rest: string)
    ensures open + (blank + (close + rest)) == open + (blank + (close + "")) + rest
  {
  }

  lemma OpeningSplits(open: string, blank: string, body: string, rest: string)
    ensures open + (blank + (body + rest)) == open + (blank + body) + rest
  {
  }

  lemma {:induction false} DocsSplit(docs: Docs, rest: string)
    requires docs.OneDoc?
    ensures SpellDocs(docs, rest) == SpellDocs(docs, "") + rest
    decreases docs, 1
  {
    if docs.more.OneDoc? {
      DocsSplit(docs.more, rest);
      OpeningSplits(",", docs.more.before, SpellDocs(docs.more, ""), rest);
    }
    assert AfterDoc(docs.more, rest) == AfterDoc(docs.more, "") + rest;
    AfterSplits(docs.doc, docs.after, AfterDoc(docs.more, ""), rest);
  }

  lemma AfterSplits(d: Doc, after: string, next: string, rest: string)
    ensures Spell(d, after + (next + rest)) == Spell(d, after + next) + rest
    decreases d, 2
  {
    SpellSplits(d, after + (next + rest));
    SpellSplits(d, after + next);
    OpeningSplits(Spell(d, ""), after, next, rest);
  }

  lemma {:induction false} MembersSplit(m: Members, rest: string)
    requires m.Member?
    ensures SpellMembers(m, rest) == SpellMembers(m, "") + rest
    decreases m, 1
  {
    if m.more.Member? {
      MembersSplit(m.more, rest);
      OpeningSplits(",", m.more.before, SpellMembers(m.more, ""), rest);
    }
    assert AfterDocOf(m.more, rest) == AfterDocOf(m.more, "") + rest;
    AfterSplits(m.doc, m.after, AfterDocOf(m.more, ""), rest);
    MemberSplits(SpellingOf(m.name), m.colon, m.gap, Spell(m.doc, m.after + AfterDocOf(m.more, "")), rest);
  }

  lemma MemberSplits(name: string, colon: string, gap: string, value: string, rest: string)
    ensures "\"" + (name + "\"" + (colon + (":" + (gap + (value + rest)))))
            == "\"" + (name + "\"" + (colon + (":" + (gap + value)))) + rest
  {
  }

  // ---- brackets -----------------------------------------------------------------------------------------

  predicate Unquoting(s: string) { forall i | 0 <= i < |s| :: s[i] != '\"' && s[i] != '\\' }

  lemma {:induction false} InsideQuotes(s: string, rest: string, stack: string)
    requires Unquoting(s)
    ensures AfterBrackets(s + rest, stack, true, false) == AfterBrackets(rest, stack, true, false)
  {
    if s == "" {
      assert s + rest == rest;
    } else {
      assert (s + rest)[1..] == s[1..] + rest;
      InsideQuotes(s[1..], rest, stack);
    }
  }

  lemma EscapedInside(c: char, rest: string, stack: string)
    ensures AfterBrackets("\\" + ([c] + rest), stack, true, false) == AfterBrackets(rest, stack, true, false)
  {
    var s := "\\" + ([c] + rest);
    assert s[1..] == [c] + rest && ([c] + rest)[1..] == rest;
  }

  lemma GlyphBrackets(g: Glyph, rest: string, stack: string)
    requires ValidGlyph(g)
    ensures AfterBrackets(Spelling(g) + rest, stack, true, false) == AfterBrackets(rest, stack, true, false)
  {
    match g
    case Plain(c) => InsideQuotes([c], rest, stack);
    case Short(letter) =>
      assert [letter] + "" == [letter];
      LetterBrackets(letter, "", rest, stack);
    case Code(digits) => LetterBrackets('u', digits, rest, stack);
    case Pair(high, low) =>
      var later := "\\" + (['u'] + low) + rest;
      PairSplits(high, low, rest);
      LetterBrackets('u', high, later, stack);
      LetterBrackets('u', low, rest, stack);
  }

  lemma PairSplits(high: string, low: string, rest: string)
    ensures Spelling(Pair(high, low)) + rest == "\\" + (['u'] + high) + ("\\" + (['u'] + low) + rest)
  {
  }

  /** An escape with what belongs to it. */
  lemma LetterBrackets(c: char, digits: string, rest: string, stack: string)
    requires Unquoting(digits)
    ensures AfterBrackets("\\" + ([c] + digits) + rest, stack, true, false) == AfterBrackets(rest, stack, true, false)
  {
    assert "\\" + ([c] + digits) + rest == "\\" + ([c] + (digits + rest));
    EscapedInside(c, digits + rest, stack);
    InsideQuotes(digits, rest, stack);
  }

  lemma {:induction false} GlyphsBrackets(glyphs: seq<Glyph>, rest: string, stack: string)
    requires ValidGlyphs(glyphs)
    ensures AfterBrackets(SpellingOf(glyphs) + "\"" + rest, stack, true, false)
            == AfterBrackets(rest, stack, false, false)
  {
    if glyphs == [] {
      assert SpellingOf(glyphs) + "\"" + rest == "\"" + rest && ("\"" + rest)[1..] == rest;
    } else {
      var later := SpellingOf(glyphs[1..]) + "\"" + rest;
      assert SpellingOf(glyphs) + "\"" + rest == Spelling(glyphs[0]) + later;
      GlyphBrackets(glyphs[0], later, stack);
      GlyphsBrackets(glyphs[1..], rest, stack);
    }
  }

  lemma QuotedBrackets(glyphs: seq<Glyph>, rest: string, stack: string)
    requires ValidGlyphs(glyphs) && stack != ""
    ensures AfterBrackets("\"" + (SpellingOf(glyphs) + "\"" + rest), stack, false, false)
            == AfterBrackets(rest, stack, false, false)
  {
    var body := SpellingOf(glyphs) + "\"" + rest;
    assert ("\"" + body)[1..] == body;
    GlyphsBrackets(glyphs, rest, stack);
  }

  /** Inside an open bracket the scanner passes over exactly one written document. */
  lemma {:induction false} DocBrackets(d: Doc, rest: string, stack: string)
    requires ValidDoc(d) && stack != ""
    ensures AfterBrackets(Spell(d, rest), stack, false, false) == AfterBrackets(rest, stack, false, false)
    decreases d, 1
  {
    match d
    case Scalar(v) => ValueBrackets(v, rest, stack);
    case Quoted(glyphs) => QuotedBrackets(glyphs, rest, stack);
    case List(_, _) =>
      ListBody(d, rest, stack + "[");
      OpenBracket('[', Spell(d, rest)[1..], stack);
      assert Spell(d, rest) == ['['] + Spell(d, rest)[1..] && (stack + "[")[..|stack|] == stack;
    case Record(_, _) =>
      RecordBody(d, rest, stack + "{");
      OpenBracket('{', Spell(d, rest)[1..], stack);
      assert Spell(d, rest) == ['{'] + Spell(d, rest)[1..] && (stack + "{")[..|stack|] == stack;
  }

  lemma ListBody(d: Doc, rest: string, stack: string)
    requires ValidDoc(d) && d.List? && stack != "" && stack[|stack| - 1] == '['
    ensures Spell(d, rest)[0] == '[' && AfterBrackets(Spell(d, rest)[1..], stack, false, false) == Closed(rest, stack)
    decreases d, 0
  {
    if d.docs.NoDoc? {
      assert Spell(d, rest)[1..] == d.blank + ("]" + rest);
      PlainBrackets(d.blank, "]" + rest, stack);
      CloseBracket(']', rest, stack);
    } else {
      assert Spell(d, rest)[1..] == d.docs.before + SpellDocs(d.docs, rest);
      PlainBrackets(d.docs.before, SpellDocs(d.docs, rest), stack);
      DocsBrackets(d.docs, rest, stack);
    }
  }

  lemma RecordBody(d: Doc, rest: string, stack: string)
    requires ValidDoc(d) && d.Record? && stack != "" && stack[|stack| - 1] == '{'
    ensures Spell(d, rest)[0] == '{' && AfterBrackets(Spell(d, rest)[1..], stack, false, false) == Closed(rest, stack)
    decreases d, 0
  {
    if d.members.NoMember? {
      assert Spell(d, rest)[1..] == d.blank + ("}" + rest);
      PlainBrackets(d.blank, "}" + rest, stack);
      CloseBracket('}', rest, stack);
    } else {
      assert Spell(d, rest)[1..] == d.members.before + SpellMembers(d.members, rest);
      PlainBrackets(d.members.before, SpellMembers(d.members, rest), stack);
      MembersBrackets(d.members, rest, stack);
    }
  }

  lemma {:induction false} DocsBrackets(docs: Docs, rest: string, stack: string)
    requires docs.OneDoc? && ValidDocs(docs) && stack != "" && stack[|stack| - 1] == '['
    ensures AfterBrackets(SpellDocs(docs, rest), stack, false, false) == Closed(rest, stack)
    decreases docs, 1
  {
    var next := AfterDoc(docs.more, rest);
    DocBrackets(docs.doc, docs.after + next, stack);
    PlainBrackets(docs.after, next, stack);
    if docs.more.NoDoc? {
      CloseBracket(']', rest, stack);
    } else {
      var later := SpellDocs(docs.more, rest);
      PlainBrackets(",", docs.more.before + later, stack);
      PlainBrackets(docs.more.before, later, stack);
      DocsBrackets(docs.more, rest, stack);
    }
  }

  lemma {:induction false} MembersBrackets(m: Members, rest: string, stack: string)
    requires m.Member? && ValidMembers(m) && stack != "" && stack[|stack| - 1] == '{'
    ensures AfterBrackets(SpellMembers(m, rest), stack, false, false) == Closed(rest, stack)
    decreases m, 1
  {
    var next := AfterDocOf(m.more, rest);
    var value := Spell(m.doc, m.after + next);
    QuotedBrackets(m.name, m.colon + (":" + (m.gap + value)), stack);
    PlainBrackets(m.colon, ":" + (m.gap + value), stack);
    PlainBrackets(":", m.gap + value, stack);
    PlainBrackets(m.gap, value, stack);
    DocBrackets(m.doc, m.after + next, stack);
    PlainBrackets(m.after, next, stack);
    if m.more.NoMember? {
      CloseBracket('}', rest, stack);
    } else {
      var later := SpellMembers(m.more, rest);
      PlainBrackets(",", m.more.before + later, stack);
      PlainBrackets(m.more.before, later, stack);
      MembersBrackets(m.more, rest, stack);
    }
  }

  /** The scanner takes a written array or object as one token, whatever follows, unless it nests too
      deeply. */
  lemma WrittenToken(d: Doc, rest: string)
    requires ValidDoc(d) && (d.List? || d.Record?)
    ensures ScanStructured(Spell(d, rest))
            == if DocDepth(d) < RECURSION_LIMIT then Next(Token(Spell(d, ""), false), rest) else Bad
  {
    if d.List? { ListBody(d, rest, "["); } else { RecordBody(d, rest, "{"); }
    SpellSplits(d, rest);
    assert Consumed(Spell(d, rest), rest) == Spell(d, "");
    WrittenDocumentParses("", d, "");
    assert "" + Spell(d, "") == Spell(d, "");
  }

  // ---- a frame -------------------------------------------------------------------------------------------

  lemma {:induction false} FrameThen(words: seq<Word>, tail: string)
    requires words != [] && WordEnds(tail) && forall i | 0 <= i < |words| :: Sound(words[i]) && Readable(words[i])
    ensures ScanAll(Frame(words) + tail)
            == if ScanAll(tail).None? then None else Some(TokensOf(words) + ScanAll(tail).value)
    decreases |words|
  {
    var rest := FrameRest(words) + tail;
    FrameFirst(words);
    Reassociate(Printed(words[0]), FrameRest(words), tail);
    if |words| == 1 {
      assert rest == tail && words[1..] == [] && TokensOf(words) == [TokenOf(words[0])];
      WordToken(words[0], tail);
      ScanFirst(Printed(words[0]) + tail, words[0], tail);
    } else {
      var later := Frame(words[1..]) + tail;
      assert rest == " " + later;
      WordToken(words[0], rest);
      ScanFirst(Printed(words[0]) + rest, words[0], rest);
      SpaceBefore(later);
      FrameThen(words[1..], tail);
      if ScanAll(tail).Some? { TokensThen(TokenOf(words[0]), TokensOf(words[1..]), ScanAll(tail).value); }
      assert TokensOf(words) == [TokenOf(words[0])] + TokensOf(words[1..]);
    }
  }

  lemma TokensThen(token: Token, more: seq<Token>, last: seq<Token>)
    ensures [token] + (more + last) == [token] + more + last
  {
  }

  lemma DocAlone(d: Doc)
    requires ValidDoc(d) && (d.List? || d.Record?) && DocDepth(d) < RECURSION_LIMIT
    ensures ScanAll(" " + Spell(d, "")) == Some([Token(Spell(d, ""), false)])
  {
    var text := Spell(d, "");
    SpaceBefore(text);
    WrittenToken(d, "");
    assert ScanToken("") == Stop && ScanAll("") == Some([]);
    assert [Token(text, false)] + [] == [Token(text, false)];
  }

  /** A Set whose value is an array or object in anybody's spelling is decoded as a Set of what the
      value means, in every frame that is one line and fits. */
  lemma WrittenSetDecodes(namespace: string, key: string, d: Doc)
    requires ValidDoc(d) && (d.List? || d.Record?) && DocDepth(d) < RECURSION_LIMIT
    requires namespace != "" && key != "" && Quotable(namespace) && Quotable(key)
    ensures var frame := Frame([Bare("SET"), Identifier(namespace), Identifier(key)]) + (" " + Spell(d, ""));
            ValidFrame(frame) ==> DecodeCommand(frame) == Some(Set(namespace, key, Meaning(d), None))
  {
    var words := [Bare("SET"), Identifier(namespace), Identifier(key)];
    var text := Spell(d, "");
    var t := NamedWords("SET", namespace, key);
    FrameThen(words, " " + text);
    DocAlone(d);
    WrittenDocumentParses("", d, "");
    assert "" + text == text;
    WrittenSetOf(namespace, key, Meaning(d), t + [Token(text, false)]);
  }

  lemma WrittenSetOf(namespace: string, key: string, v: Value, t: seq<Token>)
    requires |t| == 4 && t[0] == Token("SET", false) && t[1].text == namespace && t[2].text == key
    requires namespace != "" && key != "" && ValueOf(t[3]) == Some(v)
    ensures CommandOf(t) == Some(Set(namespace, key, v, None))
  {
  }
}
