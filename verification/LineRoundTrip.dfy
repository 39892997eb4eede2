/** Decoding a frame in its context inverts encoding, exactly when the frame fits and every
    text in it can be quoted. */
module LineRoundTrip {
  import opened Wrappers
  import opened Decimal
  import opened Units
  import opened Json
  import opened JsonRoundTrip
  import opened Scanner
  import opened Words
  import opened LineProtocol

  // ---- words of valid messages are sound ----------------------------------------------------

  predicate AllSound(words: seq<Word>) { forall i | 0 <= i < |words| :: Sound(words[i]) }

  lemma PlainIsSound(s: string)
    requires s != "" && AllPlain(s)
    ensures Sound(Bare(s)) && Quotable(s)
  {
    assert IsPlain(s[0]);
  }

  lemma IdentifierWord(s: string)
    ensures Sound(Identifier(s)) && (Readable(Identifier(s)) <==> Quotable(s))
    ensures TokenOf(Identifier(s)).text == s
  {
    if s != "" && AllPlain(s) { PlainIsSound(s); }
  }

  lemma BatchKeyWord(s: string)
    ensures Sound(BatchKey(s)) && (Readable(BatchKey(s)) <==> Quotable(s))
    ensures TokenOf(BatchKey(s)).text == s && TokenOf(BatchKey(s)) != Token("EX", false)
  {
    IdentifierWord(s);
    if s == "EX" { assert Quotable("EX"); }
  }

  lemma NumberWord(n: nat)
    ensures Sound(Num(n)) && Readable(Num(n)) && TokenOf(Num(n)) == Token(Print(n), false)
    ensures n < U64 ==> ParseU64(Print(n)) == Some(n)
    ensures Print(n) != "EX"
  {
    assert IsDigit(Print(n)[0]);
    PlainIsSound(Print(n));
    assert Print(n)[0] != 'E';
  }

  lemma UuidWord(s: string)
    requires IsUuid(s)
    ensures Sound(Bare(s)) && Readable(Bare(s))
  {
    forall i | 0 <= i < |s| ensures IsPlain(s[i]) {}
    PlainIsSound(s);
  }

  lemma LiteralWord(v: Value)
    requires WellFormed(v)
    ensures Sound(Literal(v)) && (Readable(Literal(v)) <==> ReadableValue(v))
    ensures Depth(v) < RECURSION_LIMIT ==> ValueOf(TokenOf(Literal(v))) == Some(v)
  {
    if !v.Str? { DocumentParses(v); }
  }

  lemma KeywordWord(s: string)
    requires s != "" && AllPlain(s)
    ensures Sound(Bare(s)) && Readable(Bare(s)) && TokenOf(Bare(s)) == Token(s, false)
  {
    PlainIsSound(s);
  }

  lemma OptionWord(name: string, n: Option<nat>)
    requires name != "" && AllPlain(name)
    ensures AllSound(OptionWords(name, n)) && AllReadable(OptionWords(name, n))
  {
    KeywordWord(name);
    if n.Some? { NumberWord(n.value); }
  }

  // ---- commands --------------------------------------------------------------------------------

  predicate ReadableEntries(entries: seq<Entry>) {
    forall i | 0 <= i < |entries| :: Quotable(entries[i].key) && ReadableValue(entries[i].value)
  }

  predicate ShallowEntries(entries: seq<Entry>) {
    forall i | 0 <= i < |entries| :: Depth(entries[i].value) < RECURSION_LIMIT
  }

  predicate QuotableOption(s: Option<string>) { s.Some? ==> Quotable(s.value) }

  /** The commands whose frames the tokenizer can read. */
  predicate Representable(c: Command) {
    match c
    case Auth(key, _) => Quotable(key)
    case Get(ns, key) => Quotable(ns) && Quotable(key)
    case Set(ns, key, v, _) => Quotable(ns) && Quotable(key) && ReadableValue(v)
    case SetBatch(ns, entries, _) => Quotable(ns) && ReadableEntries(entries)
    case Delete(ns, pattern) => Quotable(ns) && QuotableOption(pattern)
    case Move(source, destination) => Quotable(source) && Quotable(destination)
    case Provide(ns, key, _, _, _) => Quotable(ns) && Quotable(key)
    case Store(ns, key) => Quotable(ns) && Quotable(key)
    case Ping => true
    case Stats => true
  }

  /** What has to be shown of a word list: it is sound, readable exactly when the message
      is representable, and then its tokens decode to the message. */
  ghost predicate Faithful<M(!new)>(words: seq<Word>, representable: bool, decoded: Option<M>, message: M) {
    words != [] && AllSound(words) && (AllReadable(words) <==> representable)
    && (representable ==> decoded == Some(message))
  }

  ghost predicate FaithfulCommand(c: Command) {
    Faithful(CommandWords(c), Representable(c), CommandOf(TokensOf(CommandWords(c))), c)
  }

  lemma AuthWords(c: Command)
    requires c.Auth? && ValidCommand(c)
    ensures AllSound(CommandWords(c)) && (AllReadable(CommandWords(c)) <==> Quotable(c.apiKey))
  {
    KeywordWord("AUTH");
    KeywordWord("ADAPTER");
    IdentifierWord(c.apiKey);
    if c.adapter.Some? { UuidWord(c.adapter.value); }
    assert CommandWords(c)[1] == Identifier(c.apiKey);
  }

  lemma AuthFaithful(c: Command)
    requires c.Auth? && ValidCommand(c)
    ensures CommandWords(c) != [] && FaithfulCommand(c)
  {
    AuthWords(c);
    IdentifierWord(c.apiKey);
  }

  lemma OptionDecodes(t: seq<Token>, i: nat, name: string, n: Option<nat>)
    requires i <= |t| && Fits(n, U64)
    requires t[i..] == TokensOf(OptionWords(name, n))
    ensures OptionAt(t, i, name) == Some(n)
  {
    if n.Some? {
      NumberWord(n.value);
      assert t[i] == t[i..][0] && t[i + 1] == t[i..][1];
    }
  }

  lemma TokensOfConcat(a: seq<Word>, b: seq<Word>)
    ensures TokensOf(a + b) == TokensOf(a) + TokensOf(b)
  {
  }

  lemma Suffix(x: seq<Token>, y: seq<Token>)
    ensures (x + y)[|x|..] == y && (x + y)[..|x|] == x
  {
  }

  lemma TokensOfThree(a: seq<Word>, b: seq<Word>, c: seq<Word>)
    ensures |TokensOf(a + b + c)| == |a| + |b| + |c|
    ensures TokensOf(a + b + c)[..|a|] == TokensOf(a) && TokensOf(a + b + c)[|a|..] == TokensOf(b) + TokensOf(c)
  {
    assert a + b + c == a + (b + c);
    TokensOfConcat(a, b + c);
    TokensOfConcat(b, c);
    Suffix(TokensOf(a), TokensOf(b + c));
  }

  lemma EntryTokens(entries: seq<Entry>)
    requires entries != []
    ensures TokensOf(EntryWords(entries))
            == [TokenOf(BatchKey(entries[0].key)), TokenOf(Literal(entries[0].value))]
               + TokensOf(EntryWords(entries[1..]))
  {
    TokensOfConcat([BatchKey(entries[0].key), Literal(entries[0].value)], EntryWords(entries[1..]));
  }

  /** The first entry of a batch, and what is left of it. */
  lemma FirstEntryDecodes(t: seq<Token>, first: nat, entry: Entry, later: seq<Token>)
    requires first <= |t| && entry.key != "" && WellFormed(entry.value) && Depth(entry.value) < RECURSION_LIMIT
    requires t[first..] == [TokenOf(BatchKey(entry.key)), TokenOf(Literal(entry.value))] + later
    ensures first + 2 <= |t| && t[first + 2..] == later
    ensures NameAt(t, first) == Some(entry.key) && ValueOf(t[first + 1]) == Some(entry.value)
    ensures t[first] != Token("EX", false)
  {
    BatchKeyWord(entry.key);
    LiteralWord(entry.value);
    assert t[first] == t[first..][0] && t[first + 1] == t[first..][1];
  }

  /** From `first` on the tokens are read as the entries, and no key as the option word. */
  ghost predicate ReadsAs(t: seq<Token>, first: nat, entries: seq<Entry>)
    decreases |entries|
  {
    entries == [] ||
    (&& first + 2 <= |t| && NameAt(t, first) == Some(entries[0].key) && ValueOf(t[first + 1]) == Some(entries[0].value)
     && t[first] != Token("EX", false) && ReadsAs(t, first + 2, entries[1..]))
  }

  lemma {:induction false} EntryWordsRead(t: seq<Token>, first: nat, entries: seq<Entry>, later: seq<Token>)
    requires first <= |t| && t[first..] == TokensOf(EntryWords(entries)) + later
    requires ValidEntries(entries) && ShallowEntries(entries)
    ensures ReadsAs(t, first, entries)
    decreases |entries|
  {
    if entries != [] {
      var rest := TokensOf(EntryWords(entries[1..])) + later;
      EntryTokens(entries);
      assert t[first..] == [TokenOf(BatchKey(entries[0].key)), TokenOf(Literal(entries[0].value))] + rest;
      FirstEntryDecodes(t, first, entries[0], rest);
      EntryWordsRead(t, first + 2, entries[1..], later);
    }
  }

  lemma {:induction false} EntriesRead(t: seq<Token>, first: nat, end: nat, entries: seq<Entry>)
    requires ReadsAs(t, first, entries) && end == first + 2 * |entries| <= |t|
    ensures (end - first) % 2 == 0 && EntriesAt(t, first, end) == Some(entries)
    ensures entries != [] ==> t[end - 2] != Token("EX", false)
    decreases |entries|
  {
    if entries != [] {
      EntriesRead(t, first + 2, end, entries[1..]);
      assert [entries[0]] + entries[1..] == entries && Entry(entries[0].key, entries[0].value) == entries[0];
    }
  }

  lemma {:induction false} EntryWordsSound(entries: seq<Entry>)
    requires ValidEntries(entries)
    ensures AllSound(EntryWords(entries)) && (AllReadable(EntryWords(entries)) <==> ReadableEntries(entries))
  {
    if entries != [] {
      BatchKeyWord(entries[0].key);
      LiteralWord(entries[0].value);
      EntryWordsSound(entries[1..]);
      SoundPair(BatchKey(entries[0].key), Literal(entries[0].value), EntryWords(entries[1..]));
      QuotableFirst(entries);
    }
  }

  lemma QuotableFirst(entries: seq<Entry>)
    requires entries != []
    ensures ReadableEntries(entries)
            <==> Quotable(entries[0].key) && ReadableValue(entries[0].value) && ReadableEntries(entries[1..])
  {
    assert forall i | 1 <= i < |entries| :: entries[i] == entries[1..][i - 1];
  }

  lemma SoundPair(a: Word, b: Word, rest: seq<Word>)
    requires Sound(a) && Sound(b) && AllSound(rest)
    ensures AllSound([a, b] + rest)
    ensures AllReadable([a, b] + rest) <==> Readable(a) && Readable(b) && AllReadable(rest)
  {
    var all := [a, b] + rest;
    assert all[0] == a && all[1] == b;
    assert forall i | 2 <= i < |all| :: all[i] == rest[i - 2];
    assert forall i | 0 <= i < |rest| :: rest[i] == all[i + 2];
  }

  /** The end of a batch is found although a key may be called `EX`. */
  lemma BatchDecodes(t: seq<Token>, first: nat, entries: seq<Entry>, ttl: Option<nat>)
    requires |t| >= 4 && entries != [] && ValidEntries(entries) && ShallowEntries(entries) && Fits(ttl, U64)
    requires first <= |t| && t[first..] == TokensOf(EntryWords(entries)) + TokensOf(OptionWords("EX", ttl))
    ensures Batch(t, first) == Some((entries, ttl))
  {
    EntryWordsRead(t, first, entries, TokensOf(OptionWords("EX", ttl)));
    AfterEntries(t, first, TokensOf(EntryWords(entries)), TokensOf(OptionWords("EX", ttl)));
    BatchReads(t, first, first + 2 * |entries|, entries, ttl);
  }

  lemma BatchReads(t: seq<Token>, first: nat, end: nat, entries: seq<Entry>, ttl: Option<nat>)
    requires |t| >= 4 && entries != [] && Fits(ttl, U64) && ReadsAs(t, first, entries)
    requires end == first + 2 * |entries| <= |t| && t[end..] == TokensOf(OptionWords("EX", ttl))
    ensures Batch(t, first) == Some((entries, ttl))
  {
    EntriesRead(t, first, end, entries);
    BatchOptionDecodes(t, first, end, ttl);
    BatchIs(t, first, end, entries, ttl);
  }

  lemma AfterEntries(t: seq<Token>, first: nat, batch: seq<Token>, option: seq<Token>)
    requires first <= |t| && t[first..] == batch + option
    ensures first + |batch| <= |t| && t[first + |batch|..] == option
  {
    assert t[first..][|batch|..] == option;
  }

  lemma BatchIs(t: seq<Token>, first: nat, end: nat, entries: seq<Entry>, ttl: Option<nat>)
    requires |t| >= 4 && first < end <= |t| && (end - first) % 2 == 0
    requires BatchEnd(t) == end && BatchTtl(t, end) == Some(ttl) && EntriesAt(t, first, end) == Some(entries)
    ensures Batch(t, first) == Some((entries, ttl))
  {
  }

  lemma BatchOptionDecodes(t: seq<Token>, first: nat, end: nat, ttl: Option<nat>)
    requires 4 <= |t| && first + 2 <= end <= |t| && t[end - 2] != Token("EX", false) && Fits(ttl, U64)
    requires t[end..] == TokensOf(OptionWords("EX", ttl))
    ensures BatchEnd(t) == end && BatchTtl(t, end) == Some(ttl)
  {
    if ttl.Some? {
      NumberWord(ttl.value);
      assert t[end] == t[end..][0] && t[end + 1] == t[end..][1];
    }
  }

  lemma BatchTokens(head: seq<Word>, entries: seq<Entry>, ttl: Option<nat>)
    ensures var t := TokensOf(head + EntryWords(entries) + OptionWords("EX", ttl));
            && |t| >= |head| + 2 * |entries| && t[..|head|] == TokensOf(head)
            && t[|head|..] == TokensOf(EntryWords(entries)) + TokensOf(OptionWords("EX", ttl))
  {
    TokensOfThree(head, EntryWords(entries), OptionWords("EX", ttl));
  }

  lemma SetBatchDecodes(c: Command)
    requires c.SetBatch? && ValidCommand(c) && c.entries != [] && ShallowEntries(c.entries)
    ensures CommandOf(TokensOf(CommandWords(c))) == Some(c)
  {
    IdentifierWord(c.namespace);
    BatchTokens([Bare("SET_BATCH"), Identifier(c.namespace)], c.entries, c.ttl);
    var t := TokensOf(CommandWords(c));
    BatchDecodes(t, 2, c.entries, c.ttl);
    SetBatchOf(c, t);
  }

  lemma SetBatchOf(c: Command, t: seq<Token>)
    requires c.SetBatch? && |t| >= 4 && t[0] == Token("SET_BATCH", false)
    requires NameAt(t, 1) == Some(c.namespace) && Batch(t, 2) == Some((c.entries, c.ttl))
    ensures CommandOf(t) == Some(c)
  {
  }

  lemma SetBatchFaithful(c: Command)
    requires c.SetBatch? && ValidCommand(c) && c.entries != []
    ensures CommandWords(c) != [] && FaithfulCommand(c)
  {
    var head := [Bare("SET_BATCH"), Identifier(c.namespace)];
    HeadWords("SET_BATCH", c.namespace);
    EntryWordsSound(c.entries);
    OptionWord("EX", c.ttl);
    ConcatWords(head, EntryWords(c.entries), OptionWords("EX", c.ttl));
    if ReadableEntries(c.entries) { SetBatchDecodes(c); }
  }

  lemma HeadWords(keyword: string, name: string)
    requires keyword != "" && AllPlain(keyword)
    ensures AllSound([Bare(keyword), Identifier(name)])
    ensures AllReadable([Bare(keyword), Identifier(name)]) <==> Quotable(name)
  {
    KeywordWord(keyword);
    IdentifierWord(name);
    var head := [Bare(keyword), Identifier(name)];
    assert head[0] == Bare(keyword) && head[1] == Identifier(name);
  }

  lemma ConcatWords(a: seq<Word>, b: seq<Word>, c: seq<Word>)
    requires AllSound(a) && AllSound(b) && AllSound(c) && AllReadable(c)
    ensures AllSound(a + b + c) && (AllReadable(a + b + c) <==> AllReadable(a) && AllReadable(b))
  {
    assert forall i | 0 <= i < |a| :: (a + b + c)[i] == a[i];
    assert forall i | 0 <= i < |b| :: (a + b + c)[|a| + i] == b[i];
  }

  /** The words `<namespace> <key> <value> [EX <seconds>]` behind a head. */
  lemma StoredWords(head: seq<Word>, ns: string, key: string, v: Value, ttl: Option<nat>)
    requires AllSound(head) && AllReadable(head) && WellFormed(v)
    ensures var words := head + StoredBody(ns, key, v) + OptionWords("EX", ttl);
            && AllSound(words)
            && (AllReadable(words) <==> Quotable(ns) && Quotable(key) && ReadableValue(v))
  {
    IdentifierWord(ns);
    IdentifierWord(key);
    LiteralWord(v);
    OptionWord("EX", ttl);
    var body := StoredBody(ns, key, v);
    assert body[0] == Identifier(ns) && body[1] == Identifier(key) && body[2] == Literal(v);
    assert AllSound(body);
    ConcatWords(head, body, OptionWords("EX", ttl));
  }

  function StoredBody(ns: string, key: string, v: Value): seq<Word> { [Identifier(ns), Identifier(key), Literal(v)] }

  /** The tokens of such words, read at their places. */
  lemma StoredTokens(head: seq<Word>, ns: string, key: string, v: Value, ttl: Option<nat>) returns (t: seq<Token>)
    requires WellFormed(v) && Depth(v) < RECURSION_LIMIT && Fits(ttl, U64)
    ensures t == TokensOf(head + StoredBody(ns, key, v) + OptionWords("EX", ttl))
    ensures var h := |head|;
            && |t| == h + 3 + |OptionWords("EX", ttl)| && t[..h] == TokensOf(head)
            && t[h].text == ns && t[h + 1].text == key && ValueOf(t[h + 2]) == Some(v)
            && OptionAt(t, h + 3, "EX") == Some(ttl)
  {
    var h, body, option := |head|, StoredBody(ns, key, v), OptionWords("EX", ttl);
    t := TokensOf(head + body + option);
    TokensOfThree(head, body, option);
    StoredBodyTokens(ns, key, v);
    StoredRest(t, h, TokensOf(body), TokensOf(option));
    OptionDecodes(t, h + 3, "EX", ttl);
  }

  lemma StoredBodyTokens(ns: string, key: string, v: Value)
    requires WellFormed(v) && Depth(v) < RECURSION_LIMIT
    ensures var t := TokensOf(StoredBody(ns, key, v));
            |t| == 3 && t[0].text == ns && t[1].text == key && ValueOf(t[2]) == Some(v)
  {
    IdentifierWord(ns);
    IdentifierWord(key);
    LiteralWord(v);
  }

  lemma StoredRest(t: seq<Token>, h: nat, body: seq<Token>, option: seq<Token>)
    requires h <= |t| && t[h..] == body + option && |body| == 3
    ensures h + 3 <= |t| && t[h] == body[0] && t[h + 1] == body[1] && t[h + 2] == body[2] && t[h + 3..] == option
  {
    assert t[h] == t[h..][0] && t[h + 1] == t[h..][1] && t[h + 2] == t[h..][2];
    assert t[h..][3..] == option;
  }

  lemma TwoTokens(a: Word, b: Word)
    ensures TokensOf([a, b]) == [TokenOf(a), TokenOf(b)]
  {
  }

  lemma OneToken(w: Word)
    ensures TokensOf([w]) == [TokenOf(w)]
  {
  }

  lemma SetOf(c: Command, t: seq<Token>)
    requires c.Set? && ValidCommand(c) && |t| == 4 + |OptionWords("EX", c.ttl)| && t[0] == Token("SET", false)
    requires t[1].text == c.namespace && t[2].text == c.key && ValueOf(t[3]) == Some(c.value)
    requires OptionAt(t, 4, "EX") == Some(c.ttl)
    ensures CommandOf(t) == Some(c)
  {
  }

  lemma SetFaithful(c: Command)
    requires c.Set? && ValidCommand(c)
    ensures CommandWords(c) != [] && FaithfulCommand(c)
  {
    var head := [Bare("SET")];
    KeywordWord("SET");
    StoredWords(head, c.namespace, c.key, c.value, c.ttl);
    assert CommandWords(c) == head + StoredBody(c.namespace, c.key, c.value) + OptionWords("EX", c.ttl);
    if ReadableValue(c.value) {
      var t := StoredTokens(head, c.namespace, c.key, c.value, c.ttl);
      OneToken(head[0]);
      assert t[..1][0] == t[0];
      SetOf(c, t);
    }
  }

  lemma DeleteFaithful(c: Command)
    requires c.Delete? && ValidCommand(c)
    ensures CommandWords(c) != [] && FaithfulCommand(c)
  {
    KeywordWord("DELETE");
    IdentifierWord(c.namespace);
    if c.pattern.Some? { IdentifierWord(c.pattern.value); }
    DeleteOf(c, TokensOf(CommandWords(c)));
  }

  lemma DeleteOf(c: Command, t: seq<Token>)
    requires c.Delete? && t != [] && t[0] == Token("DELETE", false)
    requires |t| == (if c.pattern.Some? then 3 else 2) && t[1].text == c.namespace && c.namespace != ""
    requires c.pattern.Some? ==> t[2].text == c.pattern.value && c.pattern.value != ""
    ensures CommandOf(t) == Some(c)
  {
  }

  /** A keyword and two names. */
  lemma NamedWords(keyword: string, a: string, b: string) returns (t: seq<Token>)
    requires keyword != "" && AllPlain(keyword)
    ensures var words := [Bare(keyword), Identifier(a), Identifier(b)];
            && AllSound(words) && (AllReadable(words) <==> Quotable(a) && Quotable(b)) && t == TokensOf(words)
    ensures |t| == 3 && t[0] == Token(keyword, false) && t[1].text == a && t[2].text == b
  {
    var words := [Bare(keyword), Identifier(a), Identifier(b)];
    KeywordWord(keyword);
    IdentifierWord(a);
    IdentifierWord(b);
    assert words[1] == Identifier(a) && words[2] == Identifier(b);
    t := TokensOf(words);
  }

  lemma NamedOf(c: Command, t: seq<Token>)
    requires |t| == 3 && !t[0].quoted && t[1].text != "" && t[2].text != ""
    requires c.Get? ==> t[0].text == "GET" && t[1].text == c.namespace && t[2].text == c.key
    requires c.Move? ==> t[0].text == "MOVE" && t[1].text == c.source && t[2].text == c.destination
    requires c.Store? ==> t[0].text == "STORE" && t[1].text == c.namespacePattern && t[2].text == c.keyPattern
    ensures c.Get? || c.Move? || c.Store? ==> CommandOf(t) == Some(c)
  {
  }

  lemma GetFaithful(c: Command)
    requires c.Get? && ValidCommand(c)
    ensures CommandWords(c) != [] && FaithfulCommand(c)
  {
    var t := NamedWords("GET", c.namespace, c.key);
    NamedOf(c, t);
  }

  lemma MoveFaithful(c: Command)
    requires c.Move? && ValidCommand(c)
    ensures CommandWords(c) != [] && FaithfulCommand(c)
  {
    var t := NamedWords("MOVE", c.source, c.destination);
    NamedOf(c, t);
  }

  lemma StoreFaithful(c: Command)
    requires c.Store? && ValidCommand(c)
    ensures CommandWords(c) != [] && FaithfulCommand(c)
  {
    var t := NamedWords("STORE", c.namespacePattern, c.keyPattern);
    NamedOf(c, t);
  }

  /** A keyword alone. */
  lemma OneWord(keyword: string)
    requires keyword != "" && AllPlain(keyword)
    ensures AllSound([Bare(keyword)]) && AllReadable([Bare(keyword)])
            && TokensOf([Bare(keyword)]) == [Token(keyword, false)]
  {
    KeywordWord(keyword);
    OneToken(Bare(keyword));
  }

  lemma BareFaithful(c: Command)
    requires c.Ping? || c.Stats?
    ensures CommandWords(c) != [] && FaithfulCommand(c)
  {
    var word := if c.Ping? then "PING" else "STATS";
    OneWord(word);
    BareOf(c, [Token(word, false)]);
  }

  lemma BareOf(c: Command, t: seq<Token>)
    requires (c.Ping? || c.Stats?) && t == [Token(if c.Ping? then "PING" else "STATS", false)]
    ensures CommandOf(t) == Some(c)
  {
  }

  lemma NamedOptionDecodes(t: seq<Token>, i: nat, name: string, n: Option<nat>, bound: nat, later: seq<Token>)
    requires i <= |t| && t[i..] == TokensOf(OptionWords(name, n)) + later
    requires later != [] ==> later[0] != Token(name, false)
    requires Fits(n, bound) && bound <= U64
    ensures NamedOption(t, i, name, bound) == Some((n, i + |OptionWords(name, n)|))
    ensures t[i + |OptionWords(name, n)|..] == later
  {
    if n.Some? {
      NumberWord(n.value);
      assert t[i] == t[i..][0] && t[i + 1] == t[i..][1];
    } else {
      assert t[i..] == later;
      assert i < |t| ==> t[i] == t[i..][0];
    }
  }

  lemma ProvideTokens(c: Command)
    requires c.Provide?
    ensures var t := TokensOf(CommandWords(c));
            && |t| >= 3 && t[0] == Token("PROVIDE", false)
            && t[1] == TokenOf(Identifier(c.namespacePattern)) && t[2] == TokenOf(Identifier(c.keyPattern))
            && t[3..] == TokensOf(OptionWords("MAX_RATE", c.maxRate))
                         + (TokensOf(OptionWords("TIMEOUT", c.timeout)) + TokensOf(OptionWords("MISS_TTL", c.missTtl)))
  {
    var head := [Bare("PROVIDE"), Identifier(c.namespacePattern), Identifier(c.keyPattern)];
    var rate, timeout := OptionWords("MAX_RATE", c.maxRate), OptionWords("TIMEOUT", c.timeout);
    var ttl := OptionWords("MISS_TTL", c.missTtl);
    assert CommandWords(c) == head + (rate + (timeout + ttl));
    TokensOfConcat(head, rate + (timeout + ttl));
    TokensOfConcat(rate, timeout + ttl);
    TokensOfConcat(timeout, ttl);
  }

  lemma OptionTokensStart(name: string, n: Option<nat>)
    ensures TokensOf(OptionWords(name, n)) != [] ==> TokensOf(OptionWords(name, n))[0] == Token(name, false)
  {
  }

  lemma OptionTokensDiffer(timeout: Option<nat>, ttl: Option<nat>)
    ensures var later := TokensOf(OptionWords("TIMEOUT", timeout)) + TokensOf(OptionWords("MISS_TTL", ttl));
            later != [] ==> later[0] != Token("MAX_RATE", false)
    ensures var later := TokensOf(OptionWords("MISS_TTL", ttl)); later != [] ==> later[0] != Token("TIMEOUT", false)
  {
    OptionTokensStart("TIMEOUT", timeout);
    OptionTokensStart("MISS_TTL", ttl);
    assert "TIMEOUT" != "MAX_RATE" && "MISS_TTL"[1] != "MAX_RATE"[1] && "MISS_TTL" != "TIMEOUT";
  }

  lemma ProvideOptions(t: seq<Token>, c: Command)
    requires c.Provide? && ValidCommand(c) && |t| >= 3 && t[0] == Token("PROVIDE", false)
    requires t[1].text == c.namespacePattern && t[2].text == c.keyPattern
    requires t[3..] == TokensOf(OptionWords("MAX_RATE", c.maxRate))
                       + (TokensOf(OptionWords("TIMEOUT", c.timeout)) + TokensOf(OptionWords("MISS_TTL", c.missTtl)))
    ensures CommandOf(t) == Some(c)
  {
    var i, j := ProvideOptionsDecode(t, c.maxRate, c.timeout, c.missTtl);
    DecodeProvideIs(t, c, i, j);
  }

  lemma ProvideOptionsDecode(t: seq<Token>, rate: Option<nat>, timeout: Option<nat>, ttl: Option<nat>)
    returns (i: nat, j: nat)
    requires |t| >= 3 && Fits(rate, U32) && Fits(timeout, U64) && Fits(ttl, U64)
    requires t[3..] == TokensOf(OptionWords("MAX_RATE", rate))
                       + (TokensOf(OptionWords("TIMEOUT", timeout)) + TokensOf(OptionWords("MISS_TTL", ttl)))
    ensures NamedOption(t, 3, "MAX_RATE", U32) == Some((rate, i))
    ensures NamedOption(t, i, "TIMEOUT", U64) == Some((timeout, j))
    ensures NamedOption(t, j, "MISS_TTL", U64) == Some((ttl, |t|))
  {
    var last := TokensOf(OptionWords("MISS_TTL", ttl));
    OptionTokensDiffer(timeout, ttl);
    i := NamedOptionAt(t, 3, "MAX_RATE", rate, U32, TokensOf(OptionWords("TIMEOUT", timeout)) + last);
    j := NamedOptionAt(t, i, "TIMEOUT", timeout, U64, last);
    LastOptionAt(t, j, "MISS_TTL", ttl, U64);
  }

  lemma LastOptionAt(t: seq<Token>, i: nat, name: string, n: Option<nat>, bound: nat)
    requires i <= |t| && t[i..] == TokensOf(OptionWords(name, n)) && Fits(n, bound) && bound <= U64
    ensures NamedOption(t, i, name, bound) == Some((n, |t|))
  {
    assert t[i..] + [] == t[i..];
    var end := NamedOptionAt(t, i, name, n, bound, []);
  }

  lemma NamedOptionAt(t: seq<Token>, i: nat, name: string, n: Option<nat>, bound: nat, later: seq<Token>)
    returns (next: nat)
    requires i <= |t| && t[i..] == TokensOf(OptionWords(name, n)) + later
    requires later != [] ==> later[0] != Token(name, false)
    requires Fits(n, bound) && bound <= U64
    ensures next <= |t| && NamedOption(t, i, name, bound) == Some((n, next)) && t[next..] == later
  {
    next := i + |OptionWords(name, n)|;
    NamedOptionDecodes(t, i, name, n, bound, later);
  }

  lemma ProvideDecodes(c: Command)
    requires c.Provide? && ValidCommand(c)
    ensures CommandOf(TokensOf(CommandWords(c))) == Some(c)
  {
    IdentifierWord(c.namespacePattern);
    IdentifierWord(c.keyPattern);
    ProvideTokens(c);
    ProvideOptions(TokensOf(CommandWords(c)), c);
  }

  lemma DecodeProvideIs(t: seq<Token>, c: Command, i: nat, j: nat)
    requires c.Provide? && ValidCommand(c) && |t| >= 3 && t[0] == Token("PROVIDE", false)
    requires t[1].text == c.namespacePattern && t[2].text == c.keyPattern
    requires NamedOption(t, 3, "MAX_RATE", U32) == Some((c.maxRate, i))
    requires NamedOption(t, i, "TIMEOUT", U64) == Some((c.timeout, j))
    requires NamedOption(t, j, "MISS_TTL", U64) == Some((c.missTtl, |t|))
    ensures CommandOf(t) == Some(c)
  {
  }

  lemma OptionTriple(rate: Option<nat>, timeout: Option<nat>, ttl: Option<nat>)
    ensures var words := OptionWords("MAX_RATE", rate) + OptionWords("TIMEOUT", timeout) + OptionWords("MISS_TTL", ttl);
            AllSound(words) && AllReadable(words)
  {
    OptionWord("MAX_RATE", rate);
    OptionWord("TIMEOUT", timeout);
    OptionWord("MISS_TTL", ttl);
    ConcatWords(OptionWords("MAX_RATE", rate), OptionWords("TIMEOUT", timeout), OptionWords("MISS_TTL", ttl));
  }

  lemma Regroup(head: seq<Word>, w: Word, a: seq<Word>, b: seq<Word>, c: seq<Word>)
    ensures head + [w] + a + b + c == head + [w] + (a + b + c)
  {
  }

  /** The words of a `PROVIDE`, from its head and its options. */
  lemma ProvideWords(c: Command)
    requires c.Provide? && ValidCommand(c)
    ensures AllSound(CommandWords(c))
    ensures AllReadable(CommandWords(c)) <==> Quotable(c.namespacePattern) && Quotable(c.keyPattern)
  {
    var head := [Bare("PROVIDE"), Identifier(c.namespacePattern)];
    var rate, timeout := OptionWords("MAX_RATE", c.maxRate), OptionWords("TIMEOUT", c.timeout);
    var ttl := OptionWords("MISS_TTL", c.missTtl);
    HeadWords("PROVIDE", c.namespacePattern);
    IdentifierWord(c.keyPattern);
    OptionTriple(c.maxRate, c.timeout, c.missTtl);
    Regroup(head, Identifier(c.keyPattern), rate, timeout, ttl);
    assert [Bare("PROVIDE"), Identifier(c.namespacePattern), Identifier(c.keyPattern)]
        == head + [Identifier(c.keyPattern)];
    ConcatWords(head, [Identifier(c.keyPattern)], rate + timeout + ttl);
    assert AllReadable([Identifier(c.keyPattern)]) <==> Readable([Identifier(c.keyPattern)][0]);
  }

  lemma ProvideFaithful(c: Command)
    requires c.Provide? && ValidCommand(c)
    ensures CommandWords(c) != [] && FaithfulCommand(c)
  {
    ProvideWords(c);
    ProvideDecodes(c);
  }

  lemma CommandIsFaithful(c: Command)
    requires ValidCommand(c) && !(c.SetBatch? && c.entries == [])
    ensures CommandWords(c) != [] && FaithfulCommand(c)
  {
    match c
    case Auth(_, _) => AuthFaithful(c);
    case Get(_, _) => GetFaithful(c);
    case Set(_, _, _, _) => SetFaithful(c);
    case SetBatch(_, _, _) => SetBatchFaithful(c);
    case Delete(_, _) => DeleteFaithful(c);
    case Move(_, _) => MoveFaithful(c);
    case Provide(_, _, _, _, _) => ProvideFaithful(c);
    case Store(_, _) => StoreFaithful(c);
    case Ping => BareFaithful(c);
    case Stats => BareFaithful(c);
  }

  /** Commands: only an empty batch is refused; any other command comes back from its frame
      exactly when it is representable and the frame fits in 1 MiB, and is an error otherwise. */
  lemma CommandRoundTrip(c: Command)
    requires ValidCommand(c)
    ensures EncodeCommand(c).None? <==> c.SetBatch? && c.entries == []
    ensures EncodeCommand(c).Some? ==>
              var frame := EncodeCommand(c).value;
              DecodeCommand(frame) ==
              if Representable(c) && Utf8Length(frame) <= MAX_FRAME_BYTES then Some(c) else None
  {
    if EncodeCommand(c).Some? {
      CommandIsFaithful(c);
      FrameRoundTrip(CommandWords(c));
    }
  }

  // ---- answers ------------------------------------------------------------------------------------

  /** The answers whose frames can be read in the context of their command. */
  predicate RepresentableAnswer(c: Command, r: Response) {
    match r
    case Found(v, _) => c.Get? && Quotable(c.namespace) && Quotable(c.key) && ReadableValue(v)
    case AuthSuccess(client, _) => Quotable(client)
    case AuthFailure(message) => Quotable(message)
    case Error(message) => Quotable(message)
    case _ => true
  }

  ghost predicate FaithfulAnswer(c: Command, r: Response)
    requires AnswerAllowed(c, r)
  {
    var words := ResponseWords(c, r);
    words != [] && Faithful(words, RepresentableAnswer(c, r), ResponseOf(c, TokensOf(words)), r)
  }

  lemma FoundOf(c: Command, r: Response, t: seq<Token>)
    requires c.Get? && r.Found? && |t| == 4 + |OptionWords("EX", r.ttl)| && t[0] == Token("SET", false)
    requires t[1].text == c.namespace && t[2].text == c.key && ValueOf(t[3]) == Some(r.value)
    requires OptionAt(t, 4, "EX") == Some(r.ttl)
    ensures ResponseOf(c, t) == Some(r)
  {
  }

  lemma FoundFaithful(c: Command, r: Response)
    requires c.Get? && ValidCommand(c) && r.Found? && ValidResponse(r)
    ensures FaithfulAnswer(c, r)
  {
    var head := [Bare("SET")];
    KeywordWord("SET");
    StoredWords(head, c.namespace, c.key, r.value, r.ttl);
    assert ResponseWords(c, r) == head + StoredBody(c.namespace, c.key, r.value) + OptionWords("EX", r.ttl);
    if ReadableValue(r.value) {
      var t := StoredTokens(head, c.namespace, c.key, r.value, r.ttl);
      OneToken(head[0]);
      assert t[..1][0] == t[0];
      FoundOf(c, r, t);
    }
  }

  lemma RetryFaithful(c: Command, r: Response)
    requires AnswerAllowed(c, r) && (r.Miss? || r.AuthPending?) && ValidResponse(r)
    ensures FaithfulAnswer(c, r)
  {
    var t := CountedWords("MISS", r.retryAfterMs);
    RetryOf(c, r, t);
  }

  /** A keyword and a number. */
  lemma CountedWords(keyword: string, n: nat) returns (t: seq<Token>)
    requires keyword != "" && AllPlain(keyword) && n < U64
    ensures var words := [Bare(keyword), Num(n)]; AllSound(words) && AllReadable(words) && t == TokensOf(words)
    ensures |t| == 2 && t[0] == Token(keyword, false) && NumberAt(t, 1) == Some(n)
  {
    KeywordWord(keyword);
    NumberWord(n);
    TwoTokens(Bare(keyword), Num(n));
    t := TokensOf([Bare(keyword), Num(n)]);
    NumberHere(t, 1, n);
  }

  lemma RetryOf(c: Command, r: Response, t: seq<Token>)
    requires AnswerAllowed(c, r) && (r.Miss? || r.AuthPending?)
    requires |t| == 2 && t[0] == Token("MISS", false) && NumberAt(t, 1) == Some(r.retryAfterMs)
    ensures ResponseOf(c, t) == Some(r)
  {
  }

  lemma AuthSuccessDecodes(c: Command, r: Response, t: seq<Token>)
    requires c.Auth? && r.AuthSuccess? && ValidResponse(r) && |t| == 4 && t[0] == Token("OK", false)
    requires t[1].text == r.clientId && t[2] == Token("TTL", false) && t[3].text == Print(r.sessionTtl)
    ensures ResponseOf(c, t) == Some(r)
  {
    NumberHere(t, 3, r.sessionTtl);
    AuthSuccessOf(c, r, t);
  }

  lemma AuthSuccessOf(c: Command, r: Response, t: seq<Token>)
    requires c.Auth? && r.AuthSuccess? && |t| == 4 && t[0] == Token("OK", false)
    requires t[1].text == r.clientId && t[2] == Token("TTL", false) && NumberAt(t, 3) == Some(r.sessionTtl)
    ensures ResponseOf(c, t) == Some(r)
  {
  }

  lemma NumberHere(t: seq<Token>, i: nat, n: nat)
    requires i < |t| && t[i].text == Print(n) && n < U64
    ensures NumberAt(t, i) == Some(n)
  {
    NumberWord(n);
  }

  lemma AuthSuccessFaithful(c: Command, r: Response)
    requires c.Auth? && r.AuthSuccess? && ValidResponse(r)
    ensures FaithfulAnswer(c, r)
  {
    var words := ResponseWords(c, r);
    HeadWords("OK", r.clientId);
    OptionWord("TTL", Some(r.sessionTtl));
    ConcatWords([Bare("OK"), Identifier(r.clientId)], [], OptionWords("TTL", Some(r.sessionTtl)));
    assert words == [Bare("OK"), Identifier(r.clientId)] + [] + OptionWords("TTL", Some(r.sessionTtl));
    IdentifierWord(r.clientId);
    AuthSuccessDecodes(c, r, TokensOf(words));
  }

  lemma FailureOf(c: Command, r: Response, t: seq<Token>)
    requires AnswerAllowed(c, r) && (r.AuthFailure? || r.Error?)
    requires |t| == 2 && t[0] == Token("KO", false) && t[1].text == r.message
    ensures ResponseOf(c, t) == Some(r)
  {
  }

  lemma FailureFaithful(c: Command, r: Response)
    requires AnswerAllowed(c, r) && (r.AuthFailure? || r.Error?)
    ensures FaithfulAnswer(c, r)
  {
    var words := [Bare("KO"), Identifier(r.message)];
    HeadWords("KO", r.message);
    IdentifierWord(r.message);
    TwoTokens(words[0], words[1]);
    FailureOf(c, r, TokensOf(words));
  }

  lemma CountersWords(c: Command, r: Response)
    requires c.Stats? && r.Counters?
    ensures var words := ResponseWords(c, r);
            AllSound(words) && AllReadable(words)
  {
    var a, b := OptionWords("REQUESTS", Some(r.requests)), OptionWords("HITS", Some(r.hits));
    var d, e := OptionWords("MISSES", Some(r.misses)), OptionWords("VALUES", Some(r.values));
    OptionWord("REQUESTS", Some(r.requests));
    OptionWord("HITS", Some(r.hits));
    OptionWord("MISSES", Some(r.misses));
    OptionWord("VALUES", Some(r.values));
    KeywordWord("STATS");
    ConcatWords([Bare("STATS")], a, b);
    ConcatWords([Bare("STATS")] + a + b, d, e);
    assert ResponseWords(c, r) == ([Bare("STATS")] + a + b) + d + e;
  }

  lemma CountersDecode(c: Command, r: Response, t: seq<Token>)
    requires c.Stats? && r.Counters? && ValidResponse(r) && |t| == 9 && t[0] == Token("STATS", false)
    requires t[1] == Token("REQUESTS", false) && t[3] == Token("HITS", false)
    requires t[5] == Token("MISSES", false) && t[7] == Token("VALUES", false)
    requires t[2].text == Print(r.requests) && t[4].text == Print(r.hits)
    requires t[6].text == Print(r.misses) && t[8].text == Print(r.values)
    ensures ResponseOf(c, t) == Some(r)
  {
    NumberHere(t, 2, r.requests);
    NumberHere(t, 4, r.hits);
    NumberHere(t, 6, r.misses);
    NumberHere(t, 8, r.values);
    CountersOf(c, r, t);
  }

  lemma CountersOf(c: Command, r: Response, t: seq<Token>)
    requires c.Stats? && r.Counters? && |t| == 9 && t[0] == Token("STATS", false)
    requires t[1] == Token("REQUESTS", false) && t[3] == Token("HITS", false)
    requires t[5] == Token("MISSES", false) && t[7] == Token("VALUES", false)
    requires NumberAt(t, 2) == Some(r.requests) && NumberAt(t, 4) == Some(r.hits)
    requires NumberAt(t, 6) == Some(r.misses) && NumberAt(t, 8) == Some(r.values)
    ensures ResponseOf(c, t) == Some(r)
  {
  }

  lemma CountersFaithful(c: Command, r: Response)
    requires c.Stats? && r.Counters? && ValidResponse(r)
    ensures FaithfulAnswer(c, r)
  {
    CountersWords(c, r);
    CountersDecode(c, r, TokensOf(ResponseWords(c, r)));
  }

  lemma WordAnswerFaithful(c: Command, r: Response)
    requires AnswerAllowed(c, r) && (r.Ok? || r.Unknown? || r.Pong?)
    ensures FaithfulAnswer(c, r)
  {
    var word := if r.Ok? then "OK" else if r.Unknown? then "UNKNOWN" else "PONG";
    OneWord(word);
    WordAnswerOf(c, r, [Token(word, false)]);
  }

  lemma WordAnswerOf(c: Command, r: Response, t: seq<Token>)
    requires AnswerAllowed(c, r) && (r.Ok? || r.Unknown? || r.Pong?)
    requires t == [Token(if r.Ok? then "OK" else if r.Unknown? then "UNKNOWN" else "PONG", false)]
    ensures ResponseOf(c, t) == Some(r)
  {
  }

  lemma AnswerIsFaithful(c: Command, r: Response)
    requires ValidCommand(c) && ValidResponse(r) && AnswerAllowed(c, r)
    ensures FaithfulAnswer(c, r)
  {
    match r
    case Ok => WordAnswerFaithful(c, r);
    case Found(_, _) => FoundFaithful(c, r);
    case Miss(_) => RetryFaithful(c, r);
    case Unknown => WordAnswerFaithful(c, r);
    case AuthSuccess(_, _) => AuthSuccessFaithful(c, r);
    case AuthPending(_) => RetryFaithful(c, r);
    case AuthFailure(_) => FailureFaithful(c, r);
    case Pong => WordAnswerFaithful(c, r);
    case Counters(_, _, _, _) => CountersFaithful(c, r);
    case Error(_) => FailureFaithful(c, r);
  }

  /** Answers: exactly the pairs of the answer matrix are encoded, and decoding in the
      context of the same command inverts it, although keywords are shared. */
  lemma AnswerRoundTrip(c: Command, r: Response)
    requires ValidCommand(c) && ValidResponse(r)
    ensures EncodeResponse(c, r).Some? <==> AnswerAllowed(c, r)
    ensures EncodeResponse(c, r).Some? ==>
              var frame := EncodeResponse(c, r).value;
              DecodeResponse(c, frame) ==
              if RepresentableAnswer(c, r) && Utf8Length(frame) <= MAX_FRAME_BYTES then Some(r) else None
  {
    if AnswerAllowed(c, r) {
      AnswerIsFaithful(c, r);
      FrameRoundTrip(ResponseWords(c, r));
    }
  }

  // ---- callbacks --------------------------------------------------------------------------------------

  predicate RepresentableCallback(c: ServerCommand) {
    match c
    case Query(_, ns, key) => Quotable(ns) && Quotable(key)
    case PersistSet(_, ns, key, v, _) => Quotable(ns) && Quotable(key) && ReadableValue(v)
    case PersistSetBatch(_, ns, entries, _) => Quotable(ns) && ReadableEntries(entries)
    case PersistDelete(_, ns, pattern) => Quotable(ns) && QuotableOption(pattern)
    case PersistMove(_, source, destination) => Quotable(source) && Quotable(destination)
  }

  ghost predicate FaithfulCallback(c: ServerCommand) {
    var words := ServerCommandWords(c);
    words != [] && Faithful(words, RepresentableCallback(c), ServerCommandOf(TokensOf(words)), c)
  }

  lemma QueryFaithful(c: ServerCommand)
    requires c.Query? && ValidServerCommand(c)
    ensures FaithfulCallback(c)
  {
    var t := CallbackWords("QUERY", c.id, c.namespace, c.key);
    QueryOf(c, t);
  }

  /** A keyword, a request id and two names. */
  lemma CallbackWords(keyword: string, id: string, a: string, b: string) returns (t: seq<Token>)
    requires keyword != "" && AllPlain(keyword) && IsUuid(id)
    ensures var words := [Bare(keyword), Bare(id), Identifier(a), Identifier(b)];
            && AllSound(words) && (AllReadable(words) <==> Quotable(a) && Quotable(b)) && t == TokensOf(words)
    ensures |t| == 4 && t[0] == Token(keyword, false) && t[1].text == id && t[2].text == a && t[3].text == b
  {
    var words := [Bare(keyword), Bare(id), Identifier(a), Identifier(b)];
    KeywordWord(keyword);
    UuidWord(id);
    IdentifierWord(a);
    IdentifierWord(b);
    assert words[2] == Identifier(a) && words[3] == Identifier(b);
    t := TokensOf(words);
  }

  lemma QueryOf(c: ServerCommand, t: seq<Token>)
    requires c.Query? && ValidServerCommand(c) && |t| == 4 && t[0] == Token("QUERY", false)
    requires t[1].text == c.id && t[2].text == c.namespace && t[3].text == c.key
    ensures ServerCommandOf(t) == Some(c)
  {
  }

  lemma PersistSetOf(c: ServerCommand, t: seq<Token>)
    requires c.PersistSet? && ValidServerCommand(c) && |t| == 5 + |OptionWords("EX", c.ttl)|
    requires t[0] == Token("PERSIST_SET", false) && t[1].text == c.id
    requires t[2].text == c.namespace && t[3].text == c.key && ValueOf(t[4]) == Some(c.value)
    requires OptionAt(t, 5, "EX") == Some(c.ttl)
    ensures ServerCommandOf(t) == Some(c)
  {
  }

  lemma PersistSetFaithful(c: ServerCommand)
    requires c.PersistSet? && ValidServerCommand(c)
    ensures FaithfulCallback(c)
  {
    var head := [Bare("PERSIST_SET"), Bare(c.id)];
    KeywordWord("PERSIST_SET");
    UuidWord(c.id);
    StoredWords(head, c.namespace, c.key, c.value, c.ttl);
    assert ServerCommandWords(c) == head + StoredBody(c.namespace, c.key, c.value) + OptionWords("EX", c.ttl);
    if ReadableValue(c.value) {
      var t := StoredTokens(head, c.namespace, c.key, c.value, c.ttl);
      TwoTokens(head[0], head[1]);
      assert t[..2][0] == t[0] && t[..2][1] == t[1];
      PersistSetOf(c, t);
    }
  }

  lemma PersistBatchDecodes(c: ServerCommand)
    requires c.PersistSetBatch? && ValidServerCommand(c) && c.entries != [] && ShallowEntries(c.entries)
    ensures ServerCommandOf(TokensOf(ServerCommandWords(c))) == Some(c)
  {
    IdentifierWord(c.namespace);
    BatchTokens([Bare("PERSIST_SET_BATCH"), Bare(c.id), Identifier(c.namespace)], c.entries, c.ttl);
    var t := TokensOf(ServerCommandWords(c));
    BatchDecodes(t, 3, c.entries, c.ttl);
    PersistBatchOf(c, t);
  }

  lemma PersistBatchOf(c: ServerCommand, t: seq<Token>)
    requires c.PersistSetBatch? && |t| >= 5 && t[0] == Token("PERSIST_SET_BATCH", false) && UuidAt(t, 1) == Some(c.id)
    requires NameAt(t, 2) == Some(c.namespace) && Batch(t, 3) == Some((c.entries, c.ttl))
    ensures ServerCommandOf(t) == Some(c)
  {
  }

  lemma PersistBatchFaithful(c: ServerCommand)
    requires c.PersistSetBatch? && ValidServerCommand(c) && c.entries != []
    ensures FaithfulCallback(c)
  {
    var head := [Bare("PERSIST_SET_BATCH"), Bare(c.id), Identifier(c.namespace)];
    CallbackHead("PERSIST_SET_BATCH", c.id, c.namespace);
    EntryWordsSound(c.entries);
    OptionWord("EX", c.ttl);
    ConcatWords(head, EntryWords(c.entries), OptionWords("EX", c.ttl));
    if ReadableEntries(c.entries) { PersistBatchDecodes(c); }
  }

  lemma CallbackHead(keyword: string, id: string, name: string)
    requires keyword != "" && AllPlain(keyword) && IsUuid(id)
    ensures AllSound([Bare(keyword), Bare(id), Identifier(name)])
    ensures AllReadable([Bare(keyword), Bare(id), Identifier(name)]) <==> Quotable(name)
  {
    KeywordWord(keyword);
    UuidWord(id);
    IdentifierWord(name);
    var head := [Bare(keyword), Bare(id), Identifier(name)];
    assert head[2] == Identifier(name);
  }

  lemma PersistDeleteWords(c: ServerCommand)
    requires c.PersistDelete? && ValidServerCommand(c)
    ensures AllSound(ServerCommandWords(c))
    ensures AllReadable(ServerCommandWords(c)) <==> Quotable(c.namespace) && QuotableOption(c.pattern)
  {
    var words := ServerCommandWords(c);
    KeywordWord("PERSIST_DELETE");
    UuidWord(c.id);
    IdentifierWord(c.namespace);
    assert words[2] == Identifier(c.namespace);
    if c.pattern.Some? {
      IdentifierWord(c.pattern.value);
      assert words[3] == Identifier(c.pattern.value);
    }
  }

  lemma PersistDeleteFaithful(c: ServerCommand)
    requires c.PersistDelete? && ValidServerCommand(c)
    ensures FaithfulCallback(c)
  {
    PersistDeleteWords(c);
    IdentifierWord(c.namespace);
    if c.pattern.Some? { IdentifierWord(c.pattern.value); }
  }

  lemma PersistMoveFaithful(c: ServerCommand)
    requires c.PersistMove? && ValidServerCommand(c)
    ensures FaithfulCallback(c)
  {
    var t := CallbackWords("PERSIST_MOVE", c.id, c.source, c.destination);
    PersistMoveOf(c, t);
  }

  lemma PersistMoveOf(c: ServerCommand, t: seq<Token>)
    requires c.PersistMove? && ValidServerCommand(c) && |t| == 4 && t[0] == Token("PERSIST_MOVE", false)
    requires t[1].text == c.id && t[2].text == c.source && t[3].text == c.destination
    ensures ServerCommandOf(t) == Some(c)
  {
  }

  /** Callbacks: every callback but an empty batch comes back from its frame. */
  lemma CallbackRoundTrip(c: ServerCommand)
    requires ValidServerCommand(c) && !(c.PersistSetBatch? && c.entries == [])
    ensures var frame := EncodeServerCommand(c);
            DecodeServerCommand(frame) ==
            if RepresentableCallback(c) && Utf8Length(frame) <= MAX_FRAME_BYTES then Some(c) else None
  {
    match c {
      case Query(_, _, _) => QueryFaithful(c);
      case PersistSet(_, _, _, _, _) => PersistSetFaithful(c);
      case PersistSetBatch(_, _, _, _) => PersistBatchFaithful(c);
      case PersistDelete(_, _, _) => PersistDeleteFaithful(c);
      case PersistMove(_, _, _) => PersistMoveFaithful(c);
    }
    FrameRoundTrip(ServerCommandWords(c));
  }

  // ---- callback results ----------------------------------------------------------------------------------

  /** Results without information that the frame has no place for. */
  predicate Canonical(r: ServerResult) {
    r.QueryResult? ==> (r.error.Some? ==> r.value.None?) && (r.value.None? ==> r.ttl.None?)
  }

  /** What a result is read as: an error hides a value, and only a value has a lifetime. */
  function Canon(r: ServerResult): ServerResult {
    match r
    case Operation(_, _) => r
    case QueryResult(id, v, error, ttl) =>
      if error.Some? then QueryResult(id, None, error, None)
      else if v.Some? then r
      else QueryResult(id, None, None, None)
  }

  predicate RepresentableResult(c: ServerCommand, r: ServerResult) {
    match r
    case Operation(_, error) => QuotableOption(error)
    case QueryResult(_, v, error, _) =>
      if error.Some? then Quotable(error.value)
      else v.Some? ==> c.Query? && Quotable(c.namespace) && Quotable(c.key) && ReadableValue(v.value)
  }

  ghost predicate FaithfulResult(c: ServerCommand, r: ServerResult)
    requires ServerResultWords(c, r).Some?
  {
    var words := ServerResultWords(c, r).value;
    words != [] && Faithful(words, RepresentableResult(c, r), ServerResultOf(c, TokensOf(words)), Canon(r))
  }

  lemma OperationWords(r: ServerResult)
    requires r.Operation? && IsUuid(r.id)
    ensures var words := [Bare("OPERATION"), Bare(r.id)]
                         + (if r.error.None? then [Bare("OK")] else [Bare("KO"), Identifier(r.error.value)]);
            AllSound(words) && (AllReadable(words) <==> QuotableOption(r.error))
  {
    KeywordWord("OPERATION");
    KeywordWord("OK");
    KeywordWord("KO");
    UuidWord(r.id);
    if r.error.Some? {
      IdentifierWord(r.error.value);
      var words := [Bare("OPERATION"), Bare(r.id)] + [Bare("KO"), Identifier(r.error.value)];
      assert words[3] == Identifier(r.error.value);
    }
  }

  lemma OperationFaithful(c: ServerCommand, r: ServerResult)
    requires ValidServerCommand(c) && r.Operation? && ServerResultWords(c, r).Some?
    ensures FaithfulResult(c, r)
  {
    OperationWords(r);
    if r.error.Some? { IdentifierWord(r.error.value); }
  }

  lemma QueryAnswerFaithful(c: ServerCommand, r: ServerResult)
    requires ValidServerCommand(c) && r.QueryResult? && ServerResultWords(c, r).Some?
    requires r.error.Some? || r.value.None?
    ensures FaithfulResult(c, r)
  {
    KeywordWord("QUERY_RESULT");
    KeywordWord("MISS");
    KeywordWord("KO");
    UuidWord(r.id);
    if r.error.Some? { IdentifierWord(r.error.value); }
  }

  lemma QueryValueOf(c: ServerCommand, r: ServerResult, t: seq<Token>)
    requires ValidServerCommand(c) && c.Query? && r.QueryResult? && r.id == c.id && r.error.None? && r.value.Some?
    requires |t| == 6 + |OptionWords("EX", r.ttl)|
    requires t[0] == Token("QUERY_RESULT", false) && t[1].text == c.id && t[2] == Token("SET", false)
    requires t[3].text == c.namespace && t[4].text == c.key && ValueOf(t[5]) == r.value
    requires OptionAt(t, 6, "EX") == Some(r.ttl)
    ensures ServerResultOf(c, t) == Some(r)
  {
  }

  lemma QueryValueHead(id: string) returns (head: seq<Word>)
    requires IsUuid(id)
    ensures head == [Bare("QUERY_RESULT"), Bare(id), Bare("SET")] && AllSound(head) && AllReadable(head)
    ensures TokensOf(head) == [Token("QUERY_RESULT", false), Token(id, false), Token("SET", false)]
  {
    head := [Bare("QUERY_RESULT"), Bare(id), Bare("SET")];
    KeywordWord("QUERY_RESULT");
    KeywordWord("SET");
    UuidWord(id);
  }

  lemma QueryValueDecodes(c: ServerCommand, r: ServerResult, v: Value, head: seq<Word>)
    requires ValidServerCommand(c) && ValidServerResult(r) && c.Query? && r.QueryResult? && r.id == c.id
    requires r.error.None? && r.value == Some(v) && Depth(v) < RECURSION_LIMIT && |head| == 3
    requires TokensOf(head) == [Token("QUERY_RESULT", false), Token(r.id, false), Token("SET", false)]
    ensures ServerResultOf(c, TokensOf(head + StoredBody(c.namespace, c.key, v) + OptionWords("EX", r.ttl))) == Some(r)
  {
    var t := StoredTokens(head, c.namespace, c.key, v, r.ttl);
    FirstThree(t, Token("QUERY_RESULT", false), Token(r.id, false), Token("SET", false));
    QueryValueOf(c, r, t);
  }

  lemma FirstThree(t: seq<Token>, a: Token, b: Token, c: Token)
    requires |t| >= 3 && t[..3] == [a, b, c]
    ensures t[0] == a && t[1] == b && t[2] == c
  {
    assert t[..3][0] == t[0] && t[..3][1] == t[1] && t[..3][2] == t[2];
  }

  lemma QueryValueFaithful(c: ServerCommand, r: ServerResult)
    requires ValidServerCommand(c) && ValidServerResult(r) && r.QueryResult? && ServerResultWords(c, r).Some?
    requires r.error.None? && r.value.Some?
    ensures FaithfulResult(c, r)
  {
    var head := QueryValueHead(r.id);
    StoredWords(head, c.namespace, c.key, r.value.value, r.ttl);
    assert ServerResultWords(c, r).value
        == head + StoredBody(c.namespace, c.key, r.value.value) + OptionWords("EX", r.ttl);
    if ReadableValue(r.value.value) { QueryValueDecodes(c, r, r.value.value, head); }
  }

  /** Callback results: only a result of the right kind and request id is encoded, and in the
      context of its callback it is read back exactly when it is canonical. */
  lemma ResultRoundTrip(c: ServerCommand, r: ServerResult)
    requires ValidServerCommand(c) && ValidServerResult(r)
    ensures EncodeServerResult(c, r).Some? <==> r.id == c.id && (c.Query? <==> r.QueryResult?)
    ensures EncodeServerResult(c, r).Some? ==>
              var frame := EncodeServerResult(c, r).value;
              DecodeServerResult(c, frame) ==
              if RepresentableResult(c, r) && Utf8Length(frame) <= MAX_FRAME_BYTES then Some(Canon(r)) else None
    ensures Canon(r) == r <==> Canonical(r)
  {
    if ServerResultWords(c, r).Some? {
      if r.Operation? {
        OperationFaithful(c, r);
      } else if r.error.Some? || r.value.None? {
        QueryAnswerFaithful(c, r);
      } else {
        QueryValueFaithful(c, r);
      }
      FrameRoundTrip(ServerResultWords(c, r).value);
    }
  }

  // ---- nesting ------------------------------------------------------------------------------------------

  /** An array in an array, `n` deep. */
  function Nested(n: nat): (v: Value)
    requires n > 0
    ensures v.Array?
  {
    if n == 1 then Array(End) else Array(Item(Nested(n - 1), End))
  }

  lemma {:induction false} NestedIsDeep(n: nat)
    requires n > 0
    ensures WellFormed(Nested(n)) && Depth(Nested(n)) == n && |Text(Nested(n))| == 2 * n
  {
    if n == 1 {
      assert ItemsText(End) == "" && WellFormedItems(End);
    } else {
      NestedIsDeep(n - 1);
      var items := Item(Nested(n - 1), End);
      assert ItemsText(items) == Text(Nested(n - 1)) && ItemsDepth(items) == n - 1 && WellFormedItems(items);
    }
  }

  lemma {:induction false} CharactersAreShort(s: string)
    ensures Utf8Length(s) <= 4 * |s|
  {
    if s != "" {
      CharactersAreShort(s[..|s| - 1]);
      assert CharBytes(s[|s| - 1]) <= 4;
    }
  }

  /** A value 127 deep is set; one more level, in a frame of a few hundred bytes, and the frame is
      encoded but not read back. */
  lemma DeepValueIsRejected()
    ensures var c := Set("n", "k", Nested(127), None);
            EncodeCommand(c).Some? && DecodeCommand(EncodeCommand(c).value) == Some(c)
    ensures var c := Set("n", "k", Nested(128), None);
            && ValidCommand(c) && EncodeCommand(c).Some? && Utf8Length(EncodeCommand(c).value) <= MAX_FRAME_BYTES
            && DecodeCommand(EncodeCommand(c).value) == None
  {
    NestedIsDeep(127);
    NestedIsDeep(128);
    SetFrameFits(Nested(127));
    SetFrameFits(Nested(128));
    CommandRoundTrip(Set("n", "k", Nested(127), None));
    CommandRoundTrip(Set("n", "k", Nested(128), None));
  }

  lemma SetFrameFits(v: Value)
    requires WellFormed(v) && |Text(v)| <= 256
    ensures var c := Set("n", "k", v, None);
            ValidCommand(c) && EncodeCommand(c).Some? && Utf8Length(EncodeCommand(c).value) <= MAX_FRAME_BYTES
    ensures Quotable("n") && Quotable("k")
  {
    var words := CommandWords(Set("n", "k", v, None));
    assert Identifier("n") == Bare("n") && Identifier("k") == Bare("k");
    assert words == [Bare("SET"), Bare("n"), Bare("k"), Literal(v)];
    FrameOfFour(words[0], words[1], words[2], words[3]);
    CharactersAreShort(Frame(words));
  }

  // ---- control characters -------------------------------------------------------------------------------

  /** A key with a backspace, in a frame of a few bytes, is encoded but not read back. */
  lemma ControlCharacterIsRejected()
    ensures var c := Set("n", [8 as char], Null, None);
            && ValidCommand(c) && EncodeCommand(c).Some? && Utf8Length(EncodeCommand(c).value) <= MAX_FRAME_BYTES
            && DecodeCommand(EncodeCommand(c).value) == None
  {
    var key := [8 as char];
    var c := Set("n", key, Null, None);
    assert IsControl(key[0]) && !Quotable(key);
    CommandRoundTrip(c);
    ControlFrameIsShort(key);
  }

  lemma ControlFrameIsShort(key: string)
    requires key == [8 as char]
    ensures Utf8Length(EncodeCommand(Set("n", key, Null, None)).value) <= MAX_FRAME_BYTES
  {
    var words := CommandWords(Set("n", key, Null, None));
    assert !IsPlain(key[0]) && Identifier(key) == Quoted(key) && Identifier("n") == Bare("n");
    assert EscapeAll(key) == Escape(key[0]) + "" && |Escape(key[0])| <= 6;
    assert words == [Bare("SET"), Bare("n"), Quoted(key), Literal(Null)];
    FrameOfFour(words[0], words[1], words[2], words[3]);
    CharactersAreShort(Frame(words));
  }

  lemma FrameOfFour(a: Word, b: Word, c: Word, d: Word)
    ensures |Frame([a, b, c, d])| == |Printed(a)| + |Printed(b)| + |Printed(c)| + |Printed(d)| + 3
  {
    assert [a, b, c, d][1..] == [b, c, d] && [b, c, d][1..] == [c, d] && [c, d][1..] == [d];
    assert Frame([c, d]) == Printed(c) + " " + Frame([d]);
    assert Frame([b, c, d]) == Printed(b) + " " + Frame([c, d]);
  }
}
