/** The token lists that the decoders accept: exactly those that spell a message. */
module FrameGrammar {
  import opened Wrappers
  import opened Decimal
  import opened Units
  import opened Utf8
  import opened Json
  import opened Scanner
  import opened LineProtocol

  // ---- parts ---------------------------------------------------------------------------------------

  predicate Keyword(t: seq<Token>, i: nat, word: string) { i < |t| && t[i].text == word && !t[i].quoted }

  predicate Name(t: seq<Token>, i: nat, name: string) { i < |t| && t[i].text == name && name != "" }

  /** Decimal digits of a 64-bit number, with an optional plus sign. */
  ghost predicate Numeral(text: string, n: nat) {
    n < U64 && exists digits ::
      digits != "" && AllDigits(digits) && Decimal.Value(digits) == n && (text == digits || text == "+" + digits)
  }

  ghost predicate NumberIn(t: seq<Token>, i: nat, n: nat) { i < |t| && Numeral(t[i].text, n) }

  predicate ValueIn(t: seq<Token>, i: nat, v: Value) {
    i < |t| && if t[i].quoted then v == Str(t[i].text) else ParseDocument(t[i].text) == Some(v)
  }

  /** Options in their order, each of them given or not, and nothing else up to the end. */
  ghost predicate Options(t: seq<Token>, i: nat, options: seq<(string, Option<nat>)>)
    decreases |options|
  {
    if options == [] then i == |t|
    else if options[0].1.None? then Options(t, i, options[1..])
    else Keyword(t, i, options[0].0) && NumberIn(t, i + 1, options[0].1.value) && Options(t, i + 2, options[1..])
  }

  /** Pairs of a key and a value. */
  predicate Pairs(t: seq<Token>, entries: seq<Entry>)
    decreases |entries|
  {
    if entries == [] then t == []
    else Name(t, 0, entries[0].key) && ValueIn(t, 1, entries[0].value) && Pairs(t[2..], entries[1..])
  }

  /** One or more pairs from `first` on, and a final `EX` with its number if there is a lifetime. A last
      pair whose key is an unquoted `EX` would be that option. */
  ghost predicate Entries(t: seq<Token>, first: nat, entries: seq<Entry>, ttl: Option<nat>) {
    && entries != []
    && if ttl.None? then first <= |t| && Pairs(t[first..], entries) && !Keyword(t, |t| - 2, "EX")
       else
         && first + 2 <= |t| && Pairs(t[first..|t| - 2], entries)
         && Keyword(t, |t| - 2, "EX") && NumberIn(t, |t| - 1, ttl.value)
  }

  predicate HexGroup(s: string, n: nat) { |s| == n && forall i | 0 <= i < n :: IsLowerHex(s[i]) }

  /** A UUID is written as five groups of lower-case digits. */
  lemma UuidGroups(a: string, b: string, c: string, d: string, e: string)
    requires HexGroup(a, 8) && HexGroup(b, 4) && HexGroup(c, 4) && HexGroup(d, 4) && HexGroup(e, 12)
    ensures IsUuid(a + "-" + b + "-" + c + "-" + d + "-" + e)
  {
  }

  lemma UuidHasGroups(s: string)
    requires IsUuid(s)
    ensures HexGroup(s[..8], 8) && HexGroup(s[9..13], 4) && HexGroup(s[14..18], 4) && HexGroup(s[19..23], 4)
            && HexGroup(s[24..], 12)
    ensures s == s[..8] + "-" + s[9..13] + "-" + s[14..18] + "-" + s[19..23] + "-" + s[24..]
  {
  }

  lemma NumeralIff(text: string, n: nat)
    ensures Numeral(text, n) <==> ParseU64(text) == Some(n)
  {
    if ParseU64(text) == Some(n) {
      var digits := if text != "" && text[0] == '+' then text[1..] else text;
      assert text == digits || text == "+" + digits;
    }
    if Numeral(text, n) {
      var digits :| digits != "" && AllDigits(digits) && Decimal.Value(digits) == n
                    && (text == digits || text == "+" + digits);
      if text == digits { assert IsDigit(digits[0]); } else { assert text[1..] == digits; }
    }
  }

  lemma NumberInIff(t: seq<Token>, i: nat, n: nat)
    ensures NumberIn(t, i, n) <==> NumberAt(t, i) == Some(n)
  {
    if i < |t| { NumeralIff(t[i].text, n); }
  }

  lemma NumbersIn(t: seq<Token>, i: nat)
    ensures forall n: nat :: NumberIn(t, i, n) <==> NumberAt(t, i) == Some(n)
  {
    forall n: nat ensures NumberIn(t, i, n) <==> NumberAt(t, i) == Some(n) { NumberInIff(t, i, n); }
  }

  lemma OptionIff(t: seq<Token>, i: nat, name: string, n: Option<nat>)
    requires |t| == i || |t| == i + 2
    ensures OptionAt(t, i, name) == Some(n) <==> Options(t, i, [(name, n)])
  {
    NumbersIn(t, i + 1);
    assert [(name, n)][1..] == [];
  }

  // ---- commands --------------------------------------------------------------------------------------

  ghost predicate SpellsCommand(t: seq<Token>, c: Command) {
    match c
    case Auth(apiKey, adapter) =>
      && Keyword(t, 0, "AUTH") && |t| == (if adapter.None? then 2 else 4) && t[1].text == apiKey
      && (adapter.Some? ==> Keyword(t, 2, "ADAPTER") && t[3].text == adapter.value && IsUuid(adapter.value))
    case Get(ns, key) => |t| == 3 && Keyword(t, 0, "GET") && Name(t, 1, ns) && Name(t, 2, key)
    case Set(ns, key, v, ttl) =>
      Keyword(t, 0, "SET") && Name(t, 1, ns) && Name(t, 2, key) && ValueIn(t, 3, v) && Options(t, 4, [("EX", ttl)])
    case SetBatch(ns, entries, ttl) => Keyword(t, 0, "SET_BATCH") && Name(t, 1, ns) && Entries(t, 2, entries, ttl)
    case Delete(ns, pattern) =>
      && Keyword(t, 0, "DELETE") && |t| == (if pattern.None? then 2 else 3) && Name(t, 1, ns)
      && (pattern.Some? ==> Name(t, 2, pattern.value))
    case Move(source, destination) =>
      |t| == 3 && Keyword(t, 0, "MOVE") && Name(t, 1, source) && Name(t, 2, destination)
    case Provide(ns, key, maxRate, timeout, missTtl) =>
      && Keyword(t, 0, "PROVIDE") && Name(t, 1, ns) && Name(t, 2, key) && Fits(maxRate, U32)
      && Options(t, 3, [("MAX_RATE", maxRate), ("TIMEOUT", timeout), ("MISS_TTL", missTtl)])
    case Store(ns, key) => |t| == 3 && Keyword(t, 0, "STORE") && Name(t, 1, ns) && Name(t, 2, key)
    case Ping => |t| == 1 && Keyword(t, 0, "PING")
    case Stats => |t| == 1 && Keyword(t, 0, "STATS")
  }

  lemma SetIff(t: seq<Token>, c: Command)
    requires Keyword(t, 0, "SET")
    ensures DecodeSet(t) == Some(c) <==> SpellsCommand(t, c)
  {
    if c.Set? {
      assert [("EX", c.ttl)] + [] == [("EX", c.ttl)];
      OptionsUnfold(t, 4, "EX", c.ttl, []);
      if |t| == 4 || |t| == 6 { OptionIff(t, 4, "EX", c.ttl); }
    }
  }

  lemma {:induction false} PairsIff(t: seq<Token>, i: nat, end: nat, entries: seq<Entry>)
    requires i <= end <= |t| && (end - i) % 2 == 0
    ensures EntriesAt(t, i, end) == Some(entries) <==> Pairs(t[i..end], entries)
    decreases end - i
  {
    if i < end {
      var u := t[i..end];
      assert u[0] == t[i] && u[1] == t[i + 1] && u[2..] == t[i + 2..end];
      if entries != [] {
        PairsIff(t, i + 2, end, entries[1..]);
        assert entries == [Entry(entries[0].key, entries[0].value)] + entries[1..];
      }
    }
  }

  lemma {:induction false} PairsAreEven(t: seq<Token>, entries: seq<Entry>)
    requires Pairs(t, entries)
    ensures |t| == 2 * |entries|
    decreases |entries|
  {
    if entries != [] { PairsAreEven(t[2..], entries[1..]); }
  }

  lemma EntriesIff(t: seq<Token>, first: nat, entries: seq<Entry>, ttl: Option<nat>)
    requires |t| >= 4 && first <= |t|
    ensures Batch(t, first) == Some((entries, ttl)) <==> Entries(t, first, entries, ttl)
  {
    var end := BatchEnd(t);
    if first <= end { PairsUpTo(t, first, end, entries); }
    LifetimeIff(t, end, ttl);
    assert t[first..] == t[first..|t|];
  }

  /** The pairs up to an end, if there is an even number of tokens. */
  lemma PairsUpTo(t: seq<Token>, first: nat, end: nat, entries: seq<Entry>)
    requires first <= end <= |t|
    ensures Pairs(t[first..end], entries)
            <==> (end - first) % 2 == 0 && EntriesAt(t, first, end) == Some(entries)
    ensures Pairs(t[first..end], entries) && entries != [] ==> first < end
  {
    if (end - first) % 2 == 0 { PairsIff(t, first, end, entries); }
    if Pairs(t[first..end], entries) { PairsAreEven(t[first..end], entries); }
  }

  lemma LifetimeIff(t: seq<Token>, end: nat, ttl: Option<nat>)
    requires |t| >= 4 && end == BatchEnd(t)
    ensures BatchTtl(t, end) == Some(ttl)
            <==> if Keyword(t, |t| - 2, "EX") then ttl.Some? && NumberIn(t, |t| - 1, ttl.value) else ttl.None?
    ensures end == if Keyword(t, |t| - 2, "EX") then |t| - 2 else |t|
  {
    NumbersIn(t, |t| - 1);
  }

  lemma BatchIff(t: seq<Token>, c: Command)
    requires Keyword(t, 0, "SET_BATCH")
    ensures DecodeSetBatch(t) == Some(c) <==> SpellsCommand(t, c)
  {
    if c.SetBatch? {
      if |t| >= 4 {
        EntriesIff(t, 2, c.entries, c.ttl);
      } else {
        ShortBatch(t, 2, c.entries, c.ttl);
      }
    }
  }

  lemma ShortBatch(t: seq<Token>, first: nat, entries: seq<Entry>, ttl: Option<nat>)
    requires |t| < first + 2
    ensures !Entries(t, first, entries, ttl)
  {
  }

  lemma OptionsUnfold(t: seq<Token>, i: nat, name: string, n: Option<nat>, more: seq<(string, Option<nat>)>)
    ensures Options(t, i, [(name, n)] + more)
            <==> if n.None? then Options(t, i, more)
                 else Keyword(t, i, name) && NumberIn(t, i + 1, n.value) && Options(t, i + 2, more)
  {
    assert ([(name, n)] + more)[1..] == more;
  }

  /** An option that is not given is not there. */
  lemma {:induction false} OtherOptions(t: seq<Token>, i: nat, name: string, options: seq<(string, Option<nat>)>)
    requires Options(t, i, options) && forall k | 0 <= k < |options| :: options[k].0 != name
    ensures !Keyword(t, i, name)
    decreases |options|
  {
    if options != [] && options[0].1.None? {
      assert forall k | 0 <= k < |options[1..]| :: options[1..][k] == options[k + 1];
      OtherOptions(t, i, name, options[1..]);
    }
  }

  /** One option and what follows it. */
  lemma NextOption(t: seq<Token>, i: nat, name: string, n: Option<nat>, bound: nat, more: seq<(string, Option<nat>)>)
    requires bound <= U64 && forall k | 0 <= k < |more| :: more[k].0 != name
    ensures var next := i + (if n.Some? then 2 else 0);
            Options(t, i, [(name, n)] + more) && Fits(n, bound)
            <==> NamedOption(t, i, name, bound) == Some((n, next)) && Options(t, next, more)
    ensures Options(t, i, [(name, n)] + more) ==> Fits(n, U64)
  {
    OptionsUnfold(t, i, name, n, more);
    NumbersIn(t, i + 1);
    if n.None? && Options(t, i, more) { OtherOptions(t, i, name, more); }
  }

  /** Two options at the end of a frame. */
  lemma LastOptions(t: seq<Token>, i: nat, second: string, b: Option<nat>, third: string, c: Option<nat>)
    requires second != third
    ensures var j := i + (if b.Some? then 2 else 0);
            Options(t, i, [(second, b), (third, c)])
            <==> NamedOption(t, i, second, U64) == Some((b, j)) && NamedOption(t, j, third, U64) == Some((c, |t|))
  {
    var j := i + (if b.Some? then 2 else 0);
    var last := [(third, c)];
    assert [(second, b)] + last == [(second, b), (third, c)] && last + [] == last;
    NextOption(t, i, second, b, U64, last);
    NextOption(t, j, third, c, U64, []);
  }

  lemma ThreeOptions(t: seq<Token>, first: string, a: Option<nat>, second: string, b: Option<nat>, third: string,
                     c: Option<nat>, i: nat, j: nat)
    requires first != second && first != third && second != third
    requires i == 3 + (if a.Some? then 2 else 0) && j == i + (if b.Some? then 2 else 0)
    ensures Options(t, 3, [(first, a), (second, b), (third, c)]) && Fits(a, U32)
            <==> && NamedOption(t, 3, first, U32) == Some((a, i))
                 && NamedOption(t, i, second, U64) == Some((b, j))
                 && NamedOption(t, j, third, U64) == Some((c, |t|))
  {
    var later := [(second, b), (third, c)];
    assert [(first, a)] + later == [(first, a), (second, b), (third, c)];
    NextOption(t, 3, first, a, U32, later);
    LastOptions(t, i, second, b, third, c);
  }

  lemma ProvideIff(t: seq<Token>, c: Command)
    requires Keyword(t, 0, "PROVIDE")
    ensures DecodeProvide(t) == Some(c) <==> SpellsCommand(t, c)
  {
    if c.Provide? && |t| >= 3 {
      var i := 3 + (if c.maxRate.Some? then 2 else 0);
      var j := i + (if c.timeout.Some? then 2 else 0);
      ThreeOptions(t, "MAX_RATE", c.maxRate, "TIMEOUT", c.timeout, "MISS_TTL", c.missTtl, i, j);
    }
  }

  /** The decoder accepts exactly the token lists that spell a command, and each as that command. */
  lemma CommandGrammar(t: seq<Token>, c: Command)
    requires t != []
    ensures CommandOf(t) == Some(c) <==> SpellsCommand(t, c)
  {
    if Keyword(t, 0, "SET") {
      SetIff(t, c);
    } else if Keyword(t, 0, "SET_BATCH") {
      BatchIff(t, c);
    } else if Keyword(t, 0, "PROVIDE") {
      ProvideIff(t, c);
    }
  }

  // ---- answers ---------------------------------------------------------------------------------------

  /** An answer of the matrix, in the context of its command. */
  ghost predicate SpellsAnswer(c: Command, t: seq<Token>, r: Response) {
    AnswerAllowed(c, r) &&
    match r
    case Ok => |t| == 1 && Keyword(t, 0, "OK")
    case Found(v, ttl) =>
      && Keyword(t, 0, "SET") && |t| >= 4 && t[1].text == c.namespace && t[2].text == c.key
      && ValueIn(t, 3, v) && Options(t, 4, [("EX", ttl)])
    case Miss(n) => |t| == 2 && Keyword(t, 0, "MISS") && NumberIn(t, 1, n)
    case AuthPending(n) => |t| == 2 && Keyword(t, 0, "MISS") && NumberIn(t, 1, n)
    case Unknown => |t| == 1 && Keyword(t, 0, "UNKNOWN")
    case AuthSuccess(client, ttl) =>
      |t| == 4 && Keyword(t, 0, "OK") && t[1].text == client && Keyword(t, 2, "TTL") && NumberIn(t, 3, ttl)
    case AuthFailure(message) => |t| == 2 && Keyword(t, 0, "KO") && t[1].text == message
    case Error(message) => |t| == 2 && Keyword(t, 0, "KO") && t[1].text == message
    case Pong => |t| == 1 && Keyword(t, 0, "PONG")
    case Counters(requests, hits, misses, values) =>
      && |t| == 9 && Keyword(t, 0, "STATS")
      && Keyword(t, 1, "REQUESTS") && NumberIn(t, 2, requests) && Keyword(t, 3, "HITS") && NumberIn(t, 4, hits)
      && Keyword(t, 5, "MISSES") && NumberIn(t, 6, misses) && Keyword(t, 7, "VALUES") && NumberIn(t, 8, values)
  }

  lemma FoundIff(c: Command, t: seq<Token>, r: Response)
    requires Keyword(t, 0, "SET")
    ensures DecodeFound(c, t) == Some(r) <==> SpellsAnswer(c, t, r)
  {
    if r.Found? {
      assert [("EX", r.ttl)] + [] == [("EX", r.ttl)];
      OptionsUnfold(t, 4, "EX", r.ttl, []);
      if |t| == 4 || |t| == 6 { OptionIff(t, 4, "EX", r.ttl); }
    }
  }

  lemma CountersIff(c: Command, t: seq<Token>, r: Response)
    requires Keyword(t, 0, "STATS") && c.Stats?
    ensures DecodeCounters(t) == Some(r) <==> SpellsAnswer(c, t, r)
  {
    NumbersIn(t, 2);
    NumbersIn(t, 4);
    NumbersIn(t, 6);
    NumbersIn(t, 8);
  }

  /** In the context of a command, the decoder accepts exactly the spellings of its allowed answers. */
  lemma AnswerGrammar(c: Command, t: seq<Token>, r: Response)
    requires t != []
    ensures ResponseOf(c, t) == Some(r) <==> SpellsAnswer(c, t, r)
  {
    if Keyword(t, 0, "SET") {
      FoundIff(c, t, r);
    } else if Keyword(t, 0, "STATS") && c.Stats? {
      CountersIff(c, t, r);
    } else if Keyword(t, 0, "MISS") {
      RetryIff(c, t, r);
    } else if Keyword(t, 0, "OK") && c.Auth? {
      LoginIff(c, t, r);
    } else {
      WordIff(c, t, r);
    }
  }

  lemma RetryIff(c: Command, t: seq<Token>, r: Response)
    requires Keyword(t, 0, "MISS")
    ensures ResponseOf(c, t) == Some(r) <==> SpellsAnswer(c, t, r)
  {
    NumbersIn(t, 1);
  }

  lemma LoginIff(c: Command, t: seq<Token>, r: Response)
    requires Keyword(t, 0, "OK") && c.Auth?
    ensures ResponseOf(c, t) == Some(r) <==> SpellsAnswer(c, t, r)
  {
    NumbersIn(t, 3);
  }

  /** Answers without numbers and values. */
  lemma WordIff(c: Command, t: seq<Token>, r: Response)
    requires t != [] && !Keyword(t, 0, "SET") && !Keyword(t, 0, "MISS")
    requires !(Keyword(t, 0, "STATS") && c.Stats?) && !(Keyword(t, 0, "OK") && c.Auth?)
    ensures ResponseOf(c, t) == Some(r) <==> SpellsAnswer(c, t, r)
  {
  }

  // ---- callbacks -------------------------------------------------------------------------------------

  ghost predicate SpellsCallback(t: seq<Token>, c: ServerCommand) {
    |t| >= 2 && t[1].text == c.id && IsUuid(c.id) &&
    match c
    case Query(_, ns, key) => |t| == 4 && Keyword(t, 0, "QUERY") && Name(t, 2, ns) && Name(t, 3, key)
    case PersistSet(_, ns, key, v, ttl) =>
      && Keyword(t, 0, "PERSIST_SET") && Name(t, 2, ns) && Name(t, 3, key) && ValueIn(t, 4, v)
      && Options(t, 5, [("EX", ttl)])
    case PersistSetBatch(_, ns, entries, ttl) =>
      Keyword(t, 0, "PERSIST_SET_BATCH") && Name(t, 2, ns) && Entries(t, 3, entries, ttl)
    case PersistDelete(_, ns, pattern) =>
      && Keyword(t, 0, "PERSIST_DELETE") && |t| == (if pattern.None? then 3 else 4) && Name(t, 2, ns)
      && (pattern.Some? ==> Name(t, 3, pattern.value))
    case PersistMove(_, source, destination) =>
      |t| == 4 && Keyword(t, 0, "PERSIST_MOVE") && Name(t, 2, source) && Name(t, 3, destination)
  }

  lemma PersistSetIff(t: seq<Token>, id: string, c: ServerCommand)
    requires Keyword(t, 0, "PERSIST_SET") && UuidAt(t, 1) == Some(id)
    ensures DecodePersistSet(id, t) == Some(c) <==> SpellsCallback(t, c)
  {
    if c.PersistSet? {
      assert [("EX", c.ttl)] + [] == [("EX", c.ttl)];
      OptionsUnfold(t, 5, "EX", c.ttl, []);
      if |t| == 5 || |t| == 7 { OptionIff(t, 5, "EX", c.ttl); }
    }
  }

  lemma PersistBatchIff(t: seq<Token>, id: string, c: ServerCommand)
    requires Keyword(t, 0, "PERSIST_SET_BATCH") && UuidAt(t, 1) == Some(id)
    ensures DecodePersistSetBatch(id, t) == Some(c) <==> SpellsCallback(t, c)
  {
    if c.PersistSetBatch? {
      if |t| >= 5 {
        EntriesIff(t, 3, c.entries, c.ttl);
      } else {
        ShortBatch(t, 3, c.entries, c.ttl);
      }
    }
  }

  lemma CallbackGrammar(t: seq<Token>, c: ServerCommand)
    requires t != []
    ensures ServerCommandOf(t) == Some(c) <==> SpellsCallback(t, c)
  {
    if UuidAt(t, 1).Some? {
      if Keyword(t, 0, "PERSIST_SET") {
        PersistSetIff(t, UuidAt(t, 1).value, c);
      } else if Keyword(t, 0, "PERSIST_SET_BATCH") {
        PersistBatchIff(t, UuidAt(t, 1).value, c);
      }
    }
  }

  // ---- results ---------------------------------------------------------------------------------------

  /** A result of the right kind for a callback, under its id. */
  ghost predicate SpellsResult(c: ServerCommand, t: seq<Token>, r: ServerResult) {
    |t| >= 3 && t[1].text == c.id && IsUuid(c.id) && r.id == c.id &&
    match r
    case Operation(_, error) =>
      && !c.Query? && Keyword(t, 0, "OPERATION")
      && if error.None? then |t| == 3 && Keyword(t, 2, "OK")
         else |t| == 4 && Keyword(t, 2, "KO") && t[3].text == error.value
    case QueryResult(_, v, error, ttl) =>
      && c.Query? && Keyword(t, 0, "QUERY_RESULT") && (v.None? ==> ttl.None?) && (v.None? || error.None?)
      && if error.Some? then |t| == 4 && Keyword(t, 2, "KO") && t[3].text == error.value
         else if v.None? then |t| == 3 && Keyword(t, 2, "MISS")
         else
           && Keyword(t, 2, "SET") && |t| >= 6 && t[3].text == c.namespace && t[4].text == c.key
           && ValueIn(t, 5, v.value) && Options(t, 6, [("EX", ttl)])
  }

  lemma QueryResultIff(c: ServerCommand, t: seq<Token>, r: ServerResult)
    requires c.Query? && t != [] && UuidAt(t, 1) == Some(c.id)
    ensures DecodeQueryResult(c, t) == Some(r) <==> SpellsResult(c, t, r)
  {
    if r.QueryResult? {
      assert [("EX", r.ttl)] + [] == [("EX", r.ttl)];
      OptionsUnfold(t, 6, "EX", r.ttl, []);
      if |t| == 6 || |t| == 8 { OptionIff(t, 6, "EX", r.ttl); }
    }
  }

  lemma ResultGrammar(c: ServerCommand, t: seq<Token>, r: ServerResult)
    requires t != []
    ensures ServerResultOf(c, t) == Some(r) <==> SpellsResult(c, t, r)
  {
    if c.Query? && UuidAt(t, 1) == Some(c.id) { QueryResultIff(c, t, r); }
  }

  // ---- whole frames ----------------------------------------------------------------------------------

  lemma {:induction false} LengthLast(s: string, c: char)
    ensures |Encoded(s + [c])| == |Encoded(s)| + |Bytes(c)|
  {
    EncodedConcat(s, [c]);
    assert [c][1..] == "" && Encoded([c]) == Bytes(c) + Encoded("") == Bytes(c);
  }

  /** The length of a frame is that of its UTF-8 bytes. */
  lemma {:induction false} LengthIsBytes(s: string)
    ensures Utf8Length(s) == |Encoded(s)|
  {
    if s != "" {
      var init, last := s[..|s| - 1], s[|s| - 1];
      LengthIsBytes(init);
      LengthLast(init, last);
      assert s == init + [last];
    }
  }

  /** A frame of one line and at most 1 MiB. */
  predicate IsFrame(s: string) { s != "" && '\r' !in s && '\n' !in s && |Encoded(s)| <= 1024 * 1024 }

  /** Every decoder takes a frame exactly when it is one line of at most 1 MiB whose tokens, at least one,
      spell a message of its kind. */
  lemma FramesSpellMessages(frame: string, c: Command, d: Command, r: Response, e: ServerCommand, x: ServerCommand,
                          y: ServerResult)
    ensures var t := ScanAll(frame);
            var tokens := if t.Some? then t.value else [];
            var read := IsFrame(frame) && tokens != [];
            && (DecodeCommand(frame) == Some(c) <==> read && SpellsCommand(tokens, c))
            && (DecodeResponse(d, frame) == Some(r) <==> read && SpellsAnswer(d, tokens, r))
            && (DecodeServerCommand(frame) == Some(e) <==> read && SpellsCallback(tokens, e))
            && (DecodeServerResult(x, frame) == Some(y) <==> read && SpellsResult(x, tokens, y))
  {
    GateIff(frame);
    if Tokens(frame).Some? {
      var tokens := Tokens(frame).value;
      CommandGrammar(tokens, c);
      AnswerGrammar(d, tokens, r);
      CallbackGrammar(tokens, e);
      ResultGrammar(x, tokens, y);
    }
  }

  lemma GateIff(frame: string)
    ensures Tokens(frame).Some? <==> IsFrame(frame) && ScanAll(frame).Some? && ScanAll(frame).value != []
    ensures Tokens(frame).Some? ==> Tokens(frame) == ScanAll(frame)
  {
    LengthIsBytes(frame);
  }
}
