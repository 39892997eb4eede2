/** Line protocol v1: commands, answers, callbacks and callback results as frames. */
module LineProtocol {
  import opened Wrappers
  import opened Decimal
  import opened Units
  import opened Json
  import opened Scanner
  import opened Words

  // ---- messages ----------------------------------------------------------------------------

  datatype Entry = Entry(key: string, value: Value)

  datatype Command =
    | Auth(apiKey: string, adapter: Option<string>)
    | Get(namespace: string, key: string)
    | Set(namespace: string, key: string, value: Value, ttl: Option<nat>)
    | SetBatch(namespace: string, entries: seq<Entry>, ttl: Option<nat>)
    | Delete(namespace: string, pattern: Option<string>)
    | Move(source: string, destination: string)
    | Provide(namespacePattern: string, keyPattern: string, maxRate: Option<nat>, timeout: Option<nat>,
              missTtl: Option<nat>)
    | Store(namespacePattern: string, keyPattern: string)
    | Ping
    | Stats

  datatype Response =
    | Ok
    | Found(value: Value, ttl: Option<nat>)
    | Miss(retryAfterMs: nat)
    | Unknown
    | AuthSuccess(clientId: string, sessionTtl: nat)
    | AuthPending(retryAfterMs: nat)
    | AuthFailure(message: string)
    | Pong
    | Counters(requests: nat, hits: nat, misses: nat, values: nat)
    | Error(message: string)

  datatype ServerCommand =
    | Query(id: string, namespace: string, key: string)
    | PersistSet(id: string, namespace: string, key: string, value: Value, ttl: Option<nat>)
    | PersistSetBatch(id: string, namespace: string, entries: seq<Entry>, ttl: Option<nat>)
    | PersistDelete(id: string, namespace: string, pattern: Option<string>)
    | PersistMove(id: string, source: string, destination: string)

  datatype ServerResult =
    | Operation(id: string, error: Option<string>)
    | QueryResult(id: string, value: Option<Value>, error: Option<string>, ttl: Option<nat>)

  // ---- what the message types allow --------------------------------------------------------


  predicate IsLowerHex(c: char) { '0' <= c <= '9' || 'a' <= c <= 'f' }

  /** The canonical lower-case text of a UUID. */
  predicate IsUuid(s: string) {
    && |s| == 36
    && forall i | 0 <= i < 36 ::
         if i == 8 || i == 13 || i == 18 || i == 23 then s[i] == '-' else IsLowerHex(s[i])
  }

  predicate Fits(n: Option<nat>, bound: nat) { n.Some? ==> n.value < bound }

  predicate ValidEntries(entries: seq<Entry>) {
    forall i | 0 <= i < |entries| :: entries[i].key != "" && WellFormed(entries[i].value)
  }

  /** Namespaces, keys and patterns are non-empty and numbers fit their types. */
  predicate ValidCommand(c: Command) {
    match c
    case Auth(_, adapter) => adapter.Some? ==> IsUuid(adapter.value)
    case Get(ns, key) => ns != "" && key != ""
    case Set(ns, key, v, ttl) => ns != "" && key != "" && WellFormed(v) && Fits(ttl, U64)
    case SetBatch(ns, entries, ttl) => ns != "" && ValidEntries(entries) && Fits(ttl, U64)
    case Delete(ns, pattern) => ns != "" && pattern != Some("")
    case Move(source, destination) => source != "" && destination != ""
    case Provide(ns, key, maxRate, timeout, missTtl) =>
      ns != "" && key != "" && Fits(maxRate, U32) && Fits(timeout, U64) && Fits(missTtl, U64)
    case Store(ns, key) => ns != "" && key != ""
    case Ping => true
    case Stats => true
  }

  predicate ValidResponse(r: Response) {
    match r
    case Found(v, ttl) => WellFormed(v) && Fits(ttl, U64)
    case Miss(n) => n < U64
    case AuthSuccess(_, ttl) => ttl < U64
    case AuthPending(n) => n < U64
    case Counters(a, b, c, d) => a < U64 && b < U64 && c < U64 && d < U64
    case _ => true
  }

  predicate ValidServerCommand(c: ServerCommand) {
    IsUuid(c.id) &&
    match c
    case Query(_, ns, key) => ns != "" && key != ""
    case PersistSet(_, ns, key, v, ttl) => ns != "" && key != "" && WellFormed(v) && Fits(ttl, U64)
    case PersistSetBatch(_, ns, entries, ttl) => ns != "" && ValidEntries(entries) && Fits(ttl, U64)
    case PersistDelete(_, ns, pattern) => ns != "" && pattern != Some("")
    case PersistMove(_, source, destination) => source != "" && destination != ""
  }

  predicate ValidServerResult(r: ServerResult) {
    match r
    case Operation(_, _) => true
    case QueryResult(_, v, _, ttl) => (v.Some? ==> WellFormed(v.value)) && Fits(ttl, U64)
  }

  // ---- encoding -------------------------------------------------------------------------------

  function Num(n: nat): Word { Bare(Print(n)) }

  function OptionWords(name: string, n: Option<nat>): seq<Word> {
    if n.None? then [] else [Bare(name), Num(n.value)]
  }

  /** A batch key `EX` is quoted so that it cannot be taken for the TTL option. */
  function BatchKey(key: string): Word { if key == "EX" then Quoted(key) else Identifier(key) }

  function EntryWords(entries: seq<Entry>): (words: seq<Word>)
    ensures |words| == 2 * |entries|
  {
    if entries == [] then []
    else [BatchKey(entries[0].key), Literal(entries[0].value)] + EntryWords(entries[1..])
  }

  function PatternWords(pattern: Option<string>): seq<Word> {
    if pattern.None? then [] else [Identifier(pattern.value)]
  }

  function CommandWords(c: Command): seq<Word> {
    match c
    case Auth(key, adapter) =>
      [Bare("AUTH"), Identifier(key)] + if adapter.None? then [] else [Bare("ADAPTER"), Bare(adapter.value)]
    case Get(ns, key) => [Bare("GET"), Identifier(ns), Identifier(key)]
    case Set(ns, key, v, ttl) => [Bare("SET"), Identifier(ns), Identifier(key), Literal(v)] + OptionWords("EX", ttl)
    case SetBatch(ns, entries, ttl) =>
      [Bare("SET_BATCH"), Identifier(ns)] + EntryWords(entries) + OptionWords("EX", ttl)
    case Delete(ns, pattern) => [Bare("DELETE"), Identifier(ns)] + PatternWords(pattern)
    case Move(source, destination) => [Bare("MOVE"), Identifier(source), Identifier(destination)]
    case Provide(ns, key, maxRate, timeout, missTtl) =>
      [Bare("PROVIDE"), Identifier(ns), Identifier(key)] + OptionWords("MAX_RATE", maxRate)
      + OptionWords("TIMEOUT", timeout) + OptionWords("MISS_TTL", missTtl)
    case Store(ns, key) => [Bare("STORE"), Identifier(ns), Identifier(key)]
    case Ping => [Bare("PING")]
    case Stats => [Bare("STATS")]
  }

  function EncodeCommand(c: Command): Option<string> {
    if c.SetBatch? && c.entries == [] then None else Some(Frame(CommandWords(c)))
  }

  predicate IsMutation(c: Command) {
    c.Set? || c.SetBatch? || c.Delete? || c.Move? || c.Provide? || c.Store?
  }

  /** The answer matrix. */
  predicate AnswerAllowed(c: Command, r: Response) {
    || (c.Auth? && (r.AuthSuccess? || r.AuthPending? || r.AuthFailure?))
    || (c.Get? && (r.Found? || r.Miss? || r.Unknown? || r.Error?))
    || (IsMutation(c) && (r.Ok? || r.Error?))
    || (c.Ping? && (r.Pong? || r.Error?))
    || (c.Stats? && (r.Counters? || r.Error?))
  }

  function ResponseWords(c: Command, r: Response): seq<Word>
    requires AnswerAllowed(c, r)
  {
    match r
    case Ok => [Bare("OK")]
    case Found(v, ttl) => [Bare("SET"), Identifier(c.namespace), Identifier(c.key), Literal(v)] + OptionWords("EX", ttl)
    case Miss(n) => [Bare("MISS"), Num(n)]
    case AuthPending(n) => [Bare("MISS"), Num(n)]
    case Unknown => [Bare("UNKNOWN")]
    case AuthSuccess(client, ttl) => [Bare("OK"), Identifier(client), Bare("TTL"), Num(ttl)]
    case AuthFailure(message) => [Bare("KO"), Identifier(message)]
    case Error(message) => [Bare("KO"), Identifier(message)]
    case Pong => [Bare("PONG")]
    case Counters(requests, hits, misses, values) =>
      [Bare("STATS"), Bare("REQUESTS"), Num(requests), Bare("HITS"), Num(hits),
       Bare("MISSES"), Num(misses), Bare("VALUES"), Num(values)]
  }

  function EncodeResponse(c: Command, r: Response): Option<string> {
    if AnswerAllowed(c, r) then Some(Frame(ResponseWords(c, r))) else None
  }

  function ServerCommandWords(c: ServerCommand): seq<Word> {
    match c
    case Query(id, ns, key) => [Bare("QUERY"), Bare(id), Identifier(ns), Identifier(key)]
    case PersistSet(id, ns, key, v, ttl) =>
      [Bare("PERSIST_SET"), Bare(id), Identifier(ns), Identifier(key), Literal(v)] + OptionWords("EX", ttl)
    case PersistSetBatch(id, ns, entries, ttl) =>
      [Bare("PERSIST_SET_BATCH"), Bare(id), Identifier(ns)] + EntryWords(entries) + OptionWords("EX", ttl)
    case PersistDelete(id, ns, pattern) => [Bare("PERSIST_DELETE"), Bare(id), Identifier(ns)] + PatternWords(pattern)
    case PersistMove(id, source, destination) =>
      [Bare("PERSIST_MOVE"), Bare(id), Identifier(source), Identifier(destination)]
  }

  function EncodeServerCommand(c: ServerCommand): string { Frame(ServerCommandWords(c)) }

  function ServerResultWords(c: ServerCommand, r: ServerResult): Option<seq<Word>> {
    if r.id != c.id || c.Query? != r.QueryResult? then None
    else
      match r
      case Operation(id, error) =>
        Some([Bare("OPERATION"), Bare(id)]
             + if error.None? then [Bare("OK")] else [Bare("KO"), Identifier(error.value)])
      case QueryResult(id, v, error, ttl) =>
        if error.Some? then Some([Bare("QUERY_RESULT"), Bare(id), Bare("KO"), Identifier(error.value)])
        else if v.Some? then
          Some([Bare("QUERY_RESULT"), Bare(id), Bare("SET"), Identifier(c.namespace), Identifier(c.key),
                Literal(v.value)]
               + OptionWords("EX", ttl))
        else Some([Bare("QUERY_RESULT"), Bare(id), Bare("MISS")])
  }

  function EncodeServerResult(c: ServerCommand, r: ServerResult): Option<string> {
    var words := ServerResultWords(c, r);
    if words.None? then None else Some(Frame(words.value))
  }

  // ---- decoding --------------------------------------------------------------------------------

  /** `u64::from_str`: decimal digits with an optional plus sign. */
  function ParseU64(s: string): Option<nat> {
    var digits := if s != "" && s[0] == '+' then s[1..] else s;
    if digits == "" || !AllDigits(digits) then None
    else if Decimal.Value(digits) >= U64 then None
    else Some(Decimal.Value(digits))
  }

  function NumberAt(t: seq<Token>, i: nat): Option<nat> {
    if i < |t| then ParseU64(t[i].text) else None
  }

  function UuidAt(t: seq<Token>, i: nat): Option<string> {
    if i < |t| && IsUuid(t[i].text) then Some(t[i].text) else None
  }

  function NameAt(t: seq<Token>, i: nat): Option<string> {
    if i < |t| && t[i].text != "" then Some(t[i].text) else None
  }

  predicate IsUnquoted(t: seq<Token>, i: nat, word: string) { i < |t| && t[i] == Token(word, false) }

  function ValueOf(t: Token): Option<Value> {
    if t.quoted then Some(Str(t.text)) else ParseDocument(t.text)
  }

  /** An option `name <number>` at the end of a frame; the outer `None` is a malformed one. */
  function OptionAt(t: seq<Token>, i: nat, name: string): Option<Option<nat>> {
    if i == |t| then Some(None)
    else if !IsUnquoted(t, i, name) then None
    else
      var n := NumberAt(t, i + 1);
      if n.None? then None else Some(n)
  }

  /** Key/value pairs in `t[i..end]`. */
  function EntriesAt(t: seq<Token>, i: nat, end: nat): Option<seq<Entry>>
    requires i <= end <= |t| && (end - i) % 2 == 0
    decreases end - i
  {
    if i == end then Some([])
    else
      match (NameAt(t, i), ValueOf(t[i + 1]), EntriesAt(t, i + 2, end))
      case (Some(key), Some(v), Some(entries)) => Some([Entry(key, v)] + entries)
      case _ => None
  }

  /** Where the entries of a batch end: before a final unquoted `EX <seconds>`. */
  function BatchEnd(t: seq<Token>): (end: nat)
    requires |t| >= 4
    ensures end <= |t|
  {
    if IsUnquoted(t, |t| - 2, "EX") then |t| - 2 else |t|
  }

  function BatchTtl(t: seq<Token>, end: nat): Option<Option<nat>>
    requires |t| >= 4
  {
    if end == |t| then Some(None)
    else
      var n := NumberAt(t, |t| - 1);
      if n.None? then None else Some(n)
  }

  function Batch(t: seq<Token>, first: nat): Option<(seq<Entry>, Option<nat>)>
    requires |t| >= 4
  {
    var end := BatchEnd(t);
    if end <= first || (end - first) % 2 != 0 then None
    else
      match (EntriesAt(t, first, end), BatchTtl(t, end))
      case (Some(entries), Some(ttl)) => Some((entries, ttl))
      case _ => None
  }

  function NamedOption(t: seq<Token>, i: nat, name: string, bound: nat): Option<(Option<nat>, nat)> {
    if !IsUnquoted(t, i, name) then Some((None, i))
    else
      var n := NumberAt(t, i + 1);
      if n.None? || n.value >= bound then None else Some((n, i + 2))
  }

  function DecodeProvide(t: seq<Token>): Option<Command> {
    if |t| < 3 then None
    else
      match NamedOption(t, 3, "MAX_RATE", U32)
      case None => None
      case Some((maxRate, i)) =>
        match NamedOption(t, i, "TIMEOUT", U64)
        case None => None
        case Some((timeout, j)) =>
          match NamedOption(t, j, "MISS_TTL", U64)
          case None => None
          case Some((missTtl, k)) =>
            if k != |t| || t[1].text == "" || t[2].text == "" then None
            else Some(Provide(t[1].text, t[2].text, maxRate, timeout, missTtl))
  }

  function DecodeSet(t: seq<Token>): Option<Command> {
    if |t| != 4 && |t| != 6 then None
    else
      match (OptionAt(t, 4, "EX"), NameAt(t, 1), NameAt(t, 2), ValueOf(t[3]))
      case (Some(ttl), Some(ns), Some(key), Some(v)) => Some(Set(ns, key, v, ttl))
      case _ => None
  }

  function DecodeSetBatch(t: seq<Token>): Option<Command> {
    if |t| < 4 then None
    else
      match (Batch(t, 2), NameAt(t, 1))
      case (Some((entries, ttl)), Some(ns)) => Some(SetBatch(ns, entries, ttl))
      case _ => None
  }

  function DecodeDelete(t: seq<Token>): Option<Command> {
    if |t| == 2 && t[1].text != "" then Some(Delete(t[1].text, None))
    else if |t| == 3 && t[1].text != "" && t[2].text != "" then Some(Delete(t[1].text, Some(t[2].text)))
    else None
  }

  function DecodeAuth(t: seq<Token>): Option<Command> {
    if |t| == 2 then Some(Auth(t[1].text, None))
    else if |t| == 4 && IsUnquoted(t, 2, "ADAPTER") && IsUuid(t[3].text) then Some(Auth(t[1].text, Some(t[3].text)))
    else None
  }

  predicate TwoNames(t: seq<Token>) { |t| == 3 && t[1].text != "" && t[2].text != "" }

  function CommandOf(t: seq<Token>): Option<Command>
    requires t != []
  {
    var word := t[0].text;
    if t[0].quoted then None
    else if word == "AUTH" then DecodeAuth(t)
    else if word == "GET" then (if TwoNames(t) then Some(Get(t[1].text, t[2].text)) else None)
    else if word == "SET" then DecodeSet(t)
    else if word == "SET_BATCH" then DecodeSetBatch(t)
    else if word == "DELETE" then DecodeDelete(t)
    else if word == "MOVE" then (if TwoNames(t) then Some(Move(t[1].text, t[2].text)) else None)
    else if word == "PROVIDE" then DecodeProvide(t)
    else if word == "STORE" then (if TwoNames(t) then Some(Store(t[1].text, t[2].text)) else None)
    else if word == "PING" then (if |t| == 1 then Some(Ping) else None)
    else if word == "STATS" then (if |t| == 1 then Some(Stats) else None)
    else None
  }

  function DecodeCommand(frame: string): Option<Command> {
    match Tokens(frame)
    case None => None
    case Some(t) => CommandOf(t)
  }

  function DecodeFound(c: Command, t: seq<Token>): Option<Response> {
    if |t| != 4 && |t| != 6 then None
    else if !c.Get? || t[1].text != c.namespace || t[2].text != c.key then None
    else
      match (ValueOf(t[3]), OptionAt(t, 4, "EX"))
      case (Some(v), Some(ttl)) => Some(Found(v, ttl))
      case _ => None
  }

  function DecodeCounters(t: seq<Token>): Option<Response> {
    if |t| != 9 || !IsUnquoted(t, 1, "REQUESTS") || !IsUnquoted(t, 3, "HITS")
       || !IsUnquoted(t, 5, "MISSES") || !IsUnquoted(t, 7, "VALUES") then None
    else
      match (NumberAt(t, 2), NumberAt(t, 4), NumberAt(t, 6), NumberAt(t, 8))
      case (Some(a), Some(b), Some(c), Some(d)) => Some(Counters(a, b, c, d))
      case _ => None
  }

  /** The same keyword stands for different answers in different contexts. */
  function ResponseOf(c: Command, t: seq<Token>): Option<Response>
    requires t != []
  {
    var word := t[0].text;
    if t[0].quoted then None
    else if word == "OK" && c.Auth? then
      (if |t| != 4 || !IsUnquoted(t, 2, "TTL") || NumberAt(t, 3).None? then None
       else Some(AuthSuccess(t[1].text, NumberAt(t, 3).value)))
    else if word == "OK" && IsMutation(c) then (if |t| == 1 then Some(Response.Ok) else None)
    else if word == "SET" then DecodeFound(c, t)
    else if word == "MISS" then
      (if |t| != 2 || NumberAt(t, 1).None? then None
       else if c.Auth? then Some(AuthPending(NumberAt(t, 1).value))
       else if c.Get? then Some(Miss(NumberAt(t, 1).value))
       else None)
    else if word == "UNKNOWN" then (if |t| == 1 && c.Get? then Some(Unknown) else None)
    else if word == "PONG" then (if |t| == 1 && c.Ping? then Some(Pong) else None)
    else if word == "STATS" then (if c.Stats? then DecodeCounters(t) else None)
    else if word == "KO" then
      (if |t| != 2 then None else if c.Auth? then Some(AuthFailure(t[1].text)) else Some(Error(t[1].text)))
    else None
  }

  function DecodeResponse(c: Command, frame: string): Option<Response> {
    match Tokens(frame)
    case None => None
    case Some(t) => ResponseOf(c, t)
  }

  function DecodePersistSet(id: string, t: seq<Token>): Option<ServerCommand> {
    if |t| != 5 && |t| != 7 then None
    else
      match (NameAt(t, 2), NameAt(t, 3), ValueOf(t[4]), OptionAt(t, 5, "EX"))
      case (Some(ns), Some(key), Some(v), Some(ttl)) => Some(PersistSet(id, ns, key, v, ttl))
      case _ => None
  }

  function DecodePersistSetBatch(id: string, t: seq<Token>): Option<ServerCommand> {
    if |t| < 5 then None
    else
      match (NameAt(t, 2), Batch(t, 3))
      case (Some(ns), Some((entries, ttl))) => Some(PersistSetBatch(id, ns, entries, ttl))
      case _ => None
  }

  function DecodePersistDelete(id: string, t: seq<Token>): Option<ServerCommand> {
    if |t| == 3 && t[2].text != "" then Some(PersistDelete(id, t[2].text, None))
    else if |t| == 4 && t[2].text != "" && t[3].text != "" then Some(PersistDelete(id, t[2].text, Some(t[3].text)))
    else None
  }

  function ServerCommandOf(t: seq<Token>): Option<ServerCommand>
    requires t != []
  {
    var word := t[0].text;
    if t[0].quoted then None
    else
      match UuidAt(t, 1)
      case None => None
      case Some(id) =>
        if word == "QUERY" then
          (if |t| == 4 && t[2].text != "" && t[3].text != "" then Some(Query(id, t[2].text, t[3].text)) else None)
        else if word == "PERSIST_SET" then DecodePersistSet(id, t)
        else if word == "PERSIST_SET_BATCH" then DecodePersistSetBatch(id, t)
        else if word == "PERSIST_DELETE" then DecodePersistDelete(id, t)
        else if word == "PERSIST_MOVE" then
          (if |t| == 4 && t[2].text != "" && t[3].text != "" then Some(PersistMove(id, t[2].text, t[3].text)) else None)
        else None
  }

  function DecodeServerCommand(frame: string): Option<ServerCommand> {
    match Tokens(frame)
    case None => None
    case Some(t) => ServerCommandOf(t)
  }

  function DecodeQueryResult(c: ServerCommand, t: seq<Token>): Option<ServerResult>
    requires c.Query? && t != []
  {
    if !IsUnquoted(t, 0, "QUERY_RESULT") then None
    else if IsUnquoted(t, 2, "MISS") then (if |t| == 3 then Some(QueryResult(c.id, None, None, None)) else None)
    else if IsUnquoted(t, 2, "KO") then
      (if |t| == 4 then Some(QueryResult(c.id, None, Some(t[3].text), None)) else None)
    else if IsUnquoted(t, 2, "SET") then
      (if (|t| != 6 && |t| != 8) || t[3].text != c.namespace || t[4].text != c.key then None
       else
         match (ValueOf(t[5]), OptionAt(t, 6, "EX"))
         case (Some(v), Some(ttl)) => Some(QueryResult(c.id, Some(v), None, ttl))
         case _ => None)
    else None
  }

  function DecodeOperation(c: ServerCommand, t: seq<Token>): Option<ServerResult>
    requires t != []
  {
    if !IsUnquoted(t, 0, "OPERATION") then None
    else if IsUnquoted(t, 2, "OK") then (if |t| == 3 then Some(Operation(c.id, None)) else None)
    else if IsUnquoted(t, 2, "KO") then (if |t| == 4 then Some(Operation(c.id, Some(t[3].text))) else None)
    else None
  }

  function ServerResultOf(c: ServerCommand, t: seq<Token>): Option<ServerResult>
    requires t != []
  {
    if t[0].quoted || UuidAt(t, 1) != Some(c.id) then None
    else if c.Query? then DecodeQueryResult(c, t)
    else DecodeOperation(c, t)
  }

  function DecodeServerResult(c: ServerCommand, frame: string): Option<ServerResult> {
    match Tokens(frame)
    case None => None
    case Some(t) => ServerResultOf(c, t)
  }
}
