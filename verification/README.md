# Valkyr verification model

Valkyr is a memory-first key/value broker: clients read and write a cache over a line
protocol, provider connections answer cache misses, and storage adapters persist
mutations before the cache changes. This project models the parts of it whose
correctness spans several functions, and proves what they guarantee over every input
and every interleaving.

| files | what they model |
|---|---|
| `RefreshProtocol`, `RefreshInvariants`, `RefreshFlight`, `RefreshGenerations`, `RefreshTheorems`, `RefreshConverse`, `RefreshLiveness`, `RefreshTermination`, `RefreshOutcomes`, `RefreshRaces`, `RefreshTables` | provider refresh, negative cache and mutation generations of the broker and the server, as one step relation over any number of tasks |
| `Mutations`, `MutationRouting`, `CacheContents`, `CallbackProtocol`, `CallbackInvariants`, `CallbackSteps`, `CallbackTheorems`, `CallbackTermination`, `CallbackOutcomes`, `CallbackStrangers`, `CallbackTables` | callback correlation, connection teardown, routing of mutations to adapters, write-through ordering and what the cache holds |
| `ContextIndex`, `IndexLoops`, `PercentPaths`, `SecretPaths` | the OpenBao adapter's compare-and-set context index and its percent-encoded paths |
| `Decimal`, `Json`, `JsonRoundTrip`, `JsonDocuments`, `JsonGrammar`, `Scanner`, `Words`, `LineProtocol`, `LineRoundTrip`, `FrameGrammar`, `WrittenFrames` | line protocol version 1: scanner, printer, parser, and the grammars that the decoders accept |
| `Patterns`, `GoPatterns`, `GoBytes`, `GoAgreement`, `Utf8`, `Registry` | route patterns, the Go SDK's memoised matcher, overlap routing |
| `Permissions`, `AuthSessions` | authorization records and the session state machine |
| `KeyResolution`, `Durations`, `RateWindow` | `${name}` keys, durations with units, the fixed-window limiter |
| `Wrappers`, `Text`, `Routes`, `Units`, `Hex`, `Sums` | shared types, widths, digits and sums |

The two protocols and the index are state machines. A step is one critical section of the
source (the work under one lock, one atomic load, or one request to a server), a run is
any sequence of enabled steps, and every theorem about them is an induction over runs.
Objects that the source mutates are also classes (`RefreshTables`, `CallbackTables`,
`IndexLoops`, `Scanner.FrameScanner`, `Registry.StoreTable`, `AuthSessions.AuthManager`,
`RateWindow.ProviderLimits`, `GoPatterns.Matcher`); their methods are tied to the functions
that the machines and the lemmas use.

Some promises are false of the code as it stands. They are stated with a concrete
counterexample and with a condition under which they hold:

- **Late releases.** `finish_outcome` looks the in-flight refresh up under its lock and
  releases a mismatched joiner's id after it, in a second critical section. The release is
  late if by then the id is active and is that of the route's in-flight refresh, and that
  refresh can still insert its marker: it is confirming a miss, its generation is current,
  and it holds the gate or nobody does. After a quiet run, a step makes it possible for a
  recorded mutation to be defeated by an earlier miss if and only if it is a late release
  (`DefeatableIffLate`); runs without one keep the guarantee
  (`RecordedMutationShutsOutEarlierMisses`), and runs in which every mismatched release
  directly follows its lookup have none (`PromptRunsAreQuiet`). `LateReleaseDefeatsSet` and
  `LateReleaseDefeatsDelete` are concrete runs. Single flight, terminal completions and the
  release of route states need no such condition.
- **Exact Set on an inactive route.** It leaves an existing miss marker in place
  (`InactiveSetKeepsMarker`); in every run, recording a Set touches a marker only if it found
  its route active, and then that route's alone (`SetTouchesMarkerOnlyIfFound`).
- **Fractional durations.** The length of a fraction is cast to 32 bits. Accepted decimals
  are exact if and only if the fraction has fewer than 2^32 digits or is zero
  (`ExactIff`); `LongFractionIsMisread` gives an input.
- **Overlap of captures.** The overlap test is exact on keys (`OverlapIsMatchOnKeys`) and between
  prefix patterns (`PrefixOverlapIsExact`). Against a deletion prefix it never sees an overlap
  that is not there, and it misses one if and only if the registered pattern has a wildcard or
  capture, its leading text ends within the prefix, its own text does not start with the prefix,
  and it does not match the prefix followed by a star (`OverlapMissesIff`).
  `CaptureOverlapIsMissed` is an instance.
- **Captures in the Go SDK.** The Go matcher accepts whatever the server accepts
  (`ServerMatchHoldsInGo`). The server asks that all pieces of a value be valid UTF-8
  (`ServerMatchIffValidSplit`), the Go matcher only that those of wildcards be
  (`GoMatchIffSplit`), so that captures can share the bytes of one character
  (`GoSplitsCharacters`). The two give the same verdict on every value if and only if the
  pattern has no two captures with nothing but wildcards between them
  (`AgreeIffCapturesApart`).
- **Deep values.** Values are read by a JSON parser with a recursion limit of 128. A value that
  nests 128 arrays or objects is encoded but not read back (`DeepValueIsRejected`); the round
  trips have the limit in their exact conditions.
- **Quoted text.** The scanner accepts only five escapes inside quoted words, so identifiers,
  messages and top-level string values with other control characters are encoded but not
  read back (`ControlCharacterIsRejected`). The round trips say so too: decoding gives the
  message back exactly when it is representable and its frame fits, and nothing otherwise.
- **Who acknowledges.** The server does not check that the answer to a store request comes from
  the adapter it was sent to. If only that adapter answers the request, it is the one that
  acknowledged (`ChosenAdapterAcknowledged`); `StrangerAcknowledges` is a run in which another
  connection does, and the mutation is applied.

Two results are sharper than one might expect: a half-open second admits at most
`2 * limit - 1` requests, and that is reached; context paths stay apart even for collection
names that contain slashes.

## Model

| member | source | states |
|---|---|---|
| `RefreshTheorems.RecordedMutationShutsOutEarlierMisses` | valkyr-core/src/broker.rs:512-650 | In every interleaving without a late release, once a Delete, a Move, or a Set that found its route active has been recorded, no dispatch admitted before it has a miss marker or can get one later; after any other Set, no such dispatch gets a new one |
| `RefreshTheorems.NeverMarked` | valkyr-core/src/broker.rs:512-570 | A dispatch that has been shut out in a safe state is never marked in any continuation without a late release |
| `RefreshTheorems.InvRun` | valkyr-server/src/lib.rs:632-869 | Every interleaving keeps the joint broker and server invariant: gates, flights, claims on route states |
| `RefreshTheorems.SafeRun` | valkyr-core/src/broker.rs:512-650 | Every quiet interleaving keeps the relation between generations, anchors, markers and recorded mutations |
| `RefreshTheorems.RemembersRun` | valkyr-server/src/lib.rs:848-869 | Recorded mutations, admitted dispatches and terminal completions are never lost or changed |
| `RefreshTheorems.OneQueryPerRoute` | valkyr-server/src/lib.rs:632-697 | At most one cache-miss query per route is outstanding, and it belongs to the route's in-flight refresh; joiners start none |
| `RefreshTheorems.OneTerminalCompletion` | valkyr-server/src/lib.rs:754-869 | A refresh that has left the table has sent exactly one terminal completion, which never changes; one without is still being run |
| `RefreshOutcomes.PublishedIsTold` | valkyr-server/src/lib.rs:658-846 | In every run a refresh publishes a value exactly when its task was told of an accepted one, a miss exactly when the provider had none, a failure exactly when there was no usable answer, and the rate limiter's own hint exactly when it was limited |
| `RefreshOutcomes.PublishedValueIsRecorded` | valkyr-server/src/lib.rs:764-805 | A value is published only after the commit of it has recorded the mutation of its route |
| `RefreshOutcomes.MarkerNeedsAbsence` | valkyr-core/src/broker.rs:512-570 | A refresh inserts a miss marker only if the provider's miss was to be confirmed and its store read found no value |
| `RefreshOutcomes.OutdatedCheckEnds` | valkyr-core/src/broker.rs:526-532 | A confirmation that comes to its first check with an outdated generation never reads the store, takes the gate or inserts a marker, in any continuation |
| `RefreshOutcomes.RecordingKeepsUncovered` | valkyr-core/src/broker.rs:589-630 | In every run, recording a mutation leaves the markers and generations of all routes alone that its scope does not cover |
| `RefreshTheorems.CompletionRemovesOwnEntry` | valkyr-server/src/lib.rs:848-869 | A completion removes its own entry, which is there, after its one send, and no other |
| `RefreshTheorems.ActiveStatesAreHeld` | valkyr-core/src/broker.rs:632-697 | Each active route state is held by an unfinished GET outcome or by the route's in-flight refresh |
| `RefreshTheorems.QuiescentBrokerHoldsNoRoutes` | valkyr-core/src/broker.rs:632-697 | With no GET outcome and no refresh outstanding, the route map and the in-flight table are empty |
| `RefreshTheorems.ImmediateReleaseIsNotLate` | valkyr-server/src/lib.rs:634-657 | A mismatched joiner that releases at once is not late, whatever the state |
| `RefreshConverse.DefeatableIffLate` | valkyr-server/src/lib.rs:652-658 | After any run without a late release, a step opens a continuation in which a recorded mutation is defeated if and only if it is a late release |
| `RefreshConverse.LateReleaseIsDefeatable` | valkyr-server/src/lib.rs:652-658 | In every reachable state with a late release, the release, a GET, a Set that finds the new route state and is recorded, and the refresh going on leave a marker of a dispatch admitted before the Set |
| `RefreshConverse.SafeIsNotDefeatable` | valkyr-core/src/broker.rs:512-650 | From a safe state no quiet continuation defeats a recorded mutation |
| `RefreshTheorems.SetTouchesMarkerOnlyIfFound` | valkyr-core/src/broker.rs:589-602 | In every run, each step of recording a Set leaves all markers as they are, or the Set found its route active and that route's marker goes |
| `RefreshTheorems.PromptRunsAreQuiet` | valkyr-server/src/lib.rs:634-657 | Runs in which each mismatched release directly follows its lookup have no late release, so the guarantees above hold for them without a further condition |
| `RefreshLiveness.NoDeadlock` | valkyr-core/src/broker.rs:542-602 | In every reachable state with an unfinished task some task can move: gates never deadlock |
| `RefreshTermination.EveryRefreshCompletes` | valkyr-server/src/lib.rs:754-869 | From every reachable state a run without new arrivals takes at most as many steps as the state's rank; when no step is left, every task is done, every refresh has sent exactly one terminal completion, and both tables are empty |
| `RefreshTermination.RunsEnd` | valkyr-core/src/broker.rs:512-630 | Every step of a started task, in any order, lowers the rank: scans, gates, commits and confirmations cannot go on for ever |
| `RefreshRaces.LateReleaseDefeatsSet` | valkyr-server/src/lib.rs:652-658 | A reachable run in which a Set that found its route active is recorded and an earlier dispatch is marked |
| `RefreshRaces.LateReleaseDefeatsDelete` | valkyr-server/src/lib.rs:652-658 | The same for a Delete of the whole namespace |
| `RefreshRaces.InactiveSetKeepsMarker` | valkyr-core/src/broker.rs:589-602 | A reachable run in which a recorded Set that found no active state leaves an earlier marker |
| `RefreshTables.RouteStates.GetOrCreate` | valkyr-core/src/broker.rs:677-697 | An active route keeps its id, an inactive one gets the new id |
| `RefreshTables.RouteStates.ReleaseProviderRefresh` | valkyr-core/src/broker.rs:632-650 | Removes the route only under this id, and nothing else |
| `RefreshTables.RouteStates.ActiveRoutesInNamespace` | valkyr-core/src/broker.rs:713-731 | The walk over all shards finds exactly the active routes of the namespace |
| `RefreshTables.InflightRefreshes.JoinOrCreate` | valkyr-server/src/lib.rs:634-651 | Joins the refresh in flight or becomes it |
| `RefreshTables.InflightRefreshes.RemoveIfCurrent` | valkyr-server/src/lib.rs:858-869 | Never removes another refresh's entry |
| `RefreshGenerations.MarkedBefore` | valkyr-core/src/miss_cache.rs:85-122 | A dispatch has a marker after a step only if it had one that the step did not invalidate, or the step inserted it |
| `RefreshGenerations.MarkIsLive` | valkyr-core/src/broker.rs:542-560 | Under `AnchorsOk` and `InsertsOk`, which runs without a late release keep, a marker is inserted only for a dispatch whose route state is active under its generation |
| `RefreshTables.MissCache.InvalidateScope` | valkyr-core/src/miss_cache.rs:103-122 | Exactly the covered markers go |
| `CallbackSteps.InvStep` | valkyr-server/src/lib.rs:922-1036 | Every step of invocation, completion, registration, removal and teardown keeps the correlation and write-through invariant |
| `CallbackSteps.InvRun` | valkyr-server/src/lib.rs:922-1036 | So does every interleaving |
| `CallbackTheorems.PendingIsAccounted` | valkyr-server/src/lib.rs:978-1036 | Each pending result belongs to an unfinished request, and its id is in its owner's pending set, being purged, or being registered under the owner's mutex |
| `CallbackTheorems.RemovedOwnerStaysEmpty` | valkyr-server/src/lib.rs:1025-1036 | After `remove_connection` has returned, no result of that owner exists in any continuation |
| `CallbackTheorems.AtMostOneDelivery` | valkyr-server/src/lib.rs:978-994 | No request id delivers two results |
| `CallbackTheorems.NothingLeaks` | valkyr-server/src/lib.rs:922-1036 | When all requests have finished, no table holds an id |
| `CallbackTheorems.CommitsAreAcknowledged` | valkyr-server/src/lib.rs:737-751 | A mutation that no adapter sent is applied only if no store matched at its preparation, or an adapter was chosen and some connection acknowledged that same request before; and it is applied once |
| `CallbackTheorems.ChosenAdapterAcknowledged` | valkyr-server/src/lib.rs:978-994 | If only the connection that this request was sent to answered it, which the server does not check, it is the chosen adapter that acknowledged |
| `CallbackStrangers.StrangerAcknowledges` | valkyr-server/src/lib.rs:978-994 | A reachable run in which a mutation meant for one adapter is applied although only a connection that was not asked acknowledged it |
| `CallbackTheorems.SetIsWrittenThrough` | valkyr-core/src/broker.rs:1238-1297 | A Set of a literal key that a registration covers is applied only after it was acknowledged, and, if only its owner answered the request, by the newest such registration |
| `CallbackTheorems.ConcernedIsWrittenThrough` | valkyr-core/src/broker.rs:1185-1297 | Any Set, batch, Delete or Move that concerns a registration is applied only after it was acknowledged, and, if only its owner answered the request, by the newest such registration |
| `CallbackTheorems.PartlyConcernedIsRefused` | valkyr-core/src/broker.rs:1194-1233 | A batch that concerns registrations only in part is never applied |
| `MutationRouting.RoutedToNewest` | valkyr-core/src/broker.rs:1185-1297 | A mutation goes to the newest registration that it concerns: whose namespace pattern covers the namespace, and along whose key pattern the key splits, or which shares a key that the overlap test sees with a deleted prefix; a Delete without pattern and a Move concern every key. Without one it is applied at once, or refused if it is a batch that concerns one in part |
| `CallbackOutcomes.AppliedIffCleared` | valkyr-server/src/lib.rs:737-751 | In every run, a mutation that has ended was applied exactly when no adapter had to be asked or its task received a yes; only a move may then still fail |
| `CallbackTheorems.FailedNeverApplies` | valkyr-server/src/lib.rs:737-751 | A request that failed by error, timeout, closed connection or mixed batch never changes the cache |
| `CallbackTheorems.CacheIsReplay` | valkyr-core/src/broker.rs:416-475 | The cache is at all times exactly what the logged commits and expiries make of an empty one, in order |
| `CallbackTheorems.ReachableCacheIsReplay` | valkyr-core/src/broker.rs:416-475 | The same from the initial state |
| `CacheContents.CacheHoldsLastWrite` | valkyr-core/src/broker.rs:416-475 | In every reachable state a route holds the last value written to it by a Set or batch, or carried to it by a move, that was not deleted, moved away or expired since |
| `CacheContents.SetHolds` | valkyr-core/src/memory.rs:170-188 | After a Set its route holds the value and every other route is unchanged |
| `CacheContents.BatchHolds` | valkyr-core/src/memory.rs:189-206 | After a batch each route of the namespace holds its last value in the batch, and every other route is unchanged |
| `CacheContents.DeleteHolds` | valkyr-core/src/memory.rs:207-236 | A Delete takes exactly the entries of its namespace: all of them without a pattern, else the key that is named or the keys that continue the text before the star |
| `CacheContents.MoveHolds` | valkyr-core/src/memory.rs:252-286 | After a move that succeeds, the destination holds what the source held, the source nothing, and every other route what it did |
| `CallbackTermination.EveryRequestFinishes` | valkyr-server/src/lib.rs:922-1036 | From every reachable state a run without new requests, frames or closings takes boundedly many steps; when no step is left, every request has finished, every closing has ended and no result is pending |
| `CallbackTables.Correlator.RegisterPendingResult` | valkyr-server/src/lib.rs:996-1018 | Refused exactly on a closed handle; otherwise both tables gain the id |
| `CallbackTables.Correlator.CompleteResult` | valkyr-server/src/lib.rs:978-994 | Delivers exactly what was pending and removes the id from every table |
| `CallbackTables.Correlator.RemovePendingResult` | valkyr-server/src/lib.rs:1020-1023 | Removes the id from both tables |
| `CallbackTables.Correlator.RemoveConnection` | valkyr-server/src/lib.rs:1025-1036 | Removes the owner with all its results and nobody else's |
| `Mutations.BatchKeepsLastValue` | valkyr-core/src/memory.rs:189-206 | After a batch a route has the last value given for it, and other routes are unchanged |
| `Mutations.MoveConserves` | valkyr-core/src/memory.rs:252-286 | A move fails exactly on a destination in use; otherwise it carries every entry over, leaves none behind and touches no other |
| `ContextIndex.InvRun` | valkyr-openbao-adapter/src/bridge.rs:532-636 | Every interleaving of ensure and move attempts keeps the index invariant; versions never go back, and one version stands for one document |
| `ContextIndex.NoSharedCollections` | valkyr-openbao-adapter/src/bridge.rs:532-636 | No two contexts ever share a collection id |
| `ContextIndex.StepEdits` | valkyr-openbao-adapter/src/bridge.rs:546-572 | A write that passes the compare-and-set is a correct edit of the map in place, although it was computed from an earlier read |
| `ContextIndex.IdsAreConserved` | valkyr-openbao-adapter/src/bridge.rs:604-636 | Over every run the ids in use are those at the start and those that ensures added; moves lose and invent nothing |
| `ContextIndex.EditConserves` | valkyr-openbao-adapter/src/bridge.rs:604-636 | A move keeps the set of ids and the number of contexts |
| `ContextIndex.IdChangesOnlyByMove` | valkyr-openbao-adapter/src/bridge.rs:532-636 | A context keeps its id for as long as no move of it succeeds |
| `ContextIndex.EnsuresAgree` | valkyr-openbao-adapter/src/bridge.rs:532-576 | All ensures of a context that finish while it stays in place return its id |
| `ContextIndex.EnsureTakesEffect` | valkyr-openbao-adapter/src/bridge.rs:532-576 | An ensure that reports success leaves its id at its context |
| `ContextIndex.ConflictMeansProgress` | valkyr-openbao-adapter/src/bridge.rs:546-576 | Giving up after eight conflicts means that eight other writes succeeded meanwhile |
| `IndexLoops.SharedIndex.EnsurePath` | valkyr-openbao-adapter/src/bridge.rs:532-576 | The retry loop, with other adapters' writes before each of its own, returns the id in place, a malformed document, or a conflict after eight other writes |
| `IndexLoops.SharedIndex.MoveContext` | valkyr-openbao-adapter/src/bridge.rs:604-636 | The retry loop: success replaces a document with a free destination by the same with the source's collection at the destination; what the other outcomes say about source and destination |
| `PercentPaths.Decode` | valkyr-openbao-adapter/src/mapping.rs:176-209 | The loop computes the decoded bytes, or the error of a broken escape or of invalid UTF-8 |
| `PercentPaths.DecodeInvertsEncode` | valkyr-openbao-adapter/src/mapping.rs:158-209 | Decoding gives every string back |
| `PercentPaths.EncodeIsPathSafe` | valkyr-openbao-adapter/src/mapping.rs:158-174 | An encoded segment has no slash and is never a relative segment |
| `PercentPaths.EncodeIsInjective` | valkyr-openbao-adapter/src/mapping.rs:158-174 | Distinct strings have distinct encodings |
| `PercentPaths.EncodeOfByte` | valkyr-openbao-adapter/src/mapping.rs:158-174 | Exactly letters, digits and `-._~` stand for themselves, and every other byte is two hexadecimal digits of its code |
| `PercentPaths.EncodeConcat` | valkyr-openbao-adapter/src/mapping.rs:158-174 | Encoding goes byte by byte |
| `PercentPaths.PlainPaths` | valkyr-openbao-adapter/src/mapping.rs:43-150 | Where plain names are found: under `values` and `root` or the collection of their context, with the index under `indexes` |
| `Utf8.ValidIffEncoded` | valkyr-openbao-adapter/src/mapping.rs:197-209 | The byte strings that are accepted as UTF-8 are exactly the encodings of texts |
| `PercentPaths.RoutesDoNotCollide` | valkyr-openbao-adapter/src/mapping.rs:108-150 | Distinct routes never share a path, for any collection texts that contexts of one base do not share |
| `PercentPaths.AuthIsApart` | valkyr-openbao-adapter/src/mapping.rs:49-76 | No other route has the path of an auth record |
| `PercentPaths.IndexIsApart` | valkyr-openbao-adapter/src/mapping.rs:43-48 | No value path is an index path |
| `PercentPaths.IndexPathsDiffer` | valkyr-openbao-adapter/src/mapping.rs:43-45 | Distinct bases have distinct index paths |
| `PercentPaths.NsAndCtxDetermine` | valkyr-core/src/route.rs:18-46 | Base and context determine the namespace |
| `PercentPaths.ContextFollowsFirstColons` | valkyr-core/src/route.rs:18-46 | A namespace is cut at its first `::` if there is text on both sides, and is all base otherwise |
| `PercentPaths.NoColonsNoContext` | valkyr-core/src/route.rs:18-46 | A namespace without `::` has no context |
| `SecretPaths.IndexedRoutesDoNotCollide` | valkyr-openbao-adapter/src/bridge.rs:577-603 | After any interleaving of adapters, two routes of a base that the index places never share a path |
| `Scanner.FrameScanner.NextToken` | valkyr-core/src/line_protocol.rs:38-135 | The scanner's loops compute the token function: blanks, quoted words, bracketed values, bare words |
| `Scanner.FrameScanner.All` | valkyr-core/src/line_protocol.rs:137-146 | The loop over tokens computes the token list or rejects the frame |
| `Scanner.FrameScanner.FindClosingBracket` | valkyr-core/src/line_protocol.rs:76-122 | The loop over the bracket stack ends exactly behind the closing bracket |
| `Words.StructuredToken` | valkyr-core/src/line_protocol.rs:76-122 | The scanner consumes exactly one rendered array or object, whatever follows, or rejects it exactly when it nests 128 deep or deeper |
| `Words.ValueBrackets` | valkyr-core/src/line_protocol.rs:76-122 | Inside an open bracket the scanner passes over exactly one rendered value |
| `Words.QuotedToken` | valkyr-core/src/line_protocol.rs:52-75 | A quoted word is read back, or rejected, by whether its escapes are accepted |
| `Words.FrameRoundTrip` | valkyr-core/src/line_protocol.rs:149-152 | A frame of printed words is one line and is read back word by word exactly when every word is readable and it fits |
| `JsonRoundTrip.DocumentParses` | valkyr-core/src/line_protocol.rs:207-216 | Parsing gives a rendered JSON value back exactly when it nests less than 128 deep |
| `JsonDocuments.NormalizeKeepsLast` | valkyr-core/src/line_protocol.rs:207-212 | Object members in any order are put in order, and each name has the value of its last occurrence |
| `JsonDocuments.WrittenDocumentParses` | valkyr-core/src/line_protocol.rs:207-212 | A JSON text in anybody's spelling, with any white space, escapes and order of members, is read as what it means exactly when it nests less than 128 deep |
| `JsonGrammar.DocumentGrammar` | valkyr-core/src/line_protocol.rs:207-212 | And nothing else is read: a text is accepted as a value if and only if it is such a document that means it |
| `LineRoundTrip.CommandRoundTrip` | valkyr-core/src/line_protocol.rs:279-526 | Decoding an encoded command gives it back exactly when it is representable (quotable texts, values less than 128 deep) and fits; batch keys may be `EX` |
| `LineRoundTrip.AnswerRoundTrip` | valkyr-core/src/line_protocol.rs:528-674 | Exactly the answers that the matrix allows are encoded, and decoding in the same context inverts encoding although keywords are shared |
| `LineRoundTrip.CallbackRoundTrip` | valkyr-core/src/line_protocol.rs:676-829 | The same for server commands with non-empty batches |
| `LineRoundTrip.ResultRoundTrip` | valkyr-core/src/line_protocol.rs:831-964 | Only results of the right kind and id are encoded, and a result comes back as its canonical form |
| `LineRoundTrip.BatchDecodes` | valkyr-core/src/line_protocol.rs:244-250 | A batch of readable values is read back, and its end is found although a key may be called `EX` |
| `LineRoundTrip.DeepValueIsRejected` | valkyr-core/src/line_protocol.rs:207-216 | A Set of an array 127 deep comes back; one 128 deep, in a frame that fits, is encoded and rejected |
| `LineRoundTrip.ControlCharacterIsRejected` | valkyr-core/src/line_protocol.rs:52-75 | A Set whose key is a backspace, in a frame that fits, is encoded and rejected |
| `WrittenFrames.WrittenToken` | valkyr-core/src/line_protocol.rs:76-122 | The scanner takes an array or object in anybody's spelling as one token, whatever follows, or rejects it exactly when it nests 128 deep or deeper |
| `WrittenFrames.WrittenSetDecodes` | valkyr-core/src/line_protocol.rs:412-424 | A Set frame with such a value is decoded as a Set of what the value means |
| `FrameGrammar.CommandGrammar` | valkyr-core/src/line_protocol.rs:389-526 | The decoder accepts a token list as a command if and only if it spells that command |
| `FrameGrammar.AnswerGrammar` | valkyr-core/src/line_protocol.rs:570-674 | The same for the answers that the matrix allows, in the context of a command |
| `FrameGrammar.CallbackGrammar` | valkyr-core/src/line_protocol.rs:750-829 | The same for server commands |
| `FrameGrammar.ResultGrammar` | valkyr-core/src/line_protocol.rs:886-964 | The same for results of the right kind and id |
| `FrameGrammar.FramesSpellMessages` | valkyr-core/src/line_protocol.rs:28-37 | Every decoder takes a frame exactly when it is one line of at most 1 MiB of UTF-8 whose tokens spell a message of its kind |
| `FrameGrammar.UuidGroups` | valkyr-core/src/line_protocol.rs:183-192 | Five groups of lower-case hexadecimal digits with dashes between them are the text of a UUID |
| `FrameGrammar.UuidHasGroups` | valkyr-core/src/line_protocol.rs:183-192 | And no other text is |
| `Patterns.Tokenize` | valkyr-core/src/pattern.rs:57-94 | The tokenizer's loop computes the token list |
| `Patterns.TokensSpellPattern` | valkyr-core/src/pattern.rs:57-94 | The tokens spell the pattern: literals without stars, and without braces unless they start with one; stars; captures with a name, and nothing lost |
| `Patterns.CaptureIsRead` | valkyr-core/src/pattern.rs:57-94 | A name in braces, with or without a dollar sign before it, is a capture of that name, and a star is a wildcard |
| `Patterns.TextIsRead` | valkyr-core/src/pattern.rs:57-94 | Text before a wildcard or capture is one literal; a dollar sign before an opening brace belongs to the capture |
| `Patterns.MatchesIffSplits` | valkyr-core/src/pattern.rs:96-117 | A pattern matches exactly the values that split into equal literals, any wildcard pieces and non-empty captures |
| `Patterns.MatchIsPreferredSplit` | valkyr-core/src/pattern.rs:96-117 | The captures are those of one such split, the one with longest wildcards and shortest captures from the left |
| `Patterns.MatchIsComplete` | valkyr-core/src/pattern.rs:96-117 | Every value that splits is matched |
| `GoPatterns.GoTokenize` | valkyr-go/pattern.go:10-41 | The Go tokenizer computes the same token list |
| `GoPatterns.MatchPattern` | valkyr-go/pattern.go:42-83 | The memoised matcher decides what the plain recursion decides |
| `GoPatterns.Matcher.F` | valkyr-go/pattern.go:46-82 | The memoised closure: right at every position, and every answer it remembers is right |
| `GoBytes.TokensInBytes` | valkyr-go/pattern.go:10-41 | Cutting the bytes of any pattern gives the bytes of its tokens |
| `GoPatterns.GoMatchIffSplit` | valkyr-go/pattern.go:42-83 | The Go matcher accepts exactly the bytes that split along the tokens with valid UTF-8 for wildcards |
| `GoPatterns.ServerMatchHoldsInGo` | valkyr-go/pattern.go:42-84 | For every value, in any script, the Go matcher accepts what the server accepts |
| `GoPatterns.ServerMatchIffValidSplit` | valkyr-core/src/pattern.rs:96-117 | The server accepts a value exactly when its bytes split along the tokens into valid UTF-8 pieces |
| `GoPatterns.GoSplitsCharacters` | valkyr-go/pattern.go:70-77 | Two captures accept one two-byte character in Go and not on the server |
| `GoPatterns.GoAgreesOnAscii` | valkyr-go/pattern.go:42-84 | On ASCII values the Go matcher and the server's give the same verdict |
| `GoAgreement.AgreeIffCapturesApart` | valkyr-go/pattern.go:43-85 | The Go matcher and the server's give the same verdict on every value if and only if the pattern has no two captures with nothing but wildcards between them |
| `Registry.StoreTable.StoreFor` | valkyr-core/src/registry.rs:134-152 | The reverse search returns the newest overlapping registration |
| `Registry.StoreTable.StoreForBatch` | valkyr-core/src/registry.rs:157-188 | The batch search returns one store, none or mixed |
| `Registry.NewRegistrationWins` | valkyr-core/src/registry.rs:78-97 | A new registration takes over exactly the requests it overlaps, and the others keep their store |
| `Registry.RemovalUndoesRegistration` | valkyr-core/src/registry.rs:98-107 | Removing an owner undoes its registration |
| `Registry.StoreTable.RemoveOwner` | valkyr-core/src/registry.rs:98-107 | Exactly the owner's registrations go |
| `Registry.OverlapIsMatchOnKeys` | valkyr-core/src/registry.rs:219-231 | On keys without pattern characters the six-way test holds exactly when the pattern matches |
| `Registry.NewestMatchingStoreWins` | valkyr-core/src/registry.rs:134-152 | On such a key the store found is the newest that truly matches, and none is found only if none matches |
| `Registry.BatchGoesToOneStore` | valkyr-core/src/registry.rs:157-188 | A batch of such keys goes to the newest registration that matches all of them |
| `Registry.MixedBatchHasAMatch` | valkyr-core/src/registry.rs:157-188 | Otherwise it is mixed exactly when some registration matches one of them |
| `Registry.PrefixOverlapIsExact` | valkyr-core/src/registry.rs:219-231 | Between prefix patterns the test holds exactly when a common key exists |
| `Registry.CommonKeyIff` | valkyr-core/src/registry.rs:219-231 | A registered pattern and a deletion prefix have a key in common exactly when the pattern's leading text and the prefix do not part, or a pattern that is all text starts with the prefix |
| `Registry.OverlapMissesIff` | valkyr-core/src/registry.rs:219-231 | Against a literal deletion prefix the test sees no overlap that is not there, and misses one exactly under the stated condition on the pattern and the prefix |
| `Registry.CaptureOverlapIsMissed` | valkyr-core/src/registry.rs:219-231 | A capture pattern and a deletion prefix with a common key that the test does not see |
| `Registry.PlainNamespaceCoversItsContexts` | valkyr-core/src/registry.rs:212-218 | A namespace pattern without wildcard or capture covers itself and its contexts |
| `Registry.NamespaceCoverIff` | valkyr-core/src/registry.rs:212-218 | A namespace pattern with a wildcard or capture covers exactly the namespaces that split along its tokens; any other covers itself and its contexts |
| `Permissions.IntoInfoMeaning` | valkyr-core/src/security.rs:99-185 | Conversion succeeds exactly on valid records, and its roles allow exactly the operations and namespaces that the record names |
| `Permissions.PlainPermissionCovers` | valkyr-core/src/security.rs:502-510 | A plain permission covers its namespace, those below it and its contexts, and no mere textual prefix |
| `Permissions.StarPermissionCovers` | valkyr-core/src/security.rs:502-505 | A permission with a trailing star covers exactly the namespaces that start with the text before it |
| `Permissions.MatchesIffReaches` | valkyr-core/src/security.rs:502-510 | The matcher accepts exactly the namespaces that a permission names, in either form |
| `Permissions.RefusalMeaning` | valkyr-core/src/security.rs:99-129 | A record that opens no session fails as disabled exactly when it is otherwise complete, and is invalid in all other cases |
| `AuthSessions.AuthorizedOnlyByLatestLoad` | valkyr-core/src/security.rs:285-473 | Over every run, on any clock, a non-bootstrap key is authorized only if its latest load event brought a valid, enabled record less than the timeout ago that grants the operation |
| `AuthSessions.AuthorizedIffLatestLoad` | valkyr-core/src/security.rs:285-473 | And if the clock has not gone back, exactly then |
| `AuthSessions.OneLoadPerIncarnation` | valkyr-core/src/security.rs:327-353 | Each incarnation of a cache entry hands out at most one store load and one provider load |
| `AuthSessions.NewEntryGrantsLoads` | valkyr-core/src/security.rs:285-353 | An entry that an authentication starts grants a load of each kind, in any run, until that load is taken or the entry is replaced |
| `AuthSessions.HalfwaySessionIsScheduled` | valkyr-core/src/security.rs:285-326 | An authentication makes a refresh of a live session due exactly when half its timeout has passed since its load |
| `AuthSessions.AuthManager.Authenticate` | valkyr-core/src/security.rs:285-326 | The lookup's answer and the entry it starts or schedules |
| `AuthSessions.AuthManager.TakeStoreLoad` | valkyr-core/src/security.rs:327-336 | Granted exactly to a loading entry whose store load is not taken |
| `AuthSessions.AuthManager.TakeScheduledLoad` | valkyr-core/src/security.rs:337-353 | Granted exactly to a loading entry not dispatched or a scheduled one not loading |
| `AuthSessions.AuthManager.ScheduleRefresh` | valkyr-core/src/security.rs:354-371 | Granted exactly to a live session that is neither scheduled nor loading |
| `AuthSessions.AuthManager.CompleteLoad` | valkyr-core/src/security.rs:388-426 | A valid record opens a session; a failed refresh ends it; a failed first load is remembered |
| `AuthSessions.AuthManager.FailProviderLoad` | valkyr-core/src/security.rs:427-439 | The same as a load that brought nothing |
| `AuthSessions.AuthManager.Authorize` | valkyr-core/src/security.rs:440-469 | Accepts the bootstrap admin, or a live session whose roles allow the operation |
| `AuthSessions.DisconnectEndsSession` | valkyr-core/src/security.rs:470-473 | After a disconnect no run authorizes the key again until a load of it completes |
| `KeyResolution.ResolveKey` | valkyr-core/src/broker.rs:1387-1426 | The in-place loop terminates and, whatever the store replies at each place, equals one left-to-right pass over the key as given, so that substituted text is never expanded again |
| `KeyResolution.PlaceIsSubstituted` | valkyr-core/src/broker.rs:1395-1421 | The first place becomes the request's own variable, or else what the store replies; without a name or a value it stays as written, and a failing store fails the key |
| `KeyResolution.SegmentsSpellKey` | valkyr-core/src/broker.rs:1387-1426 | The pass loses nothing: its segments spell the key |
| `KeyResolution.PlacesAreLeftmost` | valkyr-core/src/broker.rs:1395-1400 | A place starts at the first `${` and ends at the next brace, and text without a place has no closed one |
| `Durations.ParseInvertsFormat` | valkyr-core/src/duration.rs:44-127 | Parsing gives every printed duration back |
| `Durations.ExactIff` | valkyr-core/src/duration.rs:76-106 | An accepted decimal has its exact value if and only if its fraction has fewer than 2^32 digits or is zero |
| `Durations.AcceptedIff` | valkyr-core/src/duration.rs:76-106 | For such lengths, parsing gives a duration exactly when the decimal is that whole number of nanoseconds and the fraction does not overflow 128 bits |
| `Durations.LongFractionIsMisread` | valkyr-core/src/duration.rs:85-88 | A text with 2^32 fractional digits that is read as one second |
| `Durations.ReadDecimal` | valkyr-core/src/duration.rs:44-75 | A decimal and a unit are read as they are written |
| `Durations.OnlyDecimalsAreRead` | valkyr-core/src/duration.rs:44-75 | Nothing but digits, at most one dot and the name of a unit is read |
| `Durations.UnitLengths` | valkyr-core/src/duration.rs:66-74 | The length of each unit, and that there are no others |
| `Durations.BlanksAreIgnored` | valkyr-core/src/duration.rs:45 | White space around a duration does not matter |
| `Durations.FormatUsesLargestUnit` | valkyr-core/src/duration.rs:108-127 | A duration is printed as a whole number of the largest unit that divides it |
| `Durations.WireIff` | valkyr-core/src/duration.rs:137-143 | Conversion succeeds exactly on whole counts in range, and is then exact |
| `RateWindow.ProviderLimits.RetryAfter` | valkyr-core/src/broker.rs:1363-1386 | Admits within the limit, else hints at what is left of the window; other providers are untouched |
| `RateWindow.AtMostLimitPerWindow` | valkyr-core/src/broker.rs:1363-1386 | A window admits as many requests as it counts, never more than the limit |
| `RateWindow.LessThanTwiceLimitPerSecond` | valkyr-core/src/broker.rs:1363-1386 | Over every run with a clock that does not go back, any half-open second admits at most `2 * limit - 1` requests |
| `RateWindow.WorstCaseReachesBound` | valkyr-core/src/broker.rs:1363-1386 | And for every limit a run reaches that bound |
| `RateWindow.HintIsBounded` | valkyr-core/src/broker.rs:1378-1385 | Every hint is between 1 and 1000 ms, and one millisecond more than it reaches the end of the window |

## Left out

- RefreshTheorems.RecordedMutationShutsOutEarlierMisses: holds for runs without a late release, because the code releases a mismatched id outside the lock; `RefreshConverse.DefeatableIffLate` shows that the condition is exact step by step.
- IndexLoops.SharedIndex.EnsurePath: other adapters run between a read and a write in this method; their interleaving with every other step is in `ContextIndex`.
- CallbackTables.Correlator.RegisterPendingResult: the methods of this class run without interference; their interleavings are the steps of `CallbackProtocol`.
- Generations are unbounded; the source's 64-bit counter would wrap after 2^64 mutations of one route.
- In the refresh protocol the cache itself is not modelled: the store read of `confirm_provider_miss` may find a value or not at any time, and `store.get` errors are the found case.
- A GET's own answer, and the timeout of a waiter on a refresh completion, are not modelled; only what the refresh publishes is.
- Tasks are never cancelled and never panic; UUIDs are fresh, and no connection can name the id of a request before it has been sent out.
- Each store operation of a commit is one step on the cache; lifetimes are entries that may vanish at any step.
- JsonGrammar.DocumentGrammar: JSON numbers are integers of 64 bits; fractions, exponents and `-0`, which the library reads as floating point, are left to it.
- MutationRouting.RoutedToNewest: keys and deletion patterns with a star or brace before their last character are literal texts for the cache and patterns for the overlap test; what they concern is that test, and `OverlapMissesIff` is about literal prefixes.
- Error values carry no message texts.
- SHA-256 digests are any four path parts, and encryption of values is left out.
- `/__secrets` warm-up writes, leases, statistics counters, provider rotation and the security key lookup are small beside the rest.
- Transports, TLS, HTTP, listeners and shutdown are input and output.
- The SQL adapter, configuration loading, the Go and Python clients beyond pattern matching, and the C interface are drivers.
