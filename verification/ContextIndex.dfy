/** The OpenBao context index: any number of adapters run `ensure_path` and `move_context`
    against one shared document that is written by compare-and-set. */
module ContextIndex {
  import opened Wrappers

  /** What the index stores for a context; anything but a string is not a collection id. */
  datatype Collection = Uuid(id: nat) | NotText

  type Contexts = map<string, Collection>

  /** A stored document; one without a `contexts` object is malformed. */
  datatype Document = Document(contexts: Option<Contexts>, version: nat)

  datatype Job = Ensure(context: string) | Rename(source: string, destination: string)

  datatype Outcome = Found(id: nat) | Renamed | NothingToMove | Exists | Malformed | Conflicted | Broken

  /** Where a task is; `Writing` holds the edited map, the version that was read and the
      collection id to return. */
  datatype Progress =
    | Resolving
    | Reading
    | Writing(data: Contexts, version: nat, id: nat)
    | Done(outcome: Outcome)

  /** `since` is the version of the document when a task started. */
  datatype Task = Task(job: Job, tries: nat, since: nat, progress: Progress)

  datatype State = State(index: Option<Document>, tasks: map<nat, Task>, used: set<nat>)

  datatype Move =
    | Start(t: nat, job: Job)
    | Resolve(t: nat)
    | Read(t: nat, candidate: nat)
    | Write(t: nat, reported: bool)
    | Break(t: nat)

  const ATTEMPTS: nat := 8

  function VersionOf(index: Option<Document>): nat { if index.Some? then index.value.version else 0 }

  /** The contexts a loop round edits: none yet when there is no document. */
  function ContextsOf(index: Option<Document>): Option<Contexts> {
    if index.Some? then index.value.contexts else Some(map[])
  }

  // ---- one round of the loops ---------------------------------------------------------------------

  /** What a round of `ensure_path` writes and returns, for a candidate id. */
  function EnsureRound(index: Option<Document>, context: string, candidate: nat): Progress {
    match ContextsOf(index)
    case None => Done(Malformed)
    case Some(contexts) =>
      if context !in contexts then Writing(contexts[context := Uuid(candidate)], VersionOf(index), candidate)
      else if contexts[context].Uuid? then Writing(contexts, VersionOf(index), contexts[context].id)
      else Done(Malformed)
  }

  /** What a round of `move_context` writes. */
  function RenameRound(index: Option<Document>, source: string, destination: string): Progress {
    match index
    case None => Done(NothingToMove)
    case Some(document) =>
      match document.contexts
      case None => Done(Malformed)
      case Some(contexts) =>
        if source !in contexts then Done(NothingToMove)
        else if destination in (contexts - {source}) then Done(Exists)
        else Writing((contexts - {source})[destination := contexts[source]], document.version, 0)
  }

  function Round(index: Option<Document>, job: Job, candidate: nat): Progress {
    match job
    case Ensure(context) => EnsureRound(index, context, candidate)
    case Rename(source, destination) => RenameRound(index, source, destination)
  }

  /** `resolve_path_optional` before the loop of `ensure_path`. */
  function Resolved(index: Option<Document>, context: string): Progress {
    if index.Some? && index.value.contexts.Some? && context in index.value.contexts.value
       && index.value.contexts.value[context].Uuid?
    then Done(Found(index.value.contexts.value[context].id))
    else Reading
  }

  function Success(job: Job, id: nat): Outcome { if job.Ensure? then Found(id) else Renamed }

  // ---- the steps ----------------------------------------------------------------------------------

  predicate Enabled(s: State, m: Move) {
    match m
    case Start(t, _) => t !in s.tasks
    case Resolve(t) => t in s.tasks && s.tasks[t].progress.Resolving?
    case Read(t, candidate) => t in s.tasks && s.tasks[t].progress.Reading? && candidate !in s.used
    case Write(t, _) => t in s.tasks && s.tasks[t].progress.Writing?
    case Break(t) => t in s.tasks && !s.tasks[t].progress.Done?
  }

  function At(s: State, t: nat, progress: Progress): State
    requires t in s.tasks
  {
    s.(tasks := s.tasks[t := s.tasks[t].(progress := progress)])
  }

  /** The compare-and-set of a write succeeds. */
  predicate Applies(s: State, m: Move) {
    m.Write? && Enabled(s, m) && s.tasks[m.t].progress.version == VersionOf(s.index)
  }

  function Apply(s: State, m: Move): State
    requires Enabled(s, m)
  {
    match m
    case Start(t, job) =>
      s.(tasks := s.tasks[t := Task(job, 0, VersionOf(s.index), if job.Ensure? then Resolving else Reading)])
    case Resolve(t) =>
      var job := s.tasks[t].job;
      At(s, t, if job.Ensure? then Resolved(s.index, job.context) else Reading)
    case Read(t, candidate) => At(s, t, Round(s.index, s.tasks[t].job, candidate)).(used := s.used + {candidate})
    case Write(t, reported) =>
      var task := s.tasks[t];
      if Applies(s, m) then
        At(s, t, Done(if reported then Success(task.job, task.progress.id) else Broken))
        .(index := Some(Document(Some(task.progress.data), VersionOf(s.index) + 1)))
      else if !reported then At(s, t, Done(Broken))
      else
        var next := if task.tries + 1 == ATTEMPTS then Done(Conflicted) else Reading;
        s.(tasks := s.tasks[t := task.(tries := task.tries + 1, progress := next)])
    case Break(t) => At(s, t, Done(Broken))
  }

  ghost predicate Runs(s: State, moves: seq<Move>, t: State)
    decreases |moves|
  {
    if moves == [] then s == t
    else Enabled(s, moves[0]) && Runs(Apply(s, moves[0]), moves[1..], t)
  }

  // ---- invariants ---------------------------------------------------------------------------------

  /** No two contexts share a collection id. */
  ghost predicate Injective(contexts: Contexts) {
    forall a, b | a in contexts && b in contexts && contexts[a].Uuid? && contexts[a] == contexts[b] :: a == b
  }

  ghost predicate IndexOk(index: Option<Document>, used: set<nat>) {
    && (index.Some? ==> index.value.version > 0)
    && (ContextsOf(index).Some? ==>
          && Injective(ContextsOf(index).value)
          && forall c | c in ContextsOf(index).value && ContextsOf(index).value[c].Uuid? ::
              ContextsOf(index).value[c].id in used)
  }

  /** The edit of a task that read the version still in place, seen from the map in place. */
  ghost predicate Edits(job: Job, contexts: Contexts, data: Contexts, id: nat) {
    match job
    case Ensure(context) =>
      && data == contexts[context := Uuid(id)]
      && (if context in contexts then contexts[context] == Uuid(id)
          else forall c | c in contexts :: contexts[c] != Uuid(id))
    case Rename(source, destination) =>
      && source in contexts && destination !in (contexts - {source})
      && data == (contexts - {source})[destination := contexts[source]]
  }

  ghost predicate TaskOk(task: Task, index: Option<Document>, used: set<nat>) {
    && task.since + task.tries <= VersionOf(index) && task.tries <= ATTEMPTS
    && (task.progress.Reading? || task.progress.Writing? ==> task.tries < ATTEMPTS)
    && (task.progress == Done(Conflicted) ==> task.tries == ATTEMPTS)
    && (task.progress.Writing? ==>
          && task.since + task.tries <= task.progress.version <= VersionOf(index)
          && (task.job.Ensure? ==> task.progress.id in used)
          && (task.progress.version == VersionOf(index) ==>
                && ContextsOf(index).Some?
                && Edits(task.job, ContextsOf(index).value, task.progress.data, task.progress.id)))
    && (task.progress.Resolving? ==> task.job.Ensure? && task.tries == 0)
  }

  ghost predicate Inv(s: State) {
    IndexOk(s.index, s.used) && forall t | t in s.tasks :: TaskOk(s.tasks[t], s.index, s.used)
  }

  /** An index that no task has touched yet. */
  ghost predicate Initial(s: State) { s.tasks == map[] && IndexOk(s.index, s.used) }

  /** The ids and other values in use. */
  function Values(contexts: Contexts): set<Collection> { set c | c in contexts :: contexts[c] }

  // ---- what an edit does --------------------------------------------------------------------------

  lemma EditIsInjective(job: Job, contexts: Contexts, data: Contexts, id: nat)
    requires Injective(contexts) && Edits(job, contexts, data, id)
    ensures Injective(data)
  {
  }

  lemma RenameKeepsValues(contexts: Contexts, source: string, destination: string)
    requires source in contexts && destination !in contexts - {source}
    ensures var data := (contexts - {source})[destination := contexts[source]];
            Values(data) == Values(contexts)
  {
    var data := (contexts - {source})[destination := contexts[source]];
    assert data[destination] == contexts[source];
    forall v | v in Values(contexts) ensures v in Values(data) {
      var c :| c in contexts && contexts[c] == v;
      assert c != source ==> data[c] == v;
    }
  }

  lemma RenameKeepsCount(contexts: Contexts, source: string, destination: string)
    requires source in contexts && destination !in contexts - {source}
    ensures |(contexts - {source})[destination := contexts[source]]| == |contexts|
  {
    var rest := contexts - {source};
    var data := rest[destination := contexts[source]];
    assert contexts.Keys == rest.Keys + {source} && data.Keys == rest.Keys + {destination};
    assert |contexts| == |contexts.Keys| && |data| == |data.Keys|;
  }

  /** A move keeps the ids and the number of contexts; an ensure only adds. */
  lemma EditConserves(job: Job, contexts: Contexts, data: Contexts, id: nat)
    requires Edits(job, contexts, data, id)
    ensures job.Rename? ==> Values(data) == Values(contexts) && |data| == |contexts|
    ensures job.Ensure? ==> Values(data) == Values(contexts) + {Uuid(id)}
  {
    match job
    case Ensure(context) =>
      assert data[context] == Uuid(id);
      forall v | v in Values(contexts) ensures v in Values(data) {
        var c :| c in contexts && contexts[c] == v;
        assert data[c] == v;
      }
    case Rename(source, destination) =>
      RenameKeepsValues(contexts, source, destination);
      RenameKeepsCount(contexts, source, destination);
  }

  /** Only a move changes or removes the id of a context, and only of its source. */
  lemma EditKeepsOthers(job: Job, contexts: Contexts, data: Contexts, id: nat, context: string)
    requires Edits(job, contexts, data, id) && context in contexts
    requires job.Rename? && job.source == context ==> job.destination == context
    ensures context in data && data[context] == contexts[context]
  {
  }

  // ---- every step keeps the invariant ---------------------------------------------------------------

  lemma RoundIsOk(task: Task, index: Option<Document>, used: set<nat>, candidate: nat)
    requires IndexOk(index, used) && TaskOk(task, index, used) && task.progress.Reading? && candidate !in used
    ensures TaskOk(task.(progress := Round(index, task.job, candidate)), index, used + {candidate})
  {
    var next := Round(index, task.job, candidate);
    if next.Writing? && task.job.Ensure? && task.job.context in ContextsOf(index).value {
      var contexts := ContextsOf(index).value;
      assert contexts[task.job.context := Uuid(next.id)] == contexts;
    }
  }

  lemma MoreUsed(task: Task, index: Option<Document>, used: set<nat>, candidate: nat)
    requires TaskOk(task, index, used)
    ensures TaskOk(task, index, used + {candidate})
  {
  }

  /** A write that succeeds makes every other pending write stale. */
  lemma OlderIsOk(task: Task, index: Option<Document>, newer: Option<Document>, used: set<nat>)
    requires TaskOk(task, index, used) && VersionOf(newer) > VersionOf(index)
    ensures TaskOk(task, newer, used)
  {
  }

  lemma ReadKeepsInv(s: State, m: Move)
    requires Inv(s) && Enabled(s, m) && m.Read?
    ensures Inv(Apply(s, m))
  {
    RoundIsOk(s.tasks[m.t], s.index, s.used, m.candidate);
    forall t | t in s.tasks ensures TaskOk(s.tasks[t], s.index, s.used + {m.candidate}) {
      MoreUsed(s.tasks[t], s.index, s.used, m.candidate);
    }
  }

  lemma WriteKeepsInv(s: State, m: Move)
    requires Inv(s) && Enabled(s, m) && m.Write?
    ensures Inv(Apply(s, m))
  {
    var next := Apply(s, m);
    if Applies(s, m) {
      var p, contexts := s.tasks[m.t].progress, ContextsOf(s.index).value;
      assert TaskOk(s.tasks[m.t], s.index, s.used);
      EditIsInjective(s.tasks[m.t].job, contexts, p.data, p.id);
      forall t | t in s.tasks ensures TaskOk(s.tasks[t], next.index, s.used) {
        OlderIsOk(s.tasks[t], s.index, next.index, s.used);
      }
    }
  }

  lemma InvStep(s: State, m: Move)
    requires Inv(s) && Enabled(s, m)
    ensures Inv(Apply(s, m))
  {
    if m.Read? {
      ReadKeepsInv(s, m);
    } else if m.Write? {
      WriteKeepsInv(s, m);
    }
  }

  /** The invariant holds throughout, and versions never go back. */
  lemma {:induction false} InvRun(s: State, moves: seq<Move>, t: State)
    requires Inv(s) && Runs(s, moves, t)
    ensures Inv(t) && VersionOf(s.index) <= VersionOf(t.index)
    ensures VersionOf(s.index) == VersionOf(t.index) ==> s.index == t.index
    decreases |moves|
  {
    if moves != [] {
      InvStep(s, moves[0]);
      assert VersionOf(s.index) <= VersionOf(Apply(s, moves[0]).index);
      InvRun(Apply(s, moves[0]), moves[1..], t);
    }
  }

  // ---- whole runs -----------------------------------------------------------------------------------

  /** The map in place; a malformed document has none. */
  function Map(s: State): Contexts { if ContextsOf(s.index).Some? then ContextsOf(s.index).value else map[] }

  /** Every step leaves the map alone or is a write whose edit is right for the map in place, even
      though it was computed from an earlier read. */
  lemma StepEdits(s: State, m: Move)
    requires Inv(s) && Enabled(s, m)
    ensures if Applies(s, m)
            then Edits(s.tasks[m.t].job, Map(s), Map(Apply(s, m)), s.tasks[m.t].progress.id)
            else Map(Apply(s, m)) == Map(s)
  {
    if Applies(s, m) { assert TaskOk(s.tasks[m.t], s.index, s.used); }
  }

  /** In every interleaving, no two contexts share a collection id. */
  lemma NoSharedCollections(s: State, moves: seq<Move>, t: State)
    requires Initial(s) && Runs(s, moves, t)
    ensures Injective(Map(t))
  {
    InvRun(s, moves, t);
  }

  /** The ids that a run's ensure writes add, whether or not the write was reported. */
  ghost function Added(s: State, moves: seq<Move>, t: State): set<Collection>
    requires Runs(s, moves, t)
    decreases |moves|
  {
    if moves == [] then {}
    else
      var m := moves[0];
      var rest := Added(Apply(s, m), moves[1..], t);
      if Applies(s, m) && s.tasks[m.t].job.Ensure? then {Uuid(s.tasks[m.t].progress.id)} + rest else rest
  }

  /** Conservation: the ids in use at the end are those at the start and those that ensures
      added. Moves lose and invent nothing. */
  lemma {:induction false} IdsAreConserved(s: State, moves: seq<Move>, t: State)
    requires Inv(s) && Runs(s, moves, t)
    ensures Values(Map(t)) == Values(Map(s)) + Added(s, moves, t)
    decreases |moves|
  {
    if moves != [] {
      var m := moves[0];
      StepEdits(s, m);
      InvStep(s, m);
      if Applies(s, m) {
        EditConserves(s.tasks[m.t].job, Map(s), Map(Apply(s, m)), s.tasks[m.t].progress.id);
      }
      IdsAreConserved(Apply(s, m), moves[1..], t);
    }
  }

  /** The step is a successful move of the context to another name. */
  predicate MovesAway(s: State, m: Move, context: string) {
    Applies(s, m) && s.tasks[m.t].job.Rename? && s.tasks[m.t].job.source == context
    && s.tasks[m.t].job.destination != context
  }

  ghost predicate Undisturbed(s: State, moves: seq<Move>, context: string)
    decreases |moves|
  {
    moves == [] || (Enabled(s, moves[0]) && !MovesAway(s, moves[0], context)
                    && Undisturbed(Apply(s, moves[0]), moves[1..], context))
  }

  lemma StepKeepsId(s: State, m: Move, context: string)
    requires Inv(s) && Enabled(s, m) && !MovesAway(s, m, context) && context in Map(s)
    ensures context in Map(Apply(s, m)) && Map(Apply(s, m))[context] == Map(s)[context]
  {
    StepEdits(s, m);
    if Applies(s, m) {
      EditKeepsOthers(s.tasks[m.t].job, Map(s), Map(Apply(s, m)), s.tasks[m.t].progress.id, context);
    }
  }

  /** A context keeps its id for as long as no move of it succeeds. */
  lemma {:induction false} IdChangesOnlyByMove(s: State, moves: seq<Move>, t: State, context: string)
    requires Inv(s) && Runs(s, moves, t) && Undisturbed(s, moves, context) && context in Map(s)
    ensures context in Map(t) && Map(t)[context] == Map(s)[context]
    decreases |moves|
  {
    if moves != [] {
      StepKeepsId(s, moves[0], context);
      InvStep(s, moves[0]);
      IdChangesOnlyByMove(Apply(s, moves[0]), moves[1..], t, context);
    }
  }

  /** Tasks outside `earlier` that ensured the context have returned the id it has. */
  ghost predicate Agree(s: State, earlier: set<nat>, context: string) {
    && context in Map(s)
    && forall t | t in s.tasks && t !in earlier && s.tasks[t].job == Ensure(context) && s.tasks[t].progress.Done?
                  && s.tasks[t].progress.outcome.Found? ::
         Map(s)[context] == Uuid(s.tasks[t].progress.outcome.id)
  }

  lemma StepAgrees(s: State, m: Move, earlier: set<nat>, context: string)
    requires Inv(s) && Enabled(s, m) && !MovesAway(s, m, context) && Agree(s, earlier, context)
    ensures Agree(Apply(s, m), earlier, context) && Map(Apply(s, m))[context] == Map(s)[context]
  {
    StepKeepsId(s, m, context);
    StepEdits(s, m);
    if m.Write? { assert TaskOk(s.tasks[m.t], s.index, s.used); }
  }

  lemma {:induction false} RunAgrees(s: State, moves: seq<Move>, t: State, earlier: set<nat>, context: string)
    requires Inv(s) && Runs(s, moves, t) && Undisturbed(s, moves, context) && Agree(s, earlier, context)
    ensures Agree(t, earlier, context) && Map(t)[context] == Map(s)[context]
    decreases |moves|
  {
    if moves != [] {
      StepAgrees(s, moves[0], earlier, context);
      InvStep(s, moves[0]);
      RunAgrees(Apply(s, moves[0]), moves[1..], t, earlier, context);
    }
  }

  predicate IsDone(s: State, n: nat) { n in s.tasks && s.tasks[n].progress.Done? }

  /** Ensures of one context agree: all that finish while the context stays in place, even those
      that started before it was there, return the id it has. */
  lemma EnsuresAgree(s: State, moves: seq<Move>, t: State, context: string, n: nat)
    requires Inv(s) && Runs(s, moves, t) && Undisturbed(s, moves, context) && context in Map(s)
    requires !IsDone(s, n) && IsDone(t, n) && t.tasks[n].job == Ensure(context) && t.tasks[n].progress.outcome.Found?
    ensures Map(s)[context] == Uuid(t.tasks[n].progress.outcome.id)
  {
    var earlier := set k | k in s.tasks && IsDone(s, k);
    RunAgrees(s, moves, t, earlier, context);
  }

  /** An ensure that reports success leaves its id at its context. */
  lemma EnsureTakesEffect(s: State, m: Move)
    requires Inv(s) && Enabled(s, m) && !m.Start? && s.tasks[m.t].job.Ensure?
    requires Apply(s, m).tasks[m.t].progress.Done? && Apply(s, m).tasks[m.t].progress.outcome.Found?
    ensures var context := s.tasks[m.t].job.context;
            context in Map(Apply(s, m)) && Map(Apply(s, m))[context] == Uuid(Apply(s, m).tasks[m.t].progress.outcome.id)
  {
    StepEdits(s, m);
    assert TaskOk(s.tasks[m.t], s.index, s.used);
  }

  /** Giving up after repeated conflicts means that other writes succeeded meanwhile, one for
      every attempt. */
  lemma ConflictMeansProgress(s: State, moves: seq<Move>, t: State, n: nat)
    requires Initial(s) && Runs(s, moves, t) && n in t.tasks && t.tasks[n].progress == Done(Conflicted)
    ensures VersionOf(t.index) >= t.tasks[n].since + ATTEMPTS
  {
    InvRun(s, moves, t);
    assert TaskOk(t.tasks[n], t.index, t.used);
  }
}
