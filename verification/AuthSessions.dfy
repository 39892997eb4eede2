/** The session state machine of `AuthManager`. */
module AuthSessions {
  import opened Wrappers
  import opened Permissions
  import opened Units

  /** The settings a manager is built with; times are nanoseconds. */
  datatype Settings = Settings(bootstrapKey: Option<string>, timeout: nat)

  datatype AuthInfo = AuthInfo(apiKey: string, roles: seq<Role>, bootstrap: bool, authenticatedAt: nat)

  datatype Entry =
    | Loading(storeLoading: bool, dispatched: bool)
    | Ready(info: AuthInfo, expiresAt: nat, scheduled: bool, loading: bool)
    | Rejected(expiresAt: nat)

  datatype Lookup = Authenticated(info: AuthInfo) | Pending | Refused

  type Cache = map<string, Entry>

  /** The calls that change the cache; `Complete` is every load that ends with a stored value,
      nothing, or (`None`) a value that is no record. */
  datatype Call =
    | Authenticate(key: string, now: nat)
    | TakeStoreLoad(key: string)
    | TakeScheduledLoad(key: string)
    | ScheduleRefresh(key: string, now: nat)
    | Complete(key: string, record: Option<AuthRecord>, now: nat)
    | FailLoad(key: string, now: nat)
    | Disconnect(key: string)

  predicate IsBootstrap(settings: Settings, key: string) { settings.bootstrapKey == Some(key) }

  /** An entry that answers a lookup without starting a load. */
  predicate Answers(entry: Entry, now: nat) {
    match entry
    case Loading(_, _) => true
    case Ready(_, expiresAt, _, _) => expiresAt > now
    case Rejected(expiresAt) => expiresAt > now
  }

  /** A record that opens a session, with its roles. */
  function Opened(record: Option<AuthRecord>): Option<seq<Role>> {
    match record
    case None => None
    case Some(r) => (match IntoInfo(r) case Ok(roles) => Some(roles) case Err(_) => None)
  }

  /** A load that brings no session: a refresh ends the session, a first load is remembered. */
  function AfterFailure(cache: Cache, key: string, expiresAt: nat): Cache {
    if key in cache && cache[key].Ready? then cache - {key} else cache[key := Rejected(expiresAt)]
  }

  function AfterAuthenticate(settings: Settings, cache: Cache, key: string, now: nat): Cache {
    if IsBootstrap(settings, key) then cache
    else if key !in cache || !Answers(cache[key], now) then cache[key := Loading(false, false)]
    else
      match cache[key]
      case Ready(info, _, _, loading) =>
        if !loading && Elapsed(now, info.authenticatedAt) >= settings.timeout / 2
        then cache[key := cache[key].(scheduled := true)] else cache
      case _ => cache
  }

  function After(settings: Settings, cache: Cache, call: Call): Cache {
    match call
    case Authenticate(key, now) => AfterAuthenticate(settings, cache, key, now)
    case TakeStoreLoad(key) =>
      if Granted(cache, call) then cache[key := cache[key].(storeLoading := true)] else cache
    case TakeScheduledLoad(key) =>
      if !Granted(cache, call) then cache
      else if cache[key].Loading? then cache[key := cache[key].(dispatched := true)]
      else cache[key := cache[key].(scheduled := false, loading := true)]
    case ScheduleRefresh(key, _) =>
      if Granted(cache, call) then cache[key := cache[key].(scheduled := true)] else cache
    case Complete(key, record, now) =>
      (match Opened(record)
       case Some(roles) => cache[key := Ready(AuthInfo(key, roles, false, now), now + settings.timeout, false, false)]
       case None => AfterFailure(cache, key, now + settings.timeout))
    case FailLoad(key, now) => AfterFailure(cache, key, now + settings.timeout)
    case Disconnect(key) => cache - {key}
  }

  /** What the taking calls and `schedule_refresh` return. */
  predicate Granted(cache: Cache, call: Call) {
    match call
    case TakeStoreLoad(key) => key in cache && cache[key].Loading? && !cache[key].storeLoading
    case TakeScheduledLoad(key) =>
      key in cache && ((cache[key].Loading? && !cache[key].dispatched)
                       || (cache[key].Ready? && cache[key].scheduled && !cache[key].loading))
    case ScheduleRefresh(key, now) =>
      key in cache && cache[key].Ready? && cache[key].expiresAt > now && !cache[key].loading && !cache[key].scheduled
    case _ => false
  }

  predicate Authorizes(cache: Cache, auth: AuthInfo, namespace: string, operation: Operation, now: nat) {
    || auth.bootstrap
    || (auth.apiKey in cache && cache[auth.apiKey].Ready? && cache[auth.apiKey].expiresAt > now
        && RolesAllow(cache[auth.apiKey].info.roles, namespace, operation))
  }

  /** The object that the broker holds. */
  class AuthManager {
    const settings: Settings
    var cache: Cache

    constructor (settings: Settings)
      ensures this.settings == settings && cache == map[]
    {
      this.settings := settings;
      cache := map[];
    }

    method Authenticate(key: string, now: nat) returns (r: Lookup)
      modifies this
      ensures cache == After(settings, old(cache), Call.Authenticate(key, now))
      ensures r.Authenticated? <==> IsBootstrap(settings, key)
                                    || (key in old(cache) && old(cache)[key].Ready? && old(cache)[key].expiresAt > now)
      ensures r.Authenticated? && !IsBootstrap(settings, key) ==> r.info == old(cache)[key].info
      ensures r.Authenticated? && IsBootstrap(settings, key) ==> r.info.bootstrap && r.info.roles == [AdminRole]
      ensures r.Refused? <==> !IsBootstrap(settings, key) && key in old(cache) && old(cache)[key].Rejected?
                              && old(cache)[key].expiresAt > now
    {
      if IsBootstrap(settings, key) { return Authenticated(AuthInfo(key, [AdminRole], true, now)); }
      if key in cache && Answers(cache[key], now) {
        match cache[key]
        case Loading(_, _) => return Pending;
        case Rejected(_) => return Refused;
        case Ready(info, _, _, loading) =>
          if !loading && Elapsed(now, info.authenticatedAt) >= settings.timeout / 2 {
            cache := cache[key := cache[key].(scheduled := true)];
          }
          return Authenticated(info);
      } else {
        cache := cache[key := Loading(false, false)];
        return Pending;
      }
    }

    method TakeStoreLoad(key: string) returns (taken: bool)
      modifies this
      ensures taken == Granted(old(cache), Call.TakeStoreLoad(key))
      ensures cache == After(settings, old(cache), Call.TakeStoreLoad(key))
    {
      taken := key in cache && cache[key].Loading? && !cache[key].storeLoading;
      if taken { cache := cache[key := cache[key].(storeLoading := true)]; }
    }

    method TakeScheduledLoad(key: string) returns (taken: bool)
      modifies this
      ensures taken == Granted(old(cache), Call.TakeScheduledLoad(key))
      ensures cache == After(settings, old(cache), Call.TakeScheduledLoad(key))
    {
      if key !in cache { return false; }
      match cache[key]
      case Loading(_, dispatched) =>
        taken := !dispatched;
        if taken { cache := cache[key := cache[key].(dispatched := true)]; }
      case Ready(_, _, scheduled, loading) =>
        taken := scheduled && !loading;
        if taken { cache := cache[key := cache[key].(scheduled := false, loading := true)]; }
      case Rejected(_) => taken := false;
    }

    method ScheduleRefresh(key: string, now: nat) returns (scheduled: bool)
      modifies this
      ensures scheduled == Granted(old(cache), Call.ScheduleRefresh(key, now))
      ensures cache == After(settings, old(cache), Call.ScheduleRefresh(key, now))
    {
      if key !in cache || !cache[key].Ready? { return false; }
      if cache[key].expiresAt <= now || cache[key].loading || cache[key].scheduled { return false; }
      cache := cache[key := cache[key].(scheduled := true)];
      return true;
    }

    method CompleteLoad(key: string, record: Option<AuthRecord>, now: nat) returns (ready: bool)
      modifies this
      ensures ready == Opened(record).Some?
      ensures cache == After(settings, old(cache), Call.Complete(key, record, now))
    {
      var wasRefresh := key in cache && cache[key].Ready?;
      var roles := Opened(record);
      ready := roles.Some?;
      if ready {
        cache := cache[key := Ready(AuthInfo(key, roles.value, false, now), now + settings.timeout, false, false)];
      } else if wasRefresh {
        cache := cache - {key};
      } else {
        cache := cache[key := Rejected(now + settings.timeout)];
      }
    }

    method FailProviderLoad(key: string, now: nat)
      modifies this
      ensures cache == After(settings, old(cache), Call.FailLoad(key, now))
    {
      if key in cache && cache[key].Ready? {
        cache := cache - {key};
      } else {
        cache := cache[key := Rejected(now + settings.timeout)];
      }
    }

    method Authorize(auth: AuthInfo, namespace: string, operation: Operation, now: nat) returns (ok: bool)
      ensures ok == Authorizes(cache, auth, namespace, operation, now)
    {
      if auth.bootstrap { return true; }
      if auth.apiKey !in cache || !cache[auth.apiKey].Ready? { return false; }
      if cache[auth.apiKey].expiresAt <= now { return false; }
      return RolesAllow(cache[auth.apiKey].info.roles, namespace, operation);
    }

    method Disconnect(key: string)
      modifies this
      ensures cache == After(settings, old(cache), Call.Disconnect(key))
    {
      cache := cache - {key};
    }
  }

  // ---- runs -----------------------------------------------------------------------------------------

  /** The cache after a run of calls. */
  function CacheAfter(settings: Settings, calls: seq<Call>): Cache {
    if calls == [] then map[]
    else After(settings, CacheAfter(settings, calls[..|calls| - 1]), calls[|calls| - 1])
  }

  predicate Decides(call: Call, key: string) {
    (call.Complete? || call.FailLoad? || call.Disconnect?) && call.key == key
  }

  /** The latest load event of a key. */
  function LatestLoad(calls: seq<Call>, key: string): (r: Option<Call>)
    ensures r.Some? ==> r.value in calls && Decides(r.value, key)
  {
    if calls == [] then None
    else if Decides(calls[|calls| - 1], key) then Some(calls[|calls| - 1])
    else LatestLoad(calls[..|calls| - 1], key)
  }

  function TimeOf(call: Call): Option<nat> {
    match call
    case TakeStoreLoad(_) => None
    case TakeScheduledLoad(_) => None
    case Disconnect(_) => None
    case _ => Some(call.now)
  }

  /** The session that a key's latest load event opened. */
  function SessionOf(settings: Settings, calls: seq<Call>, key: string): Option<(seq<Role>, nat)> {
    match LatestLoad(calls, key)
    case Some(Complete(_, record, now)) =>
      (match Opened(record) case Some(roles) => Some((roles, now + settings.timeout)) case None => None)
    case _ => None
  }

  /** A ready entry is the session of the latest load event. */
  lemma {:induction false} ReadyIsLatestSession(settings: Settings, calls: seq<Call>, key: string)
    ensures var cache := CacheAfter(settings, calls);
            key in cache && cache[key].Ready? ==>
              SessionOf(settings, calls, key) == Some((cache[key].info.roles, cache[key].expiresAt))
  {
    if calls != [] {
      var before, last := calls[..|calls| - 1], calls[|calls| - 1];
      ReadyIsLatestSession(settings, before, key);
      if !Decides(last, key) { ReadyWasThere(settings, CacheAfter(settings, before), last, key); }
    }
  }

  /** A call that ends no load of a key opens no session for it and changes none. */
  lemma ReadyWasThere(settings: Settings, cache: Cache, call: Call, key: string)
    requires !Decides(call, key)
    ensures var after := After(settings, cache, call);
            key in after && after[key].Ready? ==>
              && key in cache && cache[key].Ready?
              && cache[key].info == after[key].info && cache[key].expiresAt == after[key].expiresAt
  {
  }

  /** While a session of the latest load event has not expired, its entry is there. */
  lemma {:induction false} SessionIsReady(settings: Settings, calls: seq<Call>, key: string, now: nat)
    requires !IsBootstrap(settings, key)
    requires forall i | 0 <= i < |calls| :: TimeOf(calls[i]).Some? ==> TimeOf(calls[i]).value <= now
    requires SessionOf(settings, calls, key).Some? && SessionOf(settings, calls, key).value.1 > now
    ensures var cache := CacheAfter(settings, calls); key in cache && cache[key].Ready?
  {
    var before, last := calls[..|calls| - 1], calls[|calls| - 1];
    if !Decides(last, key) {
      SessionIsReady(settings, before, key, now);
      ReadyIsLatestSession(settings, before, key);
      assert TimeOf(last).Some? ==> TimeOf(last).value <= now;
    }
  }

  /** What a caller may rely on, without the cache: the latest load event of the key brought a
      valid, enabled record less than the timeout ago, and that record grants the operation. */
  ghost predicate HasRight(settings: Settings, calls: seq<Call>, key: string, namespace: string, operation: Operation,
                           now: nat) {
    match LatestLoad(calls, key)
    case Some(Complete(_, Some(record), loaded)) =>
      ValidRecord(record) && now < loaded + settings.timeout && Grants(record, namespace, operation)
    case _ => false
  }

  lemma RightIsSession(settings: Settings, calls: seq<Call>, key: string, namespace: string, operation: Operation,
                       now: nat)
    ensures HasRight(settings, calls, key, namespace, operation, now)
            <==> var session := SessionOf(settings, calls, key);
                 session.Some? && session.value.1 > now && RolesAllow(session.value.0, namespace, operation)
  {
    match LatestLoad(calls, key)
    case Some(Complete(_, Some(record), _)) => IntoInfoMeaning(record, namespace, operation);
    case _ =>
  }

  /** Over every run, on any clock: a key that is not the bootstrap key is authorized only by its
      latest load event. */
  lemma AuthorizedOnlyByLatestLoad(settings: Settings, calls: seq<Call>, auth: AuthInfo, namespace: string,
                                   operation: Operation, now: nat)
    requires !auth.bootstrap && Authorizes(CacheAfter(settings, calls), auth, namespace, operation, now)
    ensures HasRight(settings, calls, auth.apiKey, namespace, operation, now)
  {
    ReadyIsLatestSession(settings, calls, auth.apiKey);
    RightIsSession(settings, calls, auth.apiKey, namespace, operation, now);
  }

  /** And when the clock has not gone back, the latest load event decides both ways. */
  lemma AuthorizedIffLatestLoad(settings: Settings, calls: seq<Call>, auth: AuthInfo, namespace: string,
                                operation: Operation, now: nat)
    requires !auth.bootstrap && !IsBootstrap(settings, auth.apiKey)
    requires forall i | 0 <= i < |calls| :: TimeOf(calls[i]).Some? ==> TimeOf(calls[i]).value <= now
    ensures Authorizes(CacheAfter(settings, calls), auth, namespace, operation, now)
            <==> HasRight(settings, calls, auth.apiKey, namespace, operation, now)
  {
    RightIsSession(settings, calls, auth.apiKey, namespace, operation, now);
    ReadyIsLatestSession(settings, calls, auth.apiKey);
    if HasRight(settings, calls, auth.apiKey, namespace, operation, now) {
      SessionIsReady(settings, calls, auth.apiKey, now);
    }
  }

  // ---- loads of one incarnation -----------------------------------------------------------------------

  /** The call replaces or removes the key's entry. */
  predicate Renews(settings: Settings, cache: Cache, call: Call, key: string) {
    || Decides(call, key)
    || (call.Authenticate? && call.key == key && !IsBootstrap(settings, key)
        && (key !in cache || !Answers(cache[key], call.now)))
  }

  /** The number of entries the key has had. */
  function Incarnation(settings: Settings, calls: seq<Call>, key: string): nat {
    if calls == [] then 0
    else
      var before := calls[..|calls| - 1];
      Incarnation(settings, before, key)
      + (if Renews(settings, CacheAfter(settings, before), calls[|calls| - 1], key) then 1 else 0)
  }

  /** The entry has handed out the load that the call asks for. */
  predicate Spent(cache: Cache, call: Call) {
    match call
    case TakeStoreLoad(key) => key in cache && (cache[key].Loading? ==> cache[key].storeLoading)
    case TakeScheduledLoad(key) =>
      key in cache && (cache[key].Loading? ==> cache[key].dispatched) && (cache[key].Ready? ==> cache[key].loading)
    case _ => false
  }

  lemma SpentStep(settings: Settings, cache: Cache, call: Call, take: Call)
    requires (take.TakeStoreLoad? || take.TakeScheduledLoad?) && Spent(cache, take)
    requires !Renews(settings, cache, call, take.key)
    ensures Spent(After(settings, cache, call), take)
  {
  }

  /** Within one incarnation a handed-out load stays handed out. */
  lemma {:induction false} StaysSpent(settings: Settings, calls: seq<Call>, i: nat, take: Call)
    requires i <= |calls| && (take.TakeStoreLoad? || take.TakeScheduledLoad?)
    requires Spent(CacheAfter(settings, calls[..i]), take)
    requires Incarnation(settings, calls, take.key) == Incarnation(settings, calls[..i], take.key)
    ensures Spent(CacheAfter(settings, calls), take)
    decreases |calls|
  {
    if i == |calls| {
      assert calls[..i] == calls;
    } else {
      var before := calls[..|calls| - 1];
      assert before[..i] == calls[..i];
      IncarnationGrows(settings, before, i, take.key);
      StaysSpent(settings, before, i, take);
      SpentStep(settings, CacheAfter(settings, before), calls[|calls| - 1], take);
    }
  }

  lemma {:induction false} IncarnationGrows(settings: Settings, calls: seq<Call>, i: nat, key: string)
    requires i <= |calls|
    ensures Incarnation(settings, calls[..i], key) <= Incarnation(settings, calls, key)
    decreases |calls|
  {
    if i == |calls| {
      assert calls[..i] == calls;
    } else {
      var before := calls[..|calls| - 1];
      assert before[..i] == calls[..i];
      IncarnationGrows(settings, before, i, key);
    }
  }

  lemma TakingSpends(settings: Settings, cache: Cache, take: Call)
    requires Granted(cache, take) && (take.TakeStoreLoad? || take.TakeScheduledLoad?)
    ensures Spent(After(settings, cache, take), take)
  {
  }

  /** Over every run, two grants of the same kind of load to a key fall in different
      incarnations of its entry. */
  lemma OneLoadPerIncarnation(settings: Settings, calls: seq<Call>, i: nat, j: nat)
    requires i < j < |calls| && calls[i] == calls[j]
    requires calls[i].TakeStoreLoad? || calls[i].TakeScheduledLoad?
    requires Granted(CacheAfter(settings, calls[..i]), calls[i]) && Granted(CacheAfter(settings, calls[..j]), calls[j])
    ensures Incarnation(settings, calls[..i], calls[i].key) < Incarnation(settings, calls[..j], calls[i].key)
  {
    var take, until := calls[i], calls[..j];
    assert until[..i + 1] == calls[..i + 1] && calls[..i + 1][..i] == calls[..i];
    TakingSpends(settings, CacheAfter(settings, calls[..i]), take);
    IncarnationGrows(settings, until, i + 1, take.key);
    if Incarnation(settings, until, take.key) == Incarnation(settings, calls[..i + 1], take.key) {
      StaysSpent(settings, until, i + 1, take);
    }
  }

  /** An entry that an authentication has just started grants a load of each kind, in any run, until
      that load is taken or the entry is replaced. */
  lemma {:induction false} NewEntryGrantsLoads(settings: Settings, past: seq<Call>, key: string, now: nat,
                                               since: seq<Call>, take: Call)
    requires !IsBootstrap(settings, key) && take in {TakeStoreLoad(key), TakeScheduledLoad(key)}
    requires var cache := CacheAfter(settings, past); key !in cache || !Answers(cache[key], now)
    requires forall i | 0 <= i < |since| :: !Decides(since[i], key) && since[i] != take
    ensures Granted(CacheAfter(settings, past + [Call.Authenticate(key, now)] + since), take)
    decreases |since|
  {
    var calls := past + [Call.Authenticate(key, now)] + since;
    if since == [] {
      assert calls[..|calls| - 1] == past && calls[|calls| - 1] == Call.Authenticate(key, now);
      StillLoading(settings, past, key, now, since);
    } else {
      var before := since[..|since| - 1];
      assert calls[..|calls| - 1] == past + [Call.Authenticate(key, now)] + before;
      assert calls[|calls| - 1] == since[|since| - 1];
      NewEntryGrantsLoads(settings, past, key, now, before, take);
      StillLoading(settings, past, key, now, before);
    }
  }

  lemma {:induction false} StillLoading(settings: Settings, past: seq<Call>, key: string, now: nat, since: seq<Call>)
    requires !IsBootstrap(settings, key)
    requires var cache := CacheAfter(settings, past); key !in cache || !Answers(cache[key], now)
    requires forall i | 0 <= i < |since| :: !Decides(since[i], key)
    ensures var cache := CacheAfter(settings, past + [Call.Authenticate(key, now)] + since);
            key in cache && cache[key].Loading?
    decreases |since|
  {
    var calls := past + [Call.Authenticate(key, now)] + since;
    if since == [] {
      assert calls[..|calls| - 1] == past && calls[|calls| - 1] == Call.Authenticate(key, now);
    } else {
      var before := since[..|since| - 1];
      assert calls[..|calls| - 1] == past + [Call.Authenticate(key, now)] + before;
      assert calls[|calls| - 1] == since[|since| - 1];
      StillLoading(settings, past, key, now, before);
    }
  }

  lemma {:induction false} SessionTimes(settings: Settings, calls: seq<Call>, key: string)
    ensures var cache := CacheAfter(settings, calls);
            key in cache && cache[key].Ready? ==>
              cache[key].expiresAt == cache[key].info.authenticatedAt + settings.timeout
  {
    if calls != [] {
      var before, last := calls[..|calls| - 1], calls[|calls| - 1];
      SessionTimes(settings, before, key);
      if !Decides(last, key) { ReadyWasThere(settings, CacheAfter(settings, before), last, key); }
    }
  }

  /** An authentication of a live session that is neither scheduled nor loading makes a refresh of it
      due exactly when at least half its timeout, in whole nanoseconds, has passed since its load. */
  lemma HalfwaySessionIsScheduled(settings: Settings, calls: seq<Call>, key: string, now: nat)
    requires !IsBootstrap(settings, key)
    requires var cache := CacheAfter(settings, calls);
             key in cache && cache[key].Ready? && now < cache[key].expiresAt && !cache[key].scheduled
             && !cache[key].loading
    ensures var expiresAt := CacheAfter(settings, calls)[key].expiresAt;
            && expiresAt >= settings.timeout
            && (Granted(CacheAfter(settings, calls + [Call.Authenticate(key, now)]), TakeScheduledLoad(key))
                <==> 2 * Elapsed(now, expiresAt - settings.timeout) + 1 >= settings.timeout)
  {
    var all := calls + [Call.Authenticate(key, now)];
    assert all[..|all| - 1] == calls && all[|all| - 1] == Call.Authenticate(key, now);
    SessionTimes(settings, calls, key);
  }

  // ---- disconnecting ------------------------------------------------------------------------------------

  lemma {:induction false} LatestLoadAfter(past: seq<Call>, decision: Call, future: seq<Call>, key: string)
    requires Decides(decision, key) && forall i | 0 <= i < |future| && future[i].Complete? :: future[i].key != key
    ensures var latest := LatestLoad(past + [decision] + future, key);
            latest.Some? && (latest.value == decision || !latest.value.Complete?)
    decreases |future|
  {
    var calls := past + [decision] + future;
    if future == [] {
      assert calls[|calls| - 1] == decision;
    } else {
      var before := future[..|future| - 1];
      assert calls[..|calls| - 1] == past + [decision] + before && calls[|calls| - 1] == future[|future| - 1];
      LatestLoadAfter(past, decision, before, key);
    }
  }

  /** After a disconnect, no run authorizes the key again until a load of it completes. */
  lemma DisconnectEndsSession(settings: Settings, past: seq<Call>, future: seq<Call>, auth: AuthInfo,
                              namespace: string, operation: Operation, now: nat)
    requires !auth.bootstrap
    requires forall i | 0 <= i < |future| && future[i].Complete? :: future[i].key != auth.apiKey
    ensures !Authorizes(CacheAfter(settings, past + [Call.Disconnect(auth.apiKey)] + future), auth, namespace,
                        operation, now)
  {
    var calls := past + [Call.Disconnect(auth.apiKey)] + future;
    LatestLoadAfter(past, Call.Disconnect(auth.apiKey), future, auth.apiKey);
    assert !HasRight(settings, calls, auth.apiKey, namespace, operation, now);
    if Authorizes(CacheAfter(settings, calls), auth, namespace, operation, now) {
      AuthorizedOnlyByLatestLoad(settings, calls, auth, namespace, operation, now);
    }
  }
}
