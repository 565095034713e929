/**
 The Redis controller's handling of dormant databases: the termination gate
 (WaitUntilPaused), the resurrection guard (deleteMatchingDormantDatabase)
 and the archive path (createDormantDatabase), over the store of module Dormant.
 */
module DormantController {
  import opened Kube
  import opened Dormant

  /** The errors the environment reports to each request of one guard pass (None: no error). */
  datatype GuardFaults = GuardFaults(get: Option<ApiError>, patch: Option<ApiError>, delete: Option<ApiError>)

  const NoFaults := GuardFaults(None, None, None)

  /** The outcome of a guard pass, the store after it, and the requests it issued in order. */
  datatype GuardRun = GuardRun(outcome: Outcome, store: Store, requests: seq<Request>)

  /** No delete request ever reaches an armed record. */
  predicate NeverDeletesArmed(reqs: seq<Request>) {
    forall i :: 0 <= i < |reqs| && reqs[i].DeleteRequest? ==> !reqs[i].armed
  }

  /** Every delete request comes right after a request patching WipeOut of the same key to false. */
  predicate DisarmPrecedesDelete(reqs: seq<Request>) {
    forall i :: 0 <= i < |reqs| && reqs[i].DeleteRequest? ==>
      0 < i && reqs[i - 1] == PatchWipeOutRequest(reqs[i].key, false)
  }

  /**
   deleteMatchingDormantDatabase for the record under `key`: look it up (NotFound
   means there is nothing to do), patch its WipeOut to false, then delete it in
   the background (NotFound again counts as success).
   */
  function ResurrectionGuard(s: Store, key: Key, f: GuardFaults): (g: GuardRun)
    ensures 1 <= |g.requests| <= 3 && g.requests[0] == GetRequest(key)
    ensures NeverDeletesArmed(g.requests) && DisarmPrecedesDelete(g.requests)
    // The lookup: NotFound is benign; any other error is returned before any patch or delete.
    ensures GetStep(s, key, f.get) == Err(NotFound) ==> g == GuardRun(Pass, s, [GetRequest(key)])
    ensures GetStep(s, key, f.get).Err? && GetStep(s, key, f.get).error != NotFound ==>
      g == GuardRun(Fail(GetStep(s, key, f.get).error), s, [GetRequest(key)])
    // A failed patch is returned, and nothing is deleted.
    ensures GetStep(s, key, f.get).Ok? && f.patch.Some? ==>
      g == GuardRun(Fail(f.patch.value), s, [GetRequest(key), PatchWipeOutRequest(key, false)])
    // Once the record is found and disarmed, the delete is issued; NotFound from it is success.
    ensures GetStep(s, key, f.get).Ok? && f.patch.None? ==>
      |g.requests| == 3 && g.requests[2] == DeleteRequest(key, false) &&
      !Armed(g.store, key) &&
      (g.outcome.Pass? <==> f.delete.None? || f.delete == Some(NotFound)) &&
      (f.delete.None? ==> g.store == s - {key})
    // A failed delete leaves the disarmed record in place; any error but NotFound is returned.
    ensures GetStep(s, key, f.get).Ok? && f.patch.None? && f.delete.Some? ==>
      g.store == s[key := s[key].(spec := s[key].spec.(wipeOut := false))] &&
      (f.delete.value != NotFound ==> g.outcome == Fail(f.delete.value))
    ensures g.outcome.Pass? ==> !Armed(g.store, key) || g.store == s
    // Records under other keys are untouched.
    ensures forall k :: k != key ==> (k in g.store <==> k in s) && (k in s ==> g.store[k] == s[k])
  {
    var got := GetStep(s, key, f.get);
    if got.Err? then
      GuardRun(if got.error == NotFound then Pass else Fail(got.error), s, [GetRequest(key)])
    else
      var patched := PatchWipeOutStep(s, key, false, f.patch);
      if patched.result.Err? then
        GuardRun(Fail(patched.result.error), patched.store, [GetRequest(key), PatchWipeOutRequest(key, false)])
      else
        var deleted := DeleteStep(patched.store, key, f.delete);
        GuardRun(
          if deleted.outcome.Fail? && deleted.outcome.error != NotFound then deleted.outcome else Pass,
          deleted.store,
          [GetRequest(key), PatchWipeOutRequest(key, false), DeleteRequest(key, Armed(patched.store, key))])
  }

  /** A wait the termination gate performs, on the pods or the services of the database `key`. */
  datatype Wait = WaitPodsDeleted(key: Key) | WaitServicesDeleted(key: Key)

  /** A deletion waiter, kept abstract: success, or the error (a timeout, a failed query) it reports. */
  type Waiter = Key -> Outcome

  datatype Pause = Pause(outcome: Outcome, waits: seq<Wait>)

  /**
   WaitUntilPaused for the database `key`: the pod wait first, the service wait
   only if the pod wait succeeded; success only when both succeed.
   */
  function PauseSpec(key: Key, podsDeleted: Waiter, servicesDeleted: Waiter): (p: Pause)
    ensures p.outcome.Pass? <==> podsDeleted(key).Pass? && servicesDeleted(key).Pass?
    ensures 1 <= |p.waits| <= 2 && p.waits[0] == WaitPodsDeleted(key)
    ensures podsDeleted(key).Fail? ==> p.outcome == podsDeleted(key) && p.waits == [WaitPodsDeleted(key)]
    ensures podsDeleted(key).Pass? ==>
      p.outcome == servicesDeleted(key) && p.waits == [WaitPodsDeleted(key), WaitServicesDeleted(key)]
  {
    var pods := podsDeleted(key);
    if pods.Fail? then Pause(pods, [WaitPodsDeleted(key)])
    else Pause(servicesDeleted(key), [WaitPodsDeleted(key), WaitServicesDeleted(key)])
  }

  class Controller {
    /** The dormant database client (ExtClient.DormantDatabases). */
    const store: DormantStore
    /** The deletion waits issued so far, in order. */
    ghost var waits: seq<Wait>

    constructor (store: DormantStore)
      ensures this.store == store && waits == []
    {
      this.store := store;
      waits := [];
    }

    /**
     Blocks until the pods and then the services of the dormant database's Redis
     are gone; the Redis is addressed by the record's namespace and offshoot name
     (the record's name).
     */
    method WaitUntilPaused(drmn: DormantDatabase, podsDeleted: Waiter, servicesDeleted: Waiter) returns (r: Outcome)
      modifies this`waits
      ensures var p := PauseSpec(KeyOf(drmn.meta), podsDeleted, servicesDeleted);
        r == p.outcome && waits == old(waits) + p.waits
    {
      var db := Key(drmn.meta.namespace, drmn.meta.name);
      waits := waits + [WaitPodsDeleted(db)];
      r := podsDeleted(db);
      if r.Fail? {
        return;
      }
      waits := waits + [WaitServicesDeleted(db)];
      r := servicesDeleted(db);
    }

    /** The resurrection guard, run against the store. */
    method DeleteMatchingDormantDatabase(redis: Redis, f: GuardFaults) returns (r: Outcome)
      modifies store
      ensures var g := ResurrectionGuard(old(store.records), KeyOf(redis.meta), f);
        r == g.outcome && store.records == g.store && store.log == old(store.log) + g.requests
    {
      var key := KeyOf(redis.meta);
      var got := store.Get(key, f.get);
      if got.Err? {
        if got.error != NotFound {
          return Fail(got.error);
        }
        return Pass;
      }
      var patched := store.PatchWipeOut(key, false, f.patch);
      if patched.Err? {
        return Fail(patched.error);
      }
      var deleted := store.Delete(key, f.delete);
      if deleted.Fail? && deleted.error != NotFound {
        return deleted;
      }
      return Pass;
    }

    /** Archives a Redis object: builds its dormant record and creates it in the store. */
    method CreateDormantDatabase(redis: Redis, fault: Option<ApiError>) returns (r: Result<DormantDatabase, ApiError>)
      modifies store
      ensures var step := CreateStep(old(store.records), BuildDormantDatabase(redis), fault);
        r == step.result && store.records == step.store
      ensures store.log == old(store.log) + [CreateRequest(KeyOf(redis.meta))]
    {
      var dormantDb := BuildDormantDatabase(redis);
      r := store.Create(dormantDb, fault);
    }
  }

  // ---- Properties of the guard -------------------------------------------------

  /** With no record under the key, the guard is a no-op, however often it runs. */
  lemma GuardTwiceOnAbsent(s: Store, key: Key)
    requires key !in s
    ensures var first := ResurrectionGuard(s, key, NoFaults);
      var second := ResurrectionGuard(first.store, key, NoFaults);
      first == second == GuardRun(Pass, s, [GetRequest(key)])
  {
  }

  /**
   A record armed for wipe-out is disarmed and then deleted; the pass succeeds and
   the delete never reaches the armed record.
   */
  lemma ResurrectArmedRecord(s: Store, key: Key)
    requires key in s && s[key].spec.wipeOut
    ensures ResurrectionGuard(s, key, NoFaults) ==
      GuardRun(Pass, s - {key}, [GetRequest(key), PatchWipeOutRequest(key, false), DeleteRequest(key, false)])
  {
  }

  /** After a pass without errors the record is gone, and a second pass changes nothing. */
  lemma GuardIdempotent(s: Store, key: Key)
    ensures var first := ResurrectionGuard(s, key, NoFaults);
      var second := ResurrectionGuard(first.store, key, NoFaults);
      first.outcome == Pass && key !in first.store &&
      second == GuardRun(Pass, first.store, [GetRequest(key)])
  {
  }

  // ---- Sequences of reconcile passes ---------------------------------------------

  /** One pass of the controller over a Redis key: archive it, or resurrect it. */
  datatype Reconcile =
    | Archive(redis: Redis, fault: Option<ApiError>)
    | Resurrect(redis: Redis, faults: GuardFaults)

  datatype History = History(store: Store, requests: seq<Request>)

  function RunOne(s: Store, p: Reconcile): History {
    match p
    case Archive(redis, fault) =>
      History(CreateStep(s, BuildDormantDatabase(redis), fault).store, [CreateRequest(KeyOf(redis.meta))])
    case Resurrect(redis, faults) =>
      var g := ResurrectionGuard(s, KeyOf(redis.meta), faults);
      History(g.store, g.requests)
  }

  /** The store and request log after running the passes in order. */
  function Run(s: Store, passes: seq<Reconcile>): History
    decreases |passes|
  {
    if passes == [] then History(s, [])
    else
      var first := RunOne(s, passes[0]);
      var rest := Run(first.store, passes[1..]);
      History(rest.store, first.requests + rest.requests)
  }

  lemma {:induction false} SafeLogsConcatenate(a: seq<Request>, b: seq<Request>)
    requires NeverDeletesArmed(a) && DisarmPrecedesDelete(a)
    requires NeverDeletesArmed(b) && DisarmPrecedesDelete(b)
    ensures NeverDeletesArmed(a + b) && DisarmPrecedesDelete(a + b)
  {
    var ab := a + b;
    forall i | 0 <= i < |ab| && ab[i].DeleteRequest?
      ensures !ab[i].armed && 0 < i && ab[i - 1] == PatchWipeOutRequest(ab[i].key, false)
    {
      if i < |a| {
        assert ab[i] == a[i] && ab[i - 1] == a[i - 1];
      } else {
        assert ab[i] == b[i - |a|];
        assert 0 < i - |a|;
        assert ab[i - 1] == b[i - |a| - 1];
      }
    }
  }

  lemma {:induction false} RunOneKeepsInvariants(s: Store, p: Reconcile)
    requires WellFormedStore(s)
    ensures WellFormedStore(RunOne(s, p).store)
    ensures NeverDeletesArmed(RunOne(s, p).requests) && DisarmPrecedesDelete(RunOne(s, p).requests)
  {
    match p
    case Archive(redis, fault) =>
      StepsKeepWellFormed(s, redis, KeyOf(redis.meta), false, fault);
    case Resurrect(redis, f) =>
      var key := KeyOf(redis.meta);
      var patched := PatchWipeOutStep(s, key, false, f.patch);
      StepsKeepWellFormed(s, redis, key, false, f.patch);
      StepsKeepWellFormed(patched.store, redis, key, false, f.delete);
  }

  /**
   Over any sequence of archive and resurrection passes, whatever errors the API
   server reports: every stored record stays keyed by its own name with exactly one
   origin variant matching its kind label, no delete ever reaches an armed record,
   and every delete follows the patch that disarms it.
   */
  lemma {:induction false} RunKeepsInvariants(s: Store, passes: seq<Reconcile>)
    requires WellFormedStore(s)
    ensures WellFormedStore(Run(s, passes).store)
    ensures NeverDeletesArmed(Run(s, passes).requests) && DisarmPrecedesDelete(Run(s, passes).requests)
    decreases |passes|
  {
    if passes != [] {
      var first := RunOne(s, passes[0]);
      RunOneKeepsInvariants(s, passes[0]);
      RunKeepsInvariants(first.store, passes[1..]);
      SafeLogsConcatenate(first.requests, Run(first.store, passes[1..]).requests);
    }
  }

  /**
   Archiving a Redis whose key is free and then resurrecting it, without errors,
   leaves the store as it was; the archived record is never deleted while armed.
   */
  lemma {:induction false} ArchiveThenResurrect(s: Store, redis: Redis)
    requires KeyOf(redis.meta) !in s
    ensures var h := Run(s, [Archive(redis, None), Resurrect(redis, NoFaults)]);
      var key := KeyOf(redis.meta);
      h.store == s &&
      h.requests == [CreateRequest(key), GetRequest(key), PatchWipeOutRequest(key, false), DeleteRequest(key, false)]
  {
    var key := KeyOf(redis.meta);
    var d := BuildDormantDatabase(redis);
    var archived := RunOne(s, Archive(redis, None));
    assert archived.store == s[key := d];
    var resurrected := RunOne(archived.store, Resurrect(redis, NoFaults));
    assert resurrected.store == s[key := d] - {key};
    assert s[key := d] - {key} == s;
    var passes := [Archive(redis, None), Resurrect(redis, NoFaults)];
    assert passes[1..] == [Resurrect(redis, NoFaults)];
    assert passes[1..][1..] == [];
    assert Run(resurrected.store, []) == History(s, []);
    assert Run(archived.store, passes[1..]) == History(s, resurrected.requests);
    assert Run(s, passes) == History(s, archived.requests + resurrected.requests);
  }
}
