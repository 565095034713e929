/**
 Dormant database records: the archive a deleted Redis leaves behind, the
 builder that takes that snapshot, and the namespaced store the controller
 reads, creates, patches and deletes records in.
 */
module Dormant {
  import opened Kube
  import PostgresHelpers

  const ResourceKindRedis := "Redis"

  /** The Redis spec, copied into an archive as a whole. */
  datatype RedisSpec = RedisSpec(version: string, storageType: string, terminationPolicy: string)

  datatype Redis = Redis(meta: ObjectMeta, spec: RedisSpec)

  /** api.OriginSpec, reduced to the Redis and Postgres variants. */
  datatype OriginSpec = OriginSpec(redis: Option<RedisSpec>, postgres: Option<PostgresHelpers.PostgresSpec>)

  datatype Origin = Origin(meta: ObjectMeta, spec: OriginSpec)

  datatype DormantDatabaseSpec = DormantDatabaseSpec(origin: Origin, wipeOut: bool)

  datatype DormantDatabase = DormantDatabase(meta: ObjectMeta, spec: DormantDatabaseSpec)

  /** Exactly one kind variant of the origin spec is populated. */
  predicate ExactlyOneVariant(o: OriginSpec) {
    o.redis.Some? != o.postgres.Some?
  }

  function KindOf(o: OriginSpec): string
    requires ExactlyOneVariant(o)
  {
    if o.redis.Some? then ResourceKindRedis else PostgresHelpers.ResourceKindPostgres
  }

  /**
   A record stored under `key` is identified by that key, has exactly one origin
   variant, and carries a kind label naming that variant.
   */
  predicate WellFormed(key: Key, d: DormantDatabase) {
    && KeyOf(d.meta) == key
    && ExactlyOneVariant(d.spec.origin.spec)
    && LabelDatabaseKind in d.meta.labels
    && d.meta.labels[LabelDatabaseKind] == KindOf(d.spec.origin.spec)
  }

  /** The archive of a Redis object, as createDormantDatabase builds it before storing it. */
  function BuildDormantDatabase(redis: Redis): (d: DormantDatabase)
    ensures KeyOf(d.meta) == KeyOf(redis.meta)
    // The record's own metadata: name, namespace and the kind label; nothing else is set.
    ensures d.meta == ObjectMeta(redis.meta.name, redis.meta.namespace, map[LabelDatabaseKind := ResourceKindRedis], map[], 0)
    ensures d.meta.labels == map[LabelDatabaseKind := ResourceKindRedis]
    ensures d.spec.origin.meta == redis.meta
    ensures d.spec.origin.spec.redis == Some(redis.spec) && d.spec.origin.spec.postgres.None?
    ensures !d.spec.wipeOut
    ensures WellFormed(KeyOf(redis.meta), d)
  {
    DormantDatabase(
      ObjectMeta(redis.meta.name, redis.meta.namespace, map[LabelDatabaseKind := ResourceKindRedis], map[], 0),
      DormantDatabaseSpec(
        Origin(
          ObjectMeta(redis.meta.name, redis.meta.namespace, redis.meta.labels, redis.meta.annotations,
                     redis.meta.creationTimestamp),
          OriginSpec(Some(redis.spec), None)),
        false))
  }

  /** The Redis object an archive was taken from, rebuilt from the archive. */
  function OriginRedis(d: DormantDatabase): Option<Redis> {
    if d.spec.origin.spec.redis.Some? then Some(Redis(d.spec.origin.meta, d.spec.origin.spec.redis.value))
    else None
  }

  /**
   The archive keeps the name, namespace, labels, annotations, creation timestamp
   and spec of the Redis it was taken from, so those rebuild it.
   */
  lemma ArchiveRoundTrip(redis: Redis)
    ensures OriginRedis(BuildDormantDatabase(redis)) == Some(redis)
  {
  }

  // ---- The record store ------------------------------------------------------

  /** The records of all namespaces; a map holds at most one record per key. */
  type Store = map<Key, DormantDatabase>

  predicate WellFormedStore(s: Store) {
    forall k :: k in s ==> WellFormed(k, s[k])
  }

  /** True when the record under `key` exists and has WipeOut set. */
  predicate Armed(s: Store, key: Key) {
    key in s && s[key].spec.wipeOut
  }

  /**
   A request as it reaches the API server. A delete request records whether the
   record it targets was armed (WipeOut true) at that moment.
   */
  datatype Request =
    | GetRequest(key: Key)
    | CreateRequest(key: Key)
    | PatchWipeOutRequest(key: Key, wipeOut: bool)
    | DeleteRequest(key: Key, armed: bool)

  /** The result of a request and the store after it. */
  datatype Step = Step(result: Result<DormantDatabase, ApiError>, store: Store)

  datatype Deletion = Deletion(outcome: Outcome, store: Store)

  /**
   Get: the stored record, or NotFound. A `fault` is an error the API server
   reports instead of serving the request; it changes nothing.
   */
  function GetStep(s: Store, key: Key, fault: Option<ApiError>): (r: Result<DormantDatabase, ApiError>)
    ensures fault.Some? ==> r == Err(fault.value)
    ensures fault.None? ==> (r.Ok? <==> key in s)
    ensures r.Ok? ==> key in s && r.value == s[key]
    ensures fault.None? && key !in s ==> r == Err(NotFound)
  {
    if fault.Some? then Err(fault.value)
    else if key in s then Ok(s[key])
    else Err(NotFound)
  }

  /** Create: stores a record under its own key; never overwrites an existing one. */
  function CreateStep(s: Store, d: DormantDatabase, fault: Option<ApiError>): (r: Step)
    ensures r.result.Ok? <==> fault.None? && KeyOf(d.meta) !in s
    ensures r.result.Ok? ==> r.result.value == d && r.store == s[KeyOf(d.meta) := d]
    ensures r.result.Err? ==> r.store == s
    ensures fault.None? && KeyOf(d.meta) in s ==> r.result == Err(AlreadyExists)
    ensures fault.Some? ==> r.result == Err(fault.value)
  {
    var key := KeyOf(d.meta);
    if fault.Some? then Step(Err(fault.value), s)
    else if key in s then Step(Err(AlreadyExists), s)
    else Step(Ok(d), s[key := d])
  }

  /** Patch of the WipeOut flag: changes that flag of an existing record and nothing else. */
  function PatchWipeOutStep(s: Store, key: Key, wipeOut: bool, fault: Option<ApiError>): (r: Step)
    ensures r.result.Ok? <==> fault.None? && key in s
    ensures r.result.Ok? ==>
      r.result.value == s[key].(spec := s[key].spec.(wipeOut := wipeOut)) &&
      r.store == s[key := r.result.value]
    ensures r.result.Err? ==> r.store == s
    ensures fault.None? && key !in s ==> r.result == Err(NotFound)
    ensures fault.Some? ==> r.result == Err(fault.value)
  {
    if fault.Some? then Step(Err(fault.value), s)
    else if key !in s then Step(Err(NotFound), s)
    else
      var patched := s[key].(spec := s[key].spec.(wipeOut := wipeOut));
      Step(Ok(patched), s[key := patched])
  }

  /** Delete: removes the record under `key`, or reports NotFound. */
  function DeleteStep(s: Store, key: Key, fault: Option<ApiError>): (r: Deletion)
    ensures r.outcome.Pass? <==> fault.None? && key in s
    ensures r.outcome.Pass? ==> r.store == s - {key}
    ensures r.outcome.Fail? ==> r.store == s
    ensures fault.None? && key !in s ==> r.outcome == Fail(NotFound)
    ensures fault.Some? ==> r.outcome == Fail(fault.value)
  {
    if fault.Some? then Deletion(Fail(fault.value), s)
    else if key !in s then Deletion(Fail(NotFound), s)
    else Deletion(Pass, s - {key})
  }

  /** Creating a built archive, patching a flag or deleting keeps every stored record well formed. */
  lemma {:induction false} StepsKeepWellFormed(s: Store, redis: Redis, key: Key, wipeOut: bool, fault: Option<ApiError>)
    requires WellFormedStore(s)
    ensures WellFormedStore(CreateStep(s, BuildDormantDatabase(redis), fault).store)
    ensures WellFormedStore(PatchWipeOutStep(s, key, wipeOut, fault).store)
    ensures WellFormedStore(DeleteStep(s, key, fault).store)
  {
    var c := CreateStep(s, BuildDormantDatabase(redis), fault).store;
    forall k | k in c ensures WellFormed(k, c[k]) {
      if k != KeyOf(redis.meta) {
        assert k in s && c[k] == s[k];
      }
    }
    var p := PatchWipeOutStep(s, key, wipeOut, fault).store;
    forall k | k in p ensures WellFormed(k, p[k]) {
      assert k in s;
      assert WellFormed(k, s[k]);
    }
    var d := DeleteStep(s, key, fault).store;
    forall k | k in d ensures WellFormed(k, d[k]) {
      assert k in s && d[k] == s[k];
    }
  }

  /**
   The store the controller talks to (ExtClient.DormantDatabases(namespace)):
   the records, and a ghost log of the requests issued, in order.
   */
  class DormantStore {
    var records: Store
    ghost var log: seq<Request>

    constructor (records: Store)
      ensures this.records == records && log == []
    {
      this.records := records;
      log := [];
    }

    method Get(key: Key, fault: Option<ApiError>) returns (r: Result<DormantDatabase, ApiError>)
      modifies this`log
      ensures r == GetStep(records, key, fault)
      ensures log == old(log) + [GetRequest(key)]
    {
      log := log + [GetRequest(key)];
      if fault.Some? {
        return Err(fault.value);
      }
      if key in records {
        r := Ok(records[key]);
      } else {
        r := Err(NotFound);
      }
    }

    method Create(d: DormantDatabase, fault: Option<ApiError>) returns (r: Result<DormantDatabase, ApiError>)
      modifies this
      ensures var step := CreateStep(old(records), d, fault); r == step.result && records == step.store
      ensures log == old(log) + [CreateRequest(KeyOf(d.meta))]
    {
      var key := KeyOf(d.meta);
      log := log + [CreateRequest(key)];
      if fault.Some? {
        return Err(fault.value);
      }
      if key in records {
        return Err(AlreadyExists);
      }
      records := records[key := d];
      r := Ok(d);
    }

    method PatchWipeOut(key: Key, wipeOut: bool, fault: Option<ApiError>) returns (r: Result<DormantDatabase, ApiError>)
      modifies this
      ensures var step := PatchWipeOutStep(old(records), key, wipeOut, fault); r == step.result && records == step.store
      ensures log == old(log) + [PatchWipeOutRequest(key, wipeOut)]
    {
      log := log + [PatchWipeOutRequest(key, wipeOut)];
      if fault.Some? {
        return Err(fault.value);
      }
      if key !in records {
        return Err(NotFound);
      }
      var patched := records[key].(spec := records[key].spec.(wipeOut := wipeOut));
      records := records[key := patched];
      r := Ok(patched);
    }

    /** Delete with background propagation: returns once the removal is accepted. */
    method Delete(key: Key, fault: Option<ApiError>) returns (r: Outcome)
      modifies this
      ensures var step := DeleteStep(old(records), key, fault); r == step.outcome && records == step.store
      ensures log == old(log) + [DeleteRequest(key, Armed(old(records), key))]
    {
      log := log + [DeleteRequest(key, Armed(records, key))];
      if fault.Some? {
        return Fail(fault.value);
      }
      if key !in records {
        return Fail(NotFound);
      }
      records := records - {key};
      r := Pass;
    }
  }
}
