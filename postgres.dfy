/**
 Naming, labelling and defaulting helpers of the KubeDB Postgres resource
 (apis/kubedb/v1alpha1/postgres_helpers.go).
 */
module PostgresHelpers {
  import opened Kube

  const ResourceKindPostgres := "Postgres"
  const ResourceSingularPostgres := "postgres"
  const ComponentDatabase := "database"
  const StorageTypeDurable := "Durable"
  const TerminationPolicyDelete := "Delete"

  // Defaults of the leader election configuration, in seconds.
  const DefaultLeaseDurationSeconds := 15
  const DefaultRenewDeadlineSeconds := 10
  const DefaultRetryPeriodSeconds := 2

  datatype SecretVolumeSource = SecretVolumeSource(secretName: string)

  /** Point-in-time recovery target; a nil TargetInclusive is `None`. */
  datatype RecoveryTarget = RecoveryTarget(targetTime: string, targetInclusive: Option<bool>)

  datatype PostgresWALSourceSpec = PostgresWALSourceSpec(pitr: Option<RecoveryTarget>)

  datatype InitSpec = InitSpec(postgresWAL: Option<PostgresWALSourceSpec>)

  datatype LeaderElectionConfig = LeaderElectionConfig(
    leaseDurationSeconds: int,
    renewDeadlineSeconds: int,
    retryPeriodSeconds: int)

  /**
   The fields of PostgresSpec that the helpers read or default.
   `serviceAccountName` is Spec.PodTemplate.Spec.ServiceAccountName.
   */
  datatype PostgresSpec = PostgresSpec(
    version: string,
    storageType: string,
    terminationPolicy: string,
    databaseSecret: Option<SecretVolumeSource>,
    init: Option<InitSpec>,
    leaderElection: Option<LeaderElectionConfig>,
    serviceAccountName: string,
    monitor: Option<AgentSpec>)

  /** True when Init, Init.PostgresWAL and Init.PostgresWAL.PITR are all present. */
  predicate HasPITR(init: Option<InitSpec>) {
    init.Some? && init.value.postgresWAL.Some? && init.value.postgresWAL.value.pitr.Some?
  }

  function PITROf(init: Option<InitSpec>): RecoveryTarget
    requires HasPITR(init)
  {
    init.value.postgresWAL.value.pitr.value
  }

  /** Init with PITR.TargetInclusive defaulted to true when PITR exists and the flag is nil. */
  function DefaultedInit(init: Option<InitSpec>): (r: Option<InitSpec>)
    ensures !HasPITR(init) ==> r == init
    ensures HasPITR(init) ==> HasPITR(r) && PITROf(r).targetTime == PITROf(init).targetTime
    ensures HasPITR(init) && PITROf(init).targetInclusive.None? ==> PITROf(r).targetInclusive == Some(true)
    ensures HasPITR(init) && PITROf(init).targetInclusive.Some? ==> r == init
  {
    if HasPITR(init) && PITROf(init).targetInclusive.None? then
      var pitr := PITROf(init).(targetInclusive := Some(true));
      Some(init.value.(postgresWAL := Some(init.value.postgresWAL.value.(pitr := Some(pitr)))))
    else
      init
  }

  /**
   The spec after defaulting, for an object whose offshoot name is `offshootName`:
   each defaulted field is filled only when it is empty or nil, and every other
   field is kept.
   */
  function DefaultedSpec(s: PostgresSpec, offshootName: string): (r: PostgresSpec)
    ensures s.storageType == "" ==> r.storageType == StorageTypeDurable
    ensures s.storageType != "" ==> r.storageType == s.storageType
    ensures s.terminationPolicy == "" ==> r.terminationPolicy == TerminationPolicyDelete
    ensures s.terminationPolicy != "" ==> r.terminationPolicy == s.terminationPolicy
    ensures r.init == DefaultedInit(s.init)
    ensures s.leaderElection.None? ==>
      r.leaderElection == Some(LeaderElectionConfig(DefaultLeaseDurationSeconds, DefaultRenewDeadlineSeconds, DefaultRetryPeriodSeconds))
    ensures s.leaderElection.Some? ==> r.leaderElection == s.leaderElection
    ensures s.serviceAccountName == "" ==> r.serviceAccountName == offshootName
    ensures s.serviceAccountName != "" ==> r.serviceAccountName == s.serviceAccountName
    ensures r.version == s.version && r.databaseSecret == s.databaseSecret && r.monitor == s.monitor
  {
    s.(storageType := if s.storageType == "" then StorageTypeDurable else s.storageType,
       terminationPolicy := if s.terminationPolicy == "" then TerminationPolicyDelete else s.terminationPolicy,
       init := DefaultedInit(s.init),
       leaderElection :=
         if s.leaderElection.None? then
           Some(LeaderElectionConfig(DefaultLeaseDurationSeconds, DefaultRenewDeadlineSeconds, DefaultRetryPeriodSeconds))
         else s.leaderElection,
       serviceAccountName := if s.serviceAccountName == "" then offshootName else s.serviceAccountName)
  }

  /** A spec with nothing left to default: every defaulted field is set. */
  predicate IsDefaulted(s: PostgresSpec) {
    && s.storageType != ""
    && s.terminationPolicy != ""
    && (HasPITR(s.init) ==> PITROf(s.init).targetInclusive.Some?)
    && s.leaderElection.Some?
    && s.serviceAccountName != ""
  }

  /** Defaulting completes a spec (given a non-empty name), and a complete spec is a fixpoint. */
  lemma DefaultingCompletes(s: PostgresSpec, offshootName: string)
    ensures offshootName != "" ==> IsDefaulted(DefaultedSpec(s, offshootName))
    ensures IsDefaulted(s) ==> DefaultedSpec(s, offshootName) == s
  {
  }

  /** Defaulting twice gives the same spec as defaulting once. */
  lemma DefaultingIdempotent(s: PostgresSpec, offshootName: string)
    ensures DefaultedSpec(DefaultedSpec(s, offshootName), offshootName) == DefaultedSpec(s, offshootName)
  {
  }

  class Postgres {
    var meta: ObjectMeta
    var spec: PostgresSpec

    constructor (meta: ObjectMeta, spec: PostgresSpec)
      ensures this.meta == meta && this.spec == spec
    {
      this.meta := meta;
      this.spec := spec;
    }

    function OffshootName(): string
      reads this
    {
      meta.name
    }

    /** Exactly two selector labels: the database name and the Postgres kind. */
    function OffshootSelectors(): (r: Labels)
      reads this
      ensures r.Keys == {LabelDatabaseName, LabelDatabaseKind} && |r| == 2
      ensures r[LabelDatabaseName] == meta.name && r[LabelDatabaseKind] == ResourceKindPostgres
    {
      map[LabelDatabaseName := meta.name, LabelDatabaseKind := ResourceKindPostgres]
    }

    /** The labels OffshootLabels passes to FilterKeys: the selectors plus five recommended labels. */
    ghost predicate IsUnfilteredOffshootLabels(out: Labels)
      reads this
    {
      && out.Keys == {LabelDatabaseName, LabelDatabaseKind, NameLabelKey, VersionLabelKey,
                      InstanceLabelKey, ComponentLabelKey, ManagedByLabelKey}
      && out[LabelDatabaseName] == meta.name
      && out[LabelDatabaseKind] == ResourceKindPostgres
      && out[NameLabelKey] == ResourceSingularPostgres
      && out[VersionLabelKey] == spec.version
      && out[InstanceLabelKey] == meta.name
      && out[ComponentLabelKey] == ComponentDatabase
      && out[ManagedByLabelKey] == GroupName
    }

    method OffshootLabels(lib: Library) returns (r: Labels)
      ensures exists out :: IsUnfilteredOffshootLabels(out) && r == lib.filterKeys(GroupName, out, meta.labels)
    {
      var out := OffshootSelectors();
      out := out[NameLabelKey := ResourceSingularPostgres];
      out := out[VersionLabelKey := spec.version];
      out := out[InstanceLabelKey := meta.name];
      out := out[ComponentLabelKey := ComponentDatabase];
      out := out[ManagedByLabelKey := GroupName];
      assert IsUnfilteredOffshootLabels(out);
      r := lib.filterKeys(GroupName, out, meta.labels);
    }

    function ServiceName(): string
      reads this
    {
      OffshootName()
    }

    /** ServiceName of the stats accessor (postgresStatsService). */
    function StatsServiceName(): string
      reads this
    {
      OffshootName() + "-stats"
    }

    /** ServiceMonitorName of the stats accessor. */
    function ServiceMonitorName(): string
      reads this
    {
      StatsServiceName()
    }

    /** The filtered selectors, with the role label set to the stats role. */
    method StatsServiceLabels(lib: Library) returns (r: Labels)
      ensures LabelRole in r && r[LabelRole] == RoleStats
      ensures var filtered := lib.filterKeys(GroupName, OffshootSelectors(), meta.labels);
        r.Keys == filtered.Keys + {LabelRole} &&
        forall k :: k in filtered && k != LabelRole ==> r[k] == filtered[k]
    {
      r := lib.filterKeys(GroupName, OffshootSelectors(), meta.labels);
      r := r[LabelRole := RoleStats];
    }

    function GetMonitoringVendor(lib: Library): (r: string)
      reads this
      ensures spec.monitor.None? ==> r == ""
      ensures spec.monitor.Some? ==> r == lib.vendor(spec.monitor.value.agent)
    {
      if spec.monitor.Some? then lib.vendor(spec.monitor.value.agent) else ""
    }

    function ReplicasServiceName(): string
      reads this
    {
      meta.name + "-replicas"
    }
  }

  /**
   The service names of one Postgres: the primary service is the object's name,
   the replicas and stats services add a suffix, and the three never coincide.
   */
  lemma ServiceNames(p: Postgres)
    ensures p.ServiceName() == p.OffshootName() == p.meta.name
    ensures p.ReplicasServiceName() == p.meta.name + "-replicas"
    ensures p.ServiceMonitorName() == p.StatsServiceName() == p.meta.name + "-stats"
    ensures p.ServiceName() != p.ReplicasServiceName()
    ensures p.ServiceName() != p.StatsServiceName()
    ensures p.ReplicasServiceName() != p.StatsServiceName()
  {
  }

  /** Each suffixed service name determines the object's name. */
  lemma {:induction false} ServiceNamesInjective(p: Postgres, q: Postgres)
    ensures p.ReplicasServiceName() == q.ReplicasServiceName() <==> p.meta.name == q.meta.name
    ensures p.StatsServiceName() == q.StatsServiceName() <==> p.meta.name == q.meta.name
  {
    SuffixCancels(p.meta.name, q.meta.name, "-replicas");
    SuffixCancels(p.meta.name, q.meta.name, "-stats");
  }

  /** Fills the empty fields of the spec in place; a nil receiver is left alone. */
  method SetDefaults(p: Postgres?)
    modifies p
    ensures p != null ==> p.meta == old(p.meta) && p.spec == DefaultedSpec(old(p.spec), old(p.meta.name))
  {
    if p == null {
      return;
    }
    if p.spec.storageType == "" {
      p.spec := p.spec.(storageType := StorageTypeDurable);
    }
    if p.spec.terminationPolicy == "" {
      p.spec := p.spec.(terminationPolicy := TerminationPolicyDelete);
    }
    if HasPITR(p.spec.init) {
      var pitr := PITROf(p.spec.init);
      if pitr.targetInclusive.None? {
        pitr := pitr.(targetInclusive := Some(true));
      }
      var wal := p.spec.init.value.postgresWAL.value.(pitr := Some(pitr));
      p.spec := p.spec.(init := Some(p.spec.init.value.(postgresWAL := Some(wal))));
    }
    if p.spec.leaderElection.None? {
      p.spec := p.spec.(leaderElection :=
        Some(LeaderElectionConfig(DefaultLeaseDurationSeconds, DefaultRenewDeadlineSeconds, DefaultRetryPeriodSeconds)));
    }
    if p.spec.serviceAccountName == "" {
      p.spec := p.spec.(serviceAccountName := p.OffshootName());
    }
  }

  /**
   The database secret names of a spec: none for a nil spec or a nil
   DatabaseSecret, otherwise exactly the one secret name.
   */
  method GetSecrets(e: Option<PostgresSpec>) returns (secrets: seq<string>)
    ensures e.None? ==> secrets == []
    ensures e.Some? && e.value.databaseSecret.None? ==> secrets == []
    ensures e.Some? && e.value.databaseSecret.Some? ==> secrets == [e.value.databaseSecret.value.secretName]
  {
    if e.None? {
      return [];
    }
    secrets := [];
    if e.value.databaseSecret.Some? {
      secrets := secrets + [e.value.databaseSecret.value.secretName];
    }
  }
}
