/**
 Naming, labelling, TLS defaulting and certificate lookup helpers of the
 KubeDB PgBouncer resource (apis/kubedb/v1alpha1/pgbouncer_helpers.go).
 */
module PgBouncerHelpers {
  import opened Kube

  const ResourceKindPgBouncer := "PgBouncer"
  const ResourceSingularPgBouncer := "pgbouncer"
  const ComponentConnectionPooler := "connection-pooler"

  /** PgBouncerCertificateAlias: the three certificates a PgBouncer uses. */
  datatype CertificateAlias = ServerCert | ClientCert | MetricsExporterCert {
    function Name(): string {
      match this
      case ServerCert => "server"
      case ClientCert => "client"
      case MetricsExporterCert => "metrics-exporter"
    }
  }

  /** The issuer reference of a TLS config (a typed local object reference). */
  datatype IssuerRef = IssuerRef(apiGroup: string, kind: string, name: string)

  /** kmapi.TLSConfig: a nil IssuerRef is `None`. */
  datatype TLSConfig = TLSConfig(issuerRef: Option<IssuerRef>, certificates: seq<CertificateSpec>)

  /** The fields of PgBouncerSpec that the helpers read or default. */
  datatype PgBouncerSpec = PgBouncerSpec(version: string, monitor: Option<AgentSpec>, tls: Option<TLSConfig>)

  /** The panics of MustCertSecretName. */
  datatype Panic =
    | MissingDatabase
    | MissingTLSSpec(namespace: string, name: string)
    | MissingSecretName(namespace: string, name: string, alias: CertificateAlias)

  /** CertificateName: the default certificate (and secret) name of an alias for the object `name`. */
  function CertificateName(name: string, alias: CertificateAlias, lib: Library): string {
    lib.nameWithSuffix(name, alias.Name() + "-cert")
  }

  /** Each alias gets its own suffix, so distinct aliases never share a default name suffix. */
  lemma {:induction false} CertificateSuffixInjective(a: CertificateAlias, b: CertificateAlias)
    ensures a.Name() + "-cert" == b.Name() + "-cert" <==> a == b
  {
    SuffixCancels(a.Name(), b.Name(), "-cert");
    if a != b {
      assert a.Name()[0] != b.Name()[0];
    }
  }

  /**
   When NameWithSuffix is injective in its suffix, the three default certificate
   names of one object (those setDefaultTLSConfig fills in) are pairwise distinct.
   */
  lemma {:induction false} CertificateNamesDistinct(name: string, a: CertificateAlias, b: CertificateAlias, lib: Library)
    requires forall n, x, y :: lib.nameWithSuffix(n, x) == lib.nameWithSuffix(n, y) ==> x == y
    ensures CertificateName(name, a, lib) == CertificateName(name, b, lib) <==> a == b
  {
    CertificateSuffixInjective(a, b);
  }

  /**
   The TLS config after setDefaultTLSConfig on an object named `name`: untouched
   without a TLS config or an issuer; otherwise the missing secret names are filled
   for the server, client and metrics-exporter certificates, in that order.
   */
  function DefaultedTLS(tls: Option<TLSConfig>, name: string, lib: Library): (r: Option<TLSConfig>)
    ensures tls.None? || tls.value.issuerRef.None? ==> r == tls
    ensures tls.Some? && tls.value.issuerRef.Some? ==>
      r.Some? && r.value.issuerRef == tls.value.issuerRef &&
      var afterServer := lib.setMissingSecretNameForCertificate(
        tls.value.certificates, ServerCert.Name(), CertificateName(name, ServerCert, lib));
      var afterClient := lib.setMissingSecretNameForCertificate(
        afterServer, ClientCert.Name(), CertificateName(name, ClientCert, lib));
      r.value.certificates == lib.setMissingSecretNameForCertificate(
        afterClient, MetricsExporterCert.Name(), CertificateName(name, MetricsExporterCert, lib))
  {
    if tls.None? || tls.value.issuerRef.None? then
      tls
    else
      var certs := tls.value.certificates;
      var certs1 := lib.setMissingSecretNameForCertificate(certs, ServerCert.Name(), CertificateName(name, ServerCert, lib));
      var certs2 := lib.setMissingSecretNameForCertificate(certs1, ClientCert.Name(), CertificateName(name, ClientCert, lib));
      var certs3 := lib.setMissingSecretNameForCertificate(
        certs2, MetricsExporterCert.Name(), CertificateName(name, MetricsExporterCert, lib));
      Some(tls.value.(certificates := certs3))
  }

  class PgBouncer {
    var meta: ObjectMeta
    var spec: PgBouncerSpec

    constructor (meta: ObjectMeta, spec: PgBouncerSpec)
      ensures this.meta == meta && this.spec == spec
    {
      this.meta := meta;
      this.spec := spec;
    }

    function OffshootName(): string
      reads this
    {
      meta.name
    }

    /** Exactly two selector labels: the database name and the PgBouncer kind. */
    function OffshootSelectors(): (r: Labels)
      reads this
      ensures r.Keys == {LabelDatabaseName, LabelDatabaseKind} && |r| == 2
      ensures r[LabelDatabaseName] == meta.name && r[LabelDatabaseKind] == ResourceKindPgBouncer
    {
      map[LabelDatabaseName := meta.name, LabelDatabaseKind := ResourceKindPgBouncer]
    }

    /** The labels OffshootLabels passes to FilterKeys: the selectors plus five recommended labels. */
    ghost predicate IsUnfilteredOffshootLabels(out: Labels)
      reads this
    {
      && out.Keys == {LabelDatabaseName, LabelDatabaseKind, NameLabelKey, InstanceLabelKey,
                      ComponentLabelKey, VersionLabelKey, ManagedByLabelKey}
      && out[LabelDatabaseName] == meta.name
      && out[LabelDatabaseKind] == ResourceKindPgBouncer
      && out[NameLabelKey] == ResourceSingularPgBouncer
      && out[InstanceLabelKey] == meta.name
      && out[ComponentLabelKey] == ComponentConnectionPooler
      && out[VersionLabelKey] == spec.version
      && out[ManagedByLabelKey] == GenericKey
    }

    method OffshootLabels(lib: Library) returns (r: Labels)
      ensures exists out :: IsUnfilteredOffshootLabels(out) && r == lib.filterKeys(GenericKey, out, meta.labels)
    {
      var out := OffshootSelectors();
      out := out[NameLabelKey := ResourceSingularPgBouncer];
      out := out[InstanceLabelKey := meta.name];
      out := out[ComponentLabelKey := ComponentConnectionPooler];
      out := out[VersionLabelKey := spec.version];
      out := out[ManagedByLabelKey := GenericKey];
      assert IsUnfilteredOffshootLabels(out);
      r := lib.filterKeys(GenericKey, out, meta.labels);
    }

    function ServiceName(): string
      reads this
    {
      OffshootName()
    }

    /** ServiceName of the stats accessor (pgbouncerStatsService). */
    function StatsServiceName(): string
      reads this
    {
      OffshootName() + "-stats"
    }

    /** ServiceMonitorName of the stats accessor. */
    function ServiceMonitorName(): string
      reads this
    {
      StatsServiceName()
    }

    /** The filtered selectors, with the role label set to the stats role. */
    method StatsServiceLabels(lib: Library) returns (r: Labels)
      ensures LabelRole in r && r[LabelRole] == RoleStats
      ensures var filtered := lib.filterKeys(GenericKey, OffshootSelectors(), meta.labels);
        r.Keys == filtered.Keys + {LabelRole} &&
        forall k :: k in filtered && k != LabelRole ==> r[k] == filtered[k]
    {
      r := lib.filterKeys(GenericKey, OffshootSelectors(), meta.labels);
      r := r[LabelRole := RoleStats];
    }

    function GetMonitoringVendor(lib: Library): (r: string)
      reads this
      ensures spec.monitor.None? ==> r == ""
      ensures spec.monitor.Some? ==> r == lib.vendor(spec.monitor.value.agent)
    {
      if spec.monitor.Some? then lib.vendor(spec.monitor.value.agent) else ""
    }

    function ReplicasServiceName(): string
      reads this
    {
      meta.name + "-replicas"
    }

    /** Fills the missing certificate secret names in place when a TLS issuer is set. */
    method SetDefaultTLSConfig(lib: Library)
      modifies this
      ensures meta == old(meta)
      ensures spec == old(spec).(tls := DefaultedTLS(old(spec.tls), old(meta.name), lib))
      ensures old(spec.tls).None? || old(spec.tls).value.issuerRef.None? ==> spec == old(spec)
    {
      if spec.tls.None? || spec.tls.value.issuerRef.None? {
        return;
      }
      spec := spec.(tls := Some(spec.tls.value.(certificates := lib.setMissingSecretNameForCertificate(
        spec.tls.value.certificates, ServerCert.Name(), CertificateName(meta.name, ServerCert, lib)))));
      spec := spec.(tls := Some(spec.tls.value.(certificates := lib.setMissingSecretNameForCertificate(
        spec.tls.value.certificates, ClientCert.Name(), CertificateName(meta.name, ClientCert, lib)))));
      spec := spec.(tls := Some(spec.tls.value.(certificates := lib.setMissingSecretNameForCertificate(
        spec.tls.value.certificates, MetricsExporterCert.Name(), CertificateName(meta.name, MetricsExporterCert, lib)))));
    }
  }

  /**
   The service names of one PgBouncer: the primary service is the object's name,
   the replicas and stats services add a suffix, and the three never coincide.
   */
  lemma ServiceNames(p: PgBouncer)
    ensures p.ServiceName() == p.OffshootName() == p.meta.name
    ensures p.ReplicasServiceName() == p.meta.name + "-replicas"
    ensures p.ServiceMonitorName() == p.StatsServiceName() == p.meta.name + "-stats"
    ensures p.ServiceName() != p.ReplicasServiceName()
    ensures p.ServiceName() != p.StatsServiceName()
    ensures p.ReplicasServiceName() != p.StatsServiceName()
  {
  }

  /** Each suffixed service name determines the object's name. */
  lemma {:induction false} ServiceNamesInjective(p: PgBouncer, q: PgBouncer)
    ensures p.ReplicasServiceName() == q.ReplicasServiceName() <==> p.meta.name == q.meta.name
    ensures p.StatsServiceName() == q.StatsServiceName() <==> p.meta.name == q.meta.name
  {
    SuffixCancels(p.meta.name, q.meta.name, "-replicas");
    SuffixCancels(p.meta.name, q.meta.name, "-stats");
  }

  /**
   Defaults a PgBouncer in place: a nil receiver is left alone; otherwise only
   the TLS certificates may change (see DefaultedTLS).
   */
  method SetDefaults(p: PgBouncer?, lib: Library)
    modifies p
    ensures p != null ==> p.meta == old(p.meta)
    ensures p != null ==> p.spec == old(p.spec).(tls := DefaultedTLS(old(p.spec.tls), old(p.meta.name), lib))
  {
    if p == null {
      return;
    }
    p.SetDefaultTLSConfig(lib);
  }

  /**
   The secret name of a certificate alias; fails (panics in the source) for a
   nil receiver, a missing TLS config or an alias without a secret name.
   */
  function MustCertSecretName(p: PgBouncer?, alias: CertificateAlias, lib: Library): (r: Result<string, Panic>)
    reads p
    ensures r.Ok? <==>
      p != null && p.spec.tls.Some? && lib.getCertificateSecretName(p.spec.tls.value.certificates, alias.Name()).Some?
    ensures r.Ok? ==> Some(r.value) == lib.getCertificateSecretName(p.spec.tls.value.certificates, alias.Name())
    ensures p == null ==> r == Err(MissingDatabase)
    ensures p != null && p.spec.tls.None? ==> r == Err(MissingTLSSpec(p.meta.namespace, p.meta.name))
    ensures p != null && p.spec.tls.Some? && r.Err? ==> r == Err(MissingSecretName(p.meta.namespace, p.meta.name, alias))
  {
    if p == null then
      Err(MissingDatabase)
    else if p.spec.tls.None? then
      Err(MissingTLSSpec(p.meta.namespace, p.meta.name))
    else
      match lib.getCertificateSecretName(p.spec.tls.value.certificates, alias.Name())
      case Some(name) => Ok(name)
      case None => Err(MissingSecretName(p.meta.namespace, p.meta.name, alias))
  }
}
