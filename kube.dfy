/**
 Kubernetes object metadata, the error kinds of the API server, and the
 helper functions of the kmodules libraries that the KubeDB helpers call.
 The bodies of those library helpers are not part of this model: they are
 carried as uninterpreted functions in a `Library` value.
 */
module Kube {

  datatype Option<+T> = None | Some(value: T)

  datatype Result<+T, +E> = Ok(value: T) | Err(error: E)

  /** Error kinds the API server reports (k8s.io/apimachinery/pkg/api/errors). */
  datatype ApiError = NotFound | AlreadyExists | Conflict | Timeout | Other(reason: string)

  /** The outcome of a Go call that returns only an `error`: nil is `Pass`. */
  datatype Outcome = Pass | Fail(error: ApiError)

  type Labels = map<string, string>

  /** The part of metav1.ObjectMeta that the modelled code reads or copies. */
  datatype ObjectMeta = ObjectMeta(
    name: string,
    namespace: string,
    labels: Labels,
    annotations: Labels,
    creationTimestamp: int)

  /** Namespaced objects are addressed by namespace and name. */
  datatype Key = Key(namespace: string, name: string)

  function KeyOf(m: ObjectMeta): Key {
    Key(m.namespace, m.name)
  }

  // KubeDB label keys and values (kubedb.dev/apimachinery constants).
  const GroupName := "kubedb.com"
  const GenericKey := "kubedb.com"
  const LabelDatabaseKind := "kubedb.com/kind"
  const LabelDatabaseName := "kubedb.com/name"
  const LabelRole := "kubedb.com/role"
  const RoleStats := "stats"

  // Recommended application labels (kmodules meta_util).
  const NameLabelKey := "app.kubernetes.io/name"
  const InstanceLabelKey := "app.kubernetes.io/instance"
  const VersionLabelKey := "app.kubernetes.io/version"
  const ComponentLabelKey := "app.kubernetes.io/component"
  const ManagedByLabelKey := "app.kubernetes.io/managed-by"

  /** kmapi.CertificateSpec, reduced to the alias and the secret name. */
  datatype CertificateSpec = CertificateSpec(alias: string, secretName: string)

  /** mona.AgentSpec: the monitoring agent named in a database spec. */
  datatype AgentSpec = AgentSpec(agent: string)

  /**
   Library helpers whose bodies are not modelled:
   meta_util.FilterKeys, meta_util.NameWithSuffix,
   kmapi.SetMissingSecretNameForCertificate, kmapi.GetCertificateSecretName
   (its `(name, ok)` pair becomes an Option) and AgentType.Vendor().
   */
  datatype Library = Library(
    filterKeys: (string, Labels, Labels) -> Labels,
    nameWithSuffix: (string, string) -> string,
    setMissingSecretNameForCertificate: (seq<CertificateSpec>, string, string) -> seq<CertificateSpec>,
    getCertificateSecretName: (seq<CertificateSpec>, string) -> Option<string>,
    vendor: string -> string)

  /** Appending a fixed suffix is injective: two names with the same suffixed form are equal. */
  lemma {:induction false} SuffixCancels(a: string, b: string, suffix: string)
    ensures a + suffix == b + suffix <==> a == b
  {
    if a + suffix == b + suffix {
      assert |a| == |b|;
      assert a == (a + suffix)[..|a|];
      assert b == (b + suffix)[..|b|];
    }
  }
}
