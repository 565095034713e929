# Dormant databases and KubeDB resource helpers, in Dafny

This project models three pieces of a KubeDB Redis operator:

- The dormant-database lifecycle of the Redis controller. A deleted Redis is archived as a
  DormantDatabase record: `createDormantDatabase` builds the record and creates it. When a Redis
  is created again under the same name, `deleteMatchingDormantDatabase` looks the record up, patches
  its `WipeOut` flag to false, and deletes it in the background. `WaitUntilPaused` is the
  termination gate: it waits for the pods and then for the services of the database to be gone.
- The Postgres helpers: offshoot selectors and labels, service names, `SetDefaults`,
  `GetSecrets` and the monitoring vendor.
- The PgBouncer helpers: offshoot selectors and labels, service names, the TLS defaulting in
  `SetDefaults`/`setDefaultTLSConfig`, and `MustCertSecretName`.

Modules:

- `Kube` (kube.dfy) holds object metadata, the API error kinds (`NotFound`, `AlreadyExists`, …)
  and the label-key constants. It also holds `Library`, a record of the library helpers whose
  bodies are not modelled: `FilterKeys`, `NameWithSuffix`, `SetMissingSecretNameForCertificate`,
  `GetCertificateSecretName` and the agent's `Vendor()`. Every member that calls one of them takes
  a `Library` argument, so the helpers stay uninterpreted.
- `PostgresHelpers` (postgres.dfy) and `PgBouncerHelpers` (pgbouncer.dfy) each hold a class for
  the resource. The class's `meta` and `spec` fields are what `SetDefaults` updates in place. A
  nil receiver is a `null` argument of a module-level method.
- `Dormant` (dormant.dfy) holds the records and the archive builder. It also holds the record
  store: pure step functions, plus the `DormantStore` class. The class keeps the records in a map
  keyed by (namespace, name) and a ghost log of the requests issued. Each delete request in the log
  records whether its target was armed, meaning `WipeOut` was true when the delete arrived.
- `DormantController` (controller.dfy) holds the `Controller` class with the three controller
  operations. Each operation is proved against a pure specification: `ResurrectionGuard`,
  `PauseSpec`, or `CreateStep` of the built record. The module also holds lemmas over whole
  sequences of archive and resurrection passes.

Errors the API server reports are inputs. Each store request takes a `fault: Option<ApiError>`:
`Some(e)` means the server answered with `e` and changed nothing, and `None` means the request
reached the store. The two deletion waiters are abstract functions from the database's key to
success or an error.

## Model

| member | source | states |
|---|---|---|
| `Dormant.BuildDormantDatabase` | pkg/controller/dormant_database.go:58-81 | The record has the Redis object's name and namespace. Its labels are exactly {kind label ↦ "Redis"}, and its own annotations and creation timestamp are left empty. Its origin metadata is the Redis metadata (name, namespace, labels, annotations, creation timestamp). Only the Redis variant of the origin spec is set, and it equals the Redis spec. `WipeOut` is false. The record is well formed for its key. |
| `Dormant.ArchiveRoundTrip` | pkg/controller/dormant_database.go:68-79 | The name, namespace, labels, annotations, creation timestamp and spec of the Redis can be rebuilt from its archive. |
| `Dormant.GetStep` | pkg/controller/dormant_database.go:33 | Get returns the stored record, or NotFound when the key is absent; an injected error is returned as is. |
| `Dormant.CreateStep` | pkg/controller/dormant_database.go:83 | Create succeeds iff there is no fault and no record under the record's own key. On success the store gains exactly that record. Creating over an existing record gives AlreadyExists and leaves the store, including that record, unchanged. |
| `Dormant.PatchWipeOutStep` | pkg/controller/dormant_database.go:42-47 | The patch succeeds iff the record exists and there is no fault. It changes only that record's `WipeOut`. A missing record gives NotFound. A failed patch changes nothing. |
| `Dormant.DeleteStep` | pkg/controller/dormant_database.go:50-51 | Delete removes exactly the record under the key. A missing record gives NotFound. A failed delete changes nothing. |
| `Dormant.StepsKeepWellFormed` | pkg/controller/dormant_database.go:42-83 | Create of a built archive, a WipeOut patch and a delete each keep every stored record well formed. Well formed means: keyed by its own namespace and name, exactly one origin variant, and a kind label naming that variant. |
| `Dormant.DormantStore.Get` | pkg/controller/dormant_database.go:33 | The result is `GetStep` on the current records. The records are unchanged, and one Get request is logged. |
| `Dormant.DormantStore.Create` | pkg/controller/dormant_database.go:83 | The records and result are `CreateStep` on the old records, and one Create request is logged. |
| `Dormant.DormantStore.PatchWipeOut` | pkg/controller/dormant_database.go:42-45 | The records and result are `PatchWipeOutStep` on the old records, and one patch request is logged. |
| `Dormant.DormantStore.Delete` | pkg/controller/dormant_database.go:50-51 | The records and outcome are `DeleteStep` on the old records. The logged delete request records whether its target was armed. |
| `DormantController.ResurrectionGuard` | pkg/controller/dormant_database.go:31-56 | The first request is always the Get. NotFound from Get gives success with no other request and an unchanged store. Any other Get error is returned, with no patch and no delete. A failed patch is returned and nothing is deleted. A delete is issued only right after the WipeOut=false patch of the same key, and never reaches an armed record. NotFound from Delete is success and any other Delete error is returned. A failed delete leaves the disarmed record in the store. After the patch, the record is no longer armed. Other keys are untouched. |
| `DormantController.PauseSpec` | pkg/controller/dormant_database.go:12-29 | The pod wait always runs first. If it fails, its error is returned and the service wait does not run. Otherwise the service wait's outcome is returned. The gate succeeds iff both waits succeed. |
| `DormantController.Controller.WaitUntilPaused` | pkg/controller/dormant_database.go:12-29 | The result and the waits issued are those of `PauseSpec` for the Redis stub named after the record (its namespace and offshoot name). |
| `DormantController.Controller.DeleteMatchingDormantDatabase` | pkg/controller/dormant_database.go:31-56 | The outcome, the new records and the requests appended to the log are exactly those of `ResurrectionGuard` on the old records. |
| `DormantController.Controller.CreateDormantDatabase` | pkg/controller/dormant_database.go:58-84 | The result and new records are `CreateStep` of the built archive on the old records, and one Create request is logged. |
| `DormantController.GuardTwiceOnAbsent` | pkg/controller/dormant_database.go:33-39 | With no record under the key, two error-free guard passes each succeed, change nothing, and issue only a Get. |
| `DormantController.ResurrectArmedRecord` | pkg/controller/dormant_database.go:41-55 | A record with WipeOut=true is handled in three requests: Get, then the patch to false, then a delete that reaches the disarmed record. The record is removed and the pass succeeds. |
| `DormantController.GuardIdempotent` | pkg/controller/dormant_database.go:31-56 | An error-free pass succeeds and removes the record. A second pass then succeeds, changes nothing, and issues only a Get. |
| `DormantController.RunKeepsInvariants` | pkg/controller/dormant_database.go:31-84 | Consider any sequence of archive and resurrection passes, with any errors from the API server. Every stored record stays well formed. No delete ever reaches an armed record. Every delete directly follows the patch that disarms its record. |
| `DormantController.ArchiveThenResurrect` | pkg/controller/dormant_database.go:31-84 | Archiving a Redis whose key is free and then resurrecting it, without errors, restores the original store. The requests are exactly Create, Get, patch to false, and a delete of the disarmed record. |
| `PostgresHelpers.DefaultedInit` | vendor/kubedb.dev/apimachinery/apis/kubedb/v1alpha1/postgres_helpers.go:157-165 | When Init, PostgresWAL and PITR are all present and TargetInclusive is nil, it becomes true. An existing value is kept, and without all three nothing changes. |
| `PostgresHelpers.DefaultedSpec` | vendor/kubedb.dev/apimachinery/apis/kubedb/v1alpha1/postgres_helpers.go:150-178 | An empty storage type becomes Durable and an empty termination policy becomes Delete. A nil leader election becomes {15, 10, 2} seconds. An empty service account becomes the offshoot name. PITR is defaulted as in `DefaultedInit`. Non-empty and non-nil values are kept, and version, secret and monitor are unchanged. |
| `PostgresHelpers.DefaultingCompletes` | vendor/kubedb.dev/apimachinery/apis/kubedb/v1alpha1/postgres_helpers.go:150-178 | With a non-empty name, defaulting leaves no defaultable field empty. A spec with none empty is a fixpoint. |
| `PostgresHelpers.DefaultingIdempotent` | vendor/kubedb.dev/apimachinery/apis/kubedb/v1alpha1/postgres_helpers.go:150-178 | Defaulting twice equals defaulting once. |
| `PostgresHelpers.SetDefaults` | vendor/kubedb.dev/apimachinery/apis/kubedb/v1alpha1/postgres_helpers.go:145-179 | A nil receiver is left unchanged; the method's frame is only the receiver. Otherwise the metadata is kept and the spec becomes `DefaultedSpec` of the old spec with the object's name. |
| `PostgresHelpers.GetSecrets` | vendor/kubedb.dev/apimachinery/apis/kubedb/v1alpha1/postgres_helpers.go:183-193 | A nil spec or a nil database secret gives no names. Otherwise the result is exactly the one-element list of the secret name. |
| `PostgresHelpers.Postgres.OffshootSelectors` | vendor/kubedb.dev/apimachinery/apis/kubedb/v1alpha1/postgres_helpers.go:43-48 | There are exactly two entries: the database-name key maps to the name and the kind key maps to "Postgres". |
| `PostgresHelpers.Postgres.OffshootLabels` | vendor/kubedb.dev/apimachinery/apis/kubedb/v1alpha1/postgres_helpers.go:50-58 | The result is `FilterKeys` of the object's labels over a map with exactly seven entries: the two selectors, plus name ↦ "postgres", version ↦ spec version, instance ↦ name, component ↦ "database" and managed-by ↦ "kubedb.com". |
| `PostgresHelpers.Postgres.StatsServiceLabels` | vendor/kubedb.dev/apimachinery/apis/kubedb/v1alpha1/postgres_helpers.go:128-132 | The role key always maps to the stats role. Otherwise the result is the filtered selectors, with the same keys plus the role key and the same values. |
| `PostgresHelpers.Postgres.GetMonitoringVendor` | vendor/kubedb.dev/apimachinery/apis/kubedb/v1alpha1/postgres_helpers.go:134-139 | The result is "" without a monitor; otherwise it is the agent's vendor. |
| `PostgresHelpers.ServiceNames` | vendor/kubedb.dev/apimachinery/apis/kubedb/v1alpha1/postgres_helpers.go:76-143 | ServiceName equals OffshootName, which equals the name. The replicas service is name + "-replicas". The service monitor and stats service are name + "-stats". The three names are pairwise distinct. |
| `PostgresHelpers.ServiceNamesInjective` | vendor/kubedb.dev/apimachinery/apis/kubedb/v1alpha1/postgres_helpers.go:104-143 | Two objects have the same replicas (or stats) service name iff they have the same name. |
| `PgBouncerHelpers.PgBouncer.OffshootSelectors` | vendor/kubedb.dev/apimachinery/apis/kubedb/v1alpha1/pgbouncer_helpers.go:43-48 | There are exactly two entries: the database-name key maps to the name and the kind key maps to "PgBouncer". |
| `PgBouncerHelpers.PgBouncer.OffshootLabels` | vendor/kubedb.dev/apimachinery/apis/kubedb/v1alpha1/pgbouncer_helpers.go:50-58 | The result is `FilterKeys` of the object's labels over a map with exactly seven entries: the two selectors, plus name ↦ "pgbouncer", instance ↦ name, component ↦ "connection-pooler", version ↦ spec version and managed-by ↦ `GenericKey`. |
| `PgBouncerHelpers.PgBouncer.StatsServiceLabels` | vendor/kubedb.dev/apimachinery/apis/kubedb/v1alpha1/pgbouncer_helpers.go:128-132 | The role key always maps to the stats role. Otherwise the result is the filtered selectors, with the same keys plus the role key and the same values. |
| `PgBouncerHelpers.PgBouncer.GetMonitoringVendor` | vendor/kubedb.dev/apimachinery/apis/kubedb/v1alpha1/pgbouncer_helpers.go:134-139 | The result is "" without a monitor; otherwise it is the agent's vendor. |
| `PgBouncerHelpers.ServiceNames` | vendor/kubedb.dev/apimachinery/apis/kubedb/v1alpha1/pgbouncer_helpers.go:76-143 | ServiceName equals OffshootName, which equals the name. The replicas service is name + "-replicas". The service monitor and stats service are name + "-stats". The three names are pairwise distinct. |
| `PgBouncerHelpers.ServiceNamesInjective` | vendor/kubedb.dev/apimachinery/apis/kubedb/v1alpha1/pgbouncer_helpers.go:104-143 | Two objects have the same replicas (or stats) service name iff they have the same name. |
| `PgBouncerHelpers.CertificateNamesDistinct` | vendor/kubedb.dev/apimachinery/apis/kubedb/v1alpha1/pgbouncer_helpers.go:164-167 | `CertificateName` passes `alias + "-cert"` as the suffix to `NameWithSuffix`. When that helper is injective in its suffix, distinct aliases get distinct default names, so the three names `setDefaultTLSConfig` fills in are pairwise distinct. |
| `PgBouncerHelpers.DefaultedTLS` | vendor/kubedb.dev/apimachinery/apis/kubedb/v1alpha1/pgbouncer_helpers.go:154-167 | A nil TLS config or a nil issuer leaves the config unchanged. Otherwise the issuer is kept, and the certificates get their missing secret names filled. The fill runs for server, then client, then metrics-exporter, and each default name is `NameWithSuffix(name, alias + "-cert")`. |
| `PgBouncerHelpers.PgBouncer.SetDefaultTLSConfig` | vendor/kubedb.dev/apimachinery/apis/kubedb/v1alpha1/pgbouncer_helpers.go:154-162 | The metadata is kept. The spec changes only in its TLS config, which becomes `DefaultedTLS` of the old one. Without a TLS config or an issuer, the spec is unchanged. |
| `PgBouncerHelpers.SetDefaults` | vendor/kubedb.dev/apimachinery/apis/kubedb/v1alpha1/pgbouncer_helpers.go:145-152 | A nil receiver is left unchanged; the method's frame is only the receiver. Otherwise the metadata is kept and only the TLS config changes, as in `DefaultedTLS`. |
| `PgBouncerHelpers.MustCertSecretName` | vendor/kubedb.dev/apimachinery/apis/kubedb/v1alpha1/pgbouncer_helpers.go:170-181 | It succeeds iff the receiver is non-nil, TLS is set and a secret name exists for the alias, and then it returns that name. Otherwise it fails with the matching panic: missing database, missing TLS spec, or missing secret name. |

## Left out

- Polling inside the two deletion waiters (interval, timeout, listing pods and services by selector): each waiter is an abstract function giving success or an error.
- The selectors the waits use come from the Redis helpers `StatefulSetLabels` and `OffshootLabels`, which are not part of this model. A wait is identified by the Redis stub's namespace and name. `DormantDatabase.OffshootName` is taken to be the record's name.
- The Kubernetes client transport. Each request's error is an input, not a modelled network.
- The conflict-retry loop and the empty-patch shortcut inside `PatchDormantDatabase` are not part of this model. The patch is a single request that sets `WipeOut` on the record under the looked-up key.
- The patch addresses the object returned by Get. The model addresses the key that Get was asked for; the two agree for well-formed stores.
- Background-cascade semantics of delete are not modelled. A delete is a removal from the map.
- Concurrency is left out: the single-flight-per-key guarantee of the scheduler, and an external cleanup finalizer racing on `WipeOut`.
- No lemma says that a record is only created after `WaitUntilPaused` succeeded. That ordering belongs to the caller, which is not part of this model.
- CRD registration (`CustomResourceDefinition`), `AppBindingMeta` and the `Type()` strings, the `StatsService()` accessor objects with their `Path`/`Scheme`, `ResourceShortCode`/`ResourceKind`/`ResourceSingular`/`ResourcePlural`, and `Monitor.SetDefaults`. These are foreign calls or constant plumbing. In the model, the monitor is unchanged; the `Monitor.SetDefaults` call is not modelled.
- The bodies of `FilterKeys`, `NameWithSuffix`, `SetMissingSecretNameForCertificate`, `GetCertificateSecretName` and `Vendor()` are library code outside this model, kept uninterpreted.
- Aliasing through pointers is not modelled: the shared `PITR` pointer in Postgres `SetDefaults`, the `&redis.Spec` pointer in the archive, and the in-place mutation of the map passed to `FilterKeys`. Values are copied instead.
- Go's nil map is modelled as the empty map, and a nil slice as the empty sequence. `GetSecrets` returns a nil slice both for a nil spec and for a nil database secret, so both give `[]`.
- `MustCertSecretName` panics; the model returns an error value naming the panic.
- ArchiveRoundTrip: holds only for the fields the model has. The model's `ObjectMeta` keeps name, namespace, labels, annotations and creation timestamp, and `Redis` has no status. UID, resourceVersion, generation, deletionTimestamp, ownerReferences, finalizers and the Redis status are not modelled; the archive drops them.
- `CertificateAlias` covers the three aliases the helpers use, not arbitrary strings.
- The label-key and kind constants are defined in files that are not part of this model. Their values follow the KubeDB and kmodules conventions; only their distinctness matters to the proofs.
- `OriginSpec` is reduced to its Redis and Postgres variants; the other database kinds are not modelled, so `ExactlyOneVariant` compares only those two.
- The Redis spec is reduced to three fields (version, storage type, termination policy). The archive copies it whole, so its contents do not matter.
- The Postgres and PgBouncer methods that dereference a nil receiver without a check (`GetMonitoringVendor`, `CertificateName`) are modelled on non-null objects only.
