# MyApp reconciler, modelled in Dafny

This project models the reconcile loop of a Kubernetes operator for a custom
resource `MyApp`. A `MyApp` declares an image, an optional replica count, a
container port and a service port. One reconcile of one resource name goes
through the following steps:

- It reads the primary `MyApp`. If the primary is missing or being deleted, the
  reconcile stops with success.
- It reads the Deployment of the same name.
- If there is no Deployment, it creates the synthesized Deployment and then the
  synthesized Service.
- If the Deployment exists, it decodes the last-applied spec from the primary's
  `"spec"` annotation. An undecodable snapshot is an error. When the snapshot
  differs from the current spec (drift), the reconcile overwrites the live
  Deployment's spec, then the live Service's spec. The Service keeps its
  platform-assigned `ClusterIP`.
- It ends by writing the current spec into the `"spec"` annotation and updating
  the primary.

Layout, one module per file:

- `api.dfy`: `Wrappers.Option`, plus `Api`, the fields of MyApp, Deployment and
  Service that the reconciler touches. `Int32` stands for Go's `int32`.
- `snapshot.dfy`: `Snapshot`, an abstract codec for the snapshot annotation
  (`Encode`, `Decode`) with its round-trip and canonical-form proofs.
- `synthesis.dfy`: `Synthesis`, the pure synthesizers `NewDeployment` and
  `NewService`, and the lemmas relating them.
- `store.dfy`: `Store`, the cluster store as a value. It holds three maps keyed
  by namespaced name and a trace of every call. Each call is a pure function.
  Transient failures come from an environment oracle: the set of trace positions
  whose calls fail. The store refuses a change to a Deployment's selector, as
  the platform does. It also refuses an update that changes an assigned
  `ClusterIP`, blank included. That rule is stricter than an API server that
  fills a blank address in from the stored object, and it is the rule the
  address carry at lines 125-127 guards against.
- `client.dfy`: `Client.ClusterClient`, the same store as an object whose
  methods change its fields in place. Each method is proved to do what the
  matching `Store` function says.
- `controller.dfy`: `Controller`. `Run` is one reconcile as a function of the
  store and the environment. `MyAppReconciler.Reconcile` is the imperative
  method, written step by step like the Go function, and is proved to return
  exactly `Run`'s outcome and leave exactly `Run`'s store.
- `frame.dfy`: `Frame`, the relation `Evolves`. It says that a reconcile only
  appends to the trace, deletes nothing and touches only the requested name. It
  also says that no Deployment selector and no virtual address changes, that
  every Deployment the reconcile creates and every Service it writes gets
  {app: name} as its selector, and that every object stays under its own name. It is proved call by call, then phase by phase,
  then for the whole of `Run`.
- `properties.dfy`: `Properties`, one lemma per behaviour of the reconcile,
  including the idempotence of two reconciles in a row.

The environment's choices are parameters (`Store.Env`):

- which calls fail transiently;
- the address the platform gives a new Service.

Three points about what the code does, which the model keeps as written:

- A second reconcile with no external change still ends with an update of the
  primary (line 141), so it is not free of writes. The model keeps that update.
  `Properties.SecondReconcileWritesNoDependents` proves that the second run
  writes no Deployment and no Service, and that its write of the primary stores
  the same object again.
- The drift update replaces the whole Deployment spec with the synthesized one
  (line 114), selector included; the selector is not copied from the live
  Deployment. The selector is unchanged only because the synthesized one is
  canonical. If the live Deployment carries a different selector, the platform
  refuses the update. `Properties.NoInvalidUpdate`,
  `Properties.UpdateDependentsNeverInvalid`, `Properties.DriftUpdatesDependents`
  and `Properties.MissingServiceOnDrift` assume a canonical live selector.
- On any drift both dependents are updated (lines 109-130), even when no port
  changed. The model does the same.

## Model

| member | source | states |
|---|---|---|
| Snapshot.DecodeEncode | internal/controller/myapp_controller.go:135 | the snapshot written at the persist step decodes back to exactly the spec it was made from |
| Snapshot.EncodeDecode | internal/controller/myapp_controller.go:101 | a string that decodes is the encoding of the spec it decodes to, so a decoded snapshot is always one the reconciler could have written |
| Snapshot.EncodeInjective | internal/controller/myapp_controller.go:107 | two specs with the same snapshot are equal, so comparing the decoded snapshot with the spec detects every change |
| Snapshot.Encode | internal/controller/myapp_controller.go:135 | the marshalled spec, which cannot fail; what it means is stated by `Snapshot.DecodeEncode` (it decodes back to the spec) and `Snapshot.EncodeInjective` (different specs give different snapshots) |
| Snapshot.Decode | internal/controller/myapp_controller.go:101 | a string too short to be a snapshot, the empty string of a missing annotation among them, fails to decode |
| Snapshot.ValueOfDigits | internal/controller/myapp_controller.go:135 | the base-256 digits the encoder writes for a number read back as that number |
| Snapshot.DigitsOfValue | internal/controller/myapp_controller.go:101 | digits the decoder accepts are the canonical digits of the number they denote |
| Synthesis.ControllerRef | internal/controller/myapp_controller.go:161-165 | the owner reference of both dependents: API version jk.jk.com/v1, the app's kind, name and uid, with controller and blockOwnerDeletion both set, as `metav1.NewControllerRef` builds it (also at lines 203-207) |
| Synthesis.NewDeployment | internal/controller/myapp_controller.go:148-191 | kind apps/v1 Deployment under the app's own name, with the app as its one controlling owner; replicas are the spec's; selector and pod labels are both {app: name}, so the selector matches the template; exactly one container, named after the app, with the spec's image and one port "http" at the spec's container port |
| Synthesis.NewService | internal/controller/myapp_controller.go:193-224 | kind v1 Service under the app's own name, owned by the app; type NodePort; exactly one TCP port with Port = servicePort and TargetPort = containerPort; selector {app: name}; no virtual address |
| Synthesis.ServiceRoutesToDeployment | internal/controller/myapp_controller.go:212-221 | the Service selects the Deployment's pods and forwards its one port to the port the one container declares |
| Synthesis.SelectorsDependOnlyOnName | internal/controller/myapp_controller.go:149-150 | the Deployment selector, the pod labels and the Service selector depend on the app's name alone |
| Synthesis.SpecsDependOnlyOnNameAndSpec | internal/controller/myapp_controller.go:168-222 | the synthesized Deployment and Service specs depend on nothing but the app's name and spec, its annotations in particular not |
| Controller.WithSnapshot | internal/controller/myapp_controller.go:136-140 | the annotations after persisting hold the snapshot under "spec", keep every other key and value, and a nil map becomes the singleton map |
| Controller.Run | internal/controller/myapp_controller.go:59-146 | one reconcile as a function of the store and the faults; its behaviour is stated by `Frame.RunEvolves` and the `Properties` lemmas, and `MyAppReconciler.Reconcile` is proved equal to it |
| Controller.ThenPersist | internal/controller/myapp_controller.go:134-145 | the persist step runs only after a successful phase; see `Frame.ThenPersistEvolves`, `Properties.PersistOnSuccess` and `Properties.FailedRunKeepsApps` |
| Controller.Bootstrap | internal/controller/myapp_controller.go:86-97 | the create phase; see `Properties.BootstrapOnMissingDeployment`, `Properties.BootstrapExample` and `Frame.BootstrapEvolves` |
| Controller.Converge | internal/controller/myapp_controller.go:99-107 | the decode-and-compare phase; see `Properties.DecodeFailureIsFatal`, `Properties.NoDriftNoDependentWrites` and `Frame.ConvergeEvolves` |
| Controller.UpdateDependents | internal/controller/myapp_controller.go:108-130 | the drift update; see `Properties.DriftUpdatesDependents`, `Properties.MissingServiceOnDrift`, `Properties.ServiceUpdateNeverInvalid` and `Frame.UpdateDependentsEvolves` |
| Controller.Persist | internal/controller/myapp_controller.go:141-143 | the update of the primary; see `Properties.PersistOnSuccess` and `Properties.PersistedIdempotent` |
| Controller.Persisted | internal/controller/myapp_controller.go:135-140 | the persisted primary keeps its type, spec and every metadata field but the annotations, and its "spec" annotation decodes back to its spec |
| Controller.Carried | internal/controller/myapp_controller.go:125-127 | the Service sent on drift keeps the live Service's metadata and address and takes the synthesized type, ports and selector |
| Controller.AnnotationValue | internal/controller/myapp_controller.go:101 | the annotation read of a possibly nil map; see `Properties.MissingSnapshotDoesNotDecode` |
| Store.GetApp | internal/controller/myapp_controller.go:68 | the primary read, which `Client.ClusterClient.GetApp` is proved to perform; see `Properties.TerminalNoOp` and `Properties.PrimaryReadFailure` |
| Store.GetDeployment | internal/controller/myapp_controller.go:82 | the Deployment read, performed by `Client.ClusterClient.GetDeployment` (also at line 111) |
| Store.GetService | internal/controller/myapp_controller.go:122 | the Service read, performed by `Client.ClusterClient.GetService` |
| Store.CreateDeployment | internal/controller/myapp_controller.go:89 | the Deployment create, performed by `Client.ClusterClient.CreateDeployment`; its frame is `Frame.CreateDeploymentEvolves` |
| Store.CreateService | internal/controller/myapp_controller.go:95 | the Service create, performed by `Client.ClusterClient.CreateService`; its frame is `Frame.CreateServiceEvolves` |
| Store.UpdateDeployment | internal/controller/myapp_controller.go:115 | the Deployment update, performed by `Client.ClusterClient.UpdateDeployment`; its frame is `Frame.UpdateDeploymentEvolves` |
| Store.UpdateService | internal/controller/myapp_controller.go:128 | the Service update, performed by `Client.ClusterClient.UpdateService`; its frame is `Frame.UpdateServiceEvolves` |
| Store.UpdateApp | internal/controller/myapp_controller.go:141 | the primary update, performed by `Client.ClusterClient.UpdateApp`; its frame is `Frame.UpdateAppEvolves` |
| Controller.MyAppReconciler.Reconcile | internal/controller/myapp_controller.go:59-146 | the step-by-step reconcile over the in-place store returns exactly the outcome of `Run` and leaves exactly its store, and keeps every object under its own name |
| Client.ClusterClient.GetApp | internal/controller/myapp_controller.go:68 | reads the primary: the object, NotFound, or the environment's transient failure; the call is recorded |
| Client.ClusterClient.GetDeployment | internal/controller/myapp_controller.go:82 | reads the Deployment: the object, NotFound, or a transient failure |
| Client.ClusterClient.GetService | internal/controller/myapp_controller.go:122 | reads the Service: the object, NotFound, or a transient failure |
| Client.ClusterClient.CreateDeployment | internal/controller/myapp_controller.go:89 | stores a new Deployment under its own name, or fails (transient, AlreadyExists) and changes nothing |
| Client.ClusterClient.CreateService | internal/controller/myapp_controller.go:95 | stores a new Service, giving it the platform's address when it has none, or fails and changes nothing |
| Client.ClusterClient.UpdateDeployment | internal/controller/myapp_controller.go:115 | replaces a Deployment, or fails (transient, NotFound, or Invalid when the selector would change) and changes nothing |
| Client.ClusterClient.UpdateService | internal/controller/myapp_controller.go:128 | replaces a Service, or fails (transient, NotFound, or Invalid when an assigned address would change) and changes nothing |
| Client.ClusterClient.UpdateApp | internal/controller/myapp_controller.go:141 | replaces the primary, or fails (transient, NotFound) and changes nothing |
| Frame.RunEvolves | internal/controller/myapp_controller.go:59-146 | under any faults a reconcile only appends to the trace, deletes nothing, changes only objects of the requested name, keeps every Deployment selector and every virtual address, gives every Deployment it creates and every Service it creates or rewrites the selector {app: name}, and keeps objects under their own names |
| Frame.BootstrapEvolves | internal/controller/myapp_controller.go:82-97 | the create phase keeps that frame |
| Frame.UpdateDependentsEvolves | internal/controller/myapp_controller.go:107-130 | the drift-update phase keeps that frame; that its Service update carries the live address forward is proved by `Properties.ServiceUpdateNeverInvalid` |
| Frame.ConvergeEvolves | internal/controller/myapp_controller.go:99-132 | the converge phase keeps that frame |
| Frame.ThenPersistEvolves | internal/controller/myapp_controller.go:134-145 | the persist step keeps that frame |
| Properties.RunOnLive | internal/controller/myapp_controller.go:76-99 | once both reads succeed on a live primary, a missing Deployment selects the create phase and a present one the converge phase, each followed by the persist step only if it succeeded |
| Properties.RunExtendsTrace | internal/controller/myapp_controller.go:59-146 | a reconcile only appends calls to the trace |
| Properties.TerminalNoOp | internal/controller/myapp_controller.go:68-78 | a missing primary or one with a deletion timestamp ends the reconcile with success after the single read, with no create and no update |
| Properties.PrimaryReadFailure | internal/controller/myapp_controller.go:68-73 | any other failure to read the primary is returned after that read and nothing else is attempted |
| Properties.BootstrapOnMissingDeployment | internal/controller/myapp_controller.go:82-97 | with no Deployment, the next call creates the synthesized Deployment; if that create fails the run ends there with nothing changed and no Service create; otherwise the Deployment is stored and the next call creates the Service; on success the Service holds the synthesized spec with the platform address and the primary the snapshot; no decode error can occur |
| Properties.BootstrapExample | internal/controller/myapp_controller.go:82-145 | image app:v1, two replicas, ports 8080 and 80 in an empty namespace: the first reconcile succeeds with a two-replica Deployment, a Service mapping 80 to 8080, and that spec stored as the snapshot |
| Properties.DecodeFailureIsFatal | internal/controller/myapp_controller.go:100-103 | with a Deployment present and a snapshot that does not decode, the result is the decode error after the two reads, and nothing is updated |
| Properties.MissingSnapshotDoesNotDecode | internal/controller/myapp_controller.go:101 | a nil annotation map or a missing "spec" key reads as "" and does not decode |
| Properties.NoDriftNoDependentWrites | internal/controller/myapp_controller.go:107 | when the snapshot equals the spec, the Deployments and Services are unchanged and the only write is the update of the primary; the run succeeds exactly when that update does |
| Properties.DriftUpdatesDependents | internal/controller/myapp_controller.go:107-130 | on drift, with no failures, the live Deployment's spec becomes the synthesized spec, the live Service's spec becomes the synthesized one with its ClusterIP kept, their metadata stays, the primary gets the new snapshot, and the calls are exactly the seven of that path |
| Properties.MissingServiceOnDrift | internal/controller/myapp_controller.go:119-124 | a Service missing at drift time is a NotFound error after the Deployment was updated, with the primary and so its stale snapshot untouched |
| Properties.ServiceUpdateNeverInvalid | internal/controller/myapp_controller.go:120-130 | the drift phase's Service update, which copies the live address into the synthesized spec, is never refused for changing the address, whatever the live address and the faults |
| Properties.NoServiceUpdateRefused | internal/controller/myapp_controller.go:125-128 | no reconcile, under any faults and with no condition on the live objects, has its Service update refused for changing the address |
| Properties.ClusterIPPreserved | internal/controller/myapp_controller.go:125-127 | under any faults and on any branch, every existing Service keeps its virtual address, and the reconcile never ends in a refused Service update |
| Properties.SelectorsStable | internal/controller/myapp_controller.go:114-126 | under any faults every Deployment keeps its selector, one the reconcile creates has the selector {app: name}, and every Service the reconcile creates or rewrites has the selector {app: name}, whatever selector the live Service had |
| Properties.UpdateDependentsNeverInvalid | internal/controller/myapp_controller.go:109-130 | the drift phase never has an update refused when the live Deployment's selector is canonical |
| Properties.NoInvalidUpdate | internal/controller/myapp_controller.go:114-128 | no reconcile has an update refused by the platform's immutability rules, provided the live selector is canonical |
| Properties.OnlyRequestedKeyChanges | internal/controller/myapp_controller.go:59-146 | nothing under any other name changes, no primary appears or disappears, and the store stays well keyed |
| Properties.PhasesFailAtLastCall | internal/controller/myapp_controller.go:89-143 | in each phase a transient failure is the outcome only of the last call issued |
| Properties.TransientFailureIsLastCall | internal/controller/myapp_controller.go:68-143 | a transient failure is returned at once: it is the last call of the reconcile, with no retry |
| Properties.PhasesKeepApps | internal/controller/myapp_controller.go:82-132 | the create and converge phases write no primary, and when they succeed a Deployment of the requested name exists |
| Properties.PersistOnSuccess | internal/controller/myapp_controller.go:134-145 | a successful reconcile of a live primary ends with the update of that primary carrying the current spec as its snapshot, which decodes to that spec, and a Deployment of its name exists |
| Properties.FailedRunKeepsApps | internal/controller/myapp_controller.go:134-143 | a reconcile that does not succeed writes no primary, so the snapshot only moves on success |
| Properties.PartialBootstrapThenDecodeError | internal/controller/myapp_controller.go:82-103 | a first reconcile that creates the Deployment but then fails leaves no snapshot, so the next reconcile stops with a decode error |
| Properties.PersistedIdempotent | internal/controller/myapp_controller.go:134-140 | persisting an already persisted primary changes nothing |
| Properties.SettledRunWritesNoDependents | internal/controller/myapp_controller.go:100-145 | a live primary whose snapshot already encodes its spec, with its Deployment present, is reconciled under any faults with no dependent write and no change to the store; with its three calls fault-free it succeeds |
| Properties.SecondReconcileWritesNoDependents | internal/controller/myapp_controller.go:59-146 | after a successful reconcile, a second one with no change between writes no Deployment and no Service under any faults, leaves every object as it was, never hits a decode error, and succeeds when its three calls do |

## Left out

- The Kubernetes client, the scheme, the RBAC markers and `SetupWithManager` (lines 227-231) are framework wiring. The store is `Store.State`, and failures come from `Store.Env`.
- Logging and `fmt.Println` (lines 60-64, 75, 104-105) are output only.
- Snapshot.Decode: accepts exactly the model's own encoding. Go's `json.Unmarshal` is more lenient: missing fields become zero, `null` and unknown fields are accepted, and field order and whitespace are free. So some annotations that the source decodes (and then finds drifted) are decode errors in the model. The JSON text itself is not modelled.
- `reflect.DeepEqual` (line 107) is structural equality on `Api.MyAppSpec`; for the `Replicas` pointer this compares the pointees, which is `Option` equality.
- The server side of the store is reduced to a few behaviours: existence, AlreadyExists, NotFound, refusing a selector change or an assigned-address change, and allocating a Service address on create. Not modelled: object status, server-assigned UIDs and resource versions, defaulting of the fields the source overwrites, and the node port numbers the platform assigns to a NodePort Service. Write conflicts are covered only as transient failures.
- Between the calls of one reconcile, nobody else changes the store: concurrent edits by users, other controllers and garbage collection are left out. So are context cancellation and concurrent reconciles of other names.
- Owner-reference garbage collection is the platform's. The model only states that each dependent names the app as its controlling owner.
- `internal/controller/myapp_controller.go` is the only source file modelled; `api/v1` is not part of this model. The group `jk.jk.com` and version `v1` come from the RBAC marker at line 46 and the import path. The spec field types come from how line 169 and lines 182-216 use them: `Replicas` is a `*int32` (modelled as `Option<Int32>`) and the ports are `int32`.
- `ctrl.Result` is always empty in the source, so a reconcile returns only `Controller.Outcome`.
- Object kinds are read as stored, so the owner reference's kind is exactly the primary's `Kind` field, as in the source.
