# fgtech operator: a verified model

This project models the core of a Kubernetes operator for `Fgtech` custom
resources. For each Fgtech instance, the operator keeps a pod and a ClusterIP
service named after the instance. It also keeps one ingress per namespace,
`fgtech-global-ingress`, that routes a path prefix to every instance's service.
A default backend pod and service, `fgtech-fake-backend`, serve unmatched
paths. A TTL watcher deletes expired instances, with their pod and service,
and then re-syncs the ingress of each namespace it cleaned. The operator's
settings come from environment variables.

Modules, one per Go file, plus the shared store:

- `StoreModel` (`store_model.dfy`) and `StoreClient` (`store_client.dfy`) model
  the Kubernetes client.
  - The store is a value. It holds one map per object kind and the Fgtech
    instances in listing order.
  - `faults` is the set of calls that fail with an error other than NotFound.
  - Every call issued is appended to a log.
  - Each client call is a pure step function. `StoreClient.Client` is the
    mutable client the managers hold. Each of its methods is specified by the
    matching step function.
- `PodManager` (`pod_manager.dfy`) models `pkg/pod/manager.go`:
  - `Ensure` and `ensureService`;
  - the name, TTL and service-account policies;
  - building a pod and a service, and deciding whether either needs an update.
- `IngressManager` (`ingress_manager.dfy`) models `pkg/ingress/manager.go`:
  - `SyncNamespace`;
  - the default backend;
  - `collectRoutes`, together with route normalisation and the sort by path;
  - `applySpec`, `needsUpdate` and the field-by-field `ingressEqual`.
- `TtlWatcher` (`ttl_watcher.dfy`) models `sweep` and `cleanup` of
  `controllers/ttl_watcher.go`.
- `Controller` (`controller.dfy`) models `Reconcile` of
  `controllers/fgtech_controller.go`, with its lazily created managers.
- `Config` (`config.dfy`) models `loadEnvConfig` of `cmd/main.go`.
  - The environment is a map from variable names to values.
  - `strconv.ParseInt` in base 10 is modelled with its int64 and int32 ranges.
- `Api` and `Objects` hold the resource and object types. `Wrappers` holds
  Option and Result. `Sequences` holds generic facts about sequences.

Every Go operation that changes the store is a method on a class, proved
equal to a pure specification function: `Ensure` to `EnsureSpec`,
`SyncNamespace` to `SyncSpec`, `sweep` to `SweepSpec`, `Reconcile` to
`ReconcileSpec`. What the operator promises is proved as lemmas about those
functions, for every store and every fault set:

- what changes;
- which errors can come back;
- that a converged state stays as it is;
- that a bounded number of reconciles converge;
- that ingress syncs are idempotent;
- that the sorted route table does not depend on the listing order.

The Go loops are methods with loop invariants:

- the env scan in `podNeedsUpdate`;
- `mapsEqual`;
- `ingressEqual`;
- the route collection;
- both loops of `sweep`.

Each is proved equal to a declarative definition.

Notes on what the code does:

- Route normalisation follows the code. `buildRoutePath` trims surrounding
  blanks, then surrounding slashes, and nothing more. An interior `//`
  survives, so `"a//b"` gives the path `"/a//b/<name>"`. The model does not
  collapse interior empty segments.
- In `cmd/main_test.go:84-100`, the bad-TTL and bad-port tests never set
  `FGTECH_INGRESS_CLASSNAME`. `loadEnvConfig` therefore rejects them for the
  missing class, before it reads the TTL or the port. The tests expect only
  some error, so the class error alone satisfies them, and the checks they are
  named after are not exercised.
  `Config.MissingClassExamples` shows the class error for exactly those
  environments. `Config.BadValueExamples` shows that, once a class is set,
  `-1` and `0` are rejected with their own messages.

## Model

| member | source | states |
|---|---|---|
| PodManager.ResolveTTLSeconds | pkg/pod/manager.go:277-285 | A positive override wins; otherwise a positive default; otherwise 0; never negative |
| PodManager.TtlPointer | pkg/pod/manager.go:266-272 | No deadline exactly when the resolved TTL is 0; otherwise the positive resolved TTL |
| PodManager.ResolveServiceAccount | pkg/pod/manager.go:287-295 | The spec's account, else the default, else "default"; never empty |
| PodManager.PodNameFor | pkg/pod/manager.go:69-76 | The instance name followed by "-pod" |
| PodManager.ServiceNameFor | pkg/pod/manager.go:211-213 | The instance name followed by "-svc" |
| PodManager.DerivedNamesInjective | pkg/pod/manager.go:69-76 | Pod names, and service names, are equal exactly when the instance names are; a pod name is never a service name |
| PodManager.BuildPod | pkg/pod/manager.go:78-132 | One container with the spec's image, the FGTECH_VERSION env, one "http" port on the pod port, the resolved deadline and account, exactly the labels app=fgtech, fgtech-name and fgtech-version, the kube-config volume |
| PodManager.PodDrifted | pkg/pod/manager.go:134-178 | The declarative drift predicate of podNeedsUpdate: no container, or image, http port, FGTECH_VERSION env, version label, deadline or account differ from the desired pod; its properties are BuiltPodNotDrifted and SpecChangeDrifts |
| PodManager.PodNeedsUpdate | pkg/pod/manager.go:134-178 | The loop over the env decides exactly the declarative drift predicate: missing container, image, port, version env, label, deadline or account |
| PodManager.BuiltPodNotDrifted | pkg/pod/manager.go:134-178 | A freshly built pod is never reported as needing an update, whatever its owner |
| PodManager.SpecChangeDrifts | pkg/pod/manager.go:134-178 | Changing the image, version, effective TTL or effective account makes the old pod drifted |
| PodManager.UpdateServiceFields | pkg/pod/manager.go:230-242 | Selector on fgtech-name, one port 80 to the pod port, ClusterIP; labels and owner kept; the result is not drifted |
| PodManager.BuildService | pkg/pod/manager.go:215-228 | Labels app=fgtech and fgtech-name; not drifted |
| PodManager.ServiceDrifted | pkg/pod/manager.go:244-264 | serviceNeedsUpdate with the corrected selector comparison (exact map equality): selector, single port 80 to the pod port, ClusterIP type; ServiceDriftAgreesWithoutEmptyValues ties it to the code as written |
| PodManager.ServiceNeedsUpdate | pkg/pod/manager.go:244-264 | Decides exactly ServiceDrifted: the selector compared with the corrected MapsEqual, a single port 80 to the pod port, ClusterIP type. Go compares the selector with mapsEqual as written (see Left out) |
| PodManager.GoMapsEqual | pkg/pod/manager.go:301-311 | What mapsEqual as written accepts: equal sizes, and each entry of a matched by b's value or "" for a missing key; GoMapsEqualExactWithoutEmptyValues relates it to map equality |
| PodManager.MapsEqualAsWritten | pkg/pod/manager.go:301-311 | The loop computes Go's check: same size and, for each key of a, b's value (or "" when absent) equals a's |
| PodManager.MapsEqual | pkg/pod/manager.go:301-311 | The loop returns true exactly when the maps are equal |
| PodManager.GoMapsEqualExactWithoutEmptyValues | pkg/pod/manager.go:301-311 | When no value is empty, Go's check is exact map equality |
| PodManager.GoMapsEqualAcceptsForeignSelector | pkg/pod/manager.go:301-311 | Go's check accepts {"app": ""} as equal to the expected {"fgtech-name": name} |
| PodManager.ForeignSelectorNeverCorrected | pkg/pod/manager.go:244-250 | A service selecting {"app": ""} is not drifted as written, but is drifted under the corrected check |
| PodManager.ServiceDriftAgreesWithoutEmptyValues | pkg/pod/manager.go:244-264 | On a service whose selector has no empty value, the corrected drift check and the check as written give the same answer |
| PodManager.EnsureServiceSpec | pkg/pod/manager.go:180-209 | What ensureService does to a store: get the service; create it from buildService when NotFound, return other errors; update it when ServiceDrifted (corrected selector check); otherwise write nothing. Its properties are EnsureServiceCases |
| PodManager.EnsureSpec | pkg/pod/manager.go:34-67 | What Ensure does to a store: get the pod; create it when NotFound (Done), return other errors; delete a drifted pod (RequeueNow); otherwise ensureService (Done). Its properties are EnsureCases, EnsureOutcomes, EnsureProgress and EnsureConverges |
| PodManager.EnsureServiceCases | pkg/pod/manager.go:180-209 | Only the service can change; created from buildService when absent, updated when drifted under the corrected selector check, untouched and quiet otherwise; errors are faults; on success the service is not drifted (see Left out for selectors with an empty value) |
| PodManager.EnsureCases | pkg/pod/manager.go:34-67 | Absent pod: created with owner, Done, services untouched. Drifted pod: deleted, RequeueNow, services untouched. Current pod: pods untouched, service ensured, Done. Errors are faults |
| PodManager.EnsureOutcomes | pkg/pod/manager.go:34-67 | Ensure only issues calls, its errors are faulted calls, and it succeeds with Done or RequeueNow |
| PodManager.ConvergedEnsureIsQuiet | pkg/pod/manager.go:54-66 | On a current pod and service, with the reads not failing, Ensure returns Done and writes nothing |
| PodManager.EnsureProgress | pkg/pod/manager.go:34-67 | Without faults, Ensure creates (Done), deletes (RequeueNow) or converges (Done) according to the pod's state |
| PodManager.EnsureConverges | pkg/pod/manager.go:34-67 | Without faults, three Ensures reach a converged state, and a fourth returns Done and writes nothing |
| PodManager.Manager.constructor | pkg/pod/manager.go:29-31 | Holds the client and the settings |
| PodManager.Manager.Ensure | pkg/pod/manager.go:34-67 | The calls issued and the result are those of EnsureSpec |
| PodManager.Manager.EnsureService | pkg/pod/manager.go:180-209 | The calls issued and the result are those of EnsureServiceSpec, whose drift check compares the selector with the corrected MapsEqual (see Left out) |
| IngressManager.Leading | pkg/ingress/manager.go:247-248 | The length of the longest prefix of dropped characters |
| IngressManager.Trailing | pkg/ingress/manager.go:247-248 | The length of the longest suffix of dropped characters |
| IngressManager.TrimBounds | pkg/ingress/manager.go:247-248 | Bounds of the kept part: everything outside is dropped, and its ends are not |
| IngressManager.Trim | pkg/ingress/manager.go:247-248 | strings.TrimSpace or strings.Trim(_, "/"): the part of the string between the longest dropped prefix and the longest dropped suffix (bounds from TrimBounds) |
| IngressManager.RouteBase | pkg/ingress/manager.go:247-248 | The extra path with surrounding blanks, then surrounding slashes, trimmed; RouteBaseHasNoEndSlashes and the examples state its properties |
| IngressManager.BuildRoutePath | pkg/ingress/manager.go:246-253 | Starts with '/', ends with "/" + name; "/" + name for an empty base, else "/" + base + "/" + name |
| IngressManager.RouteBaseHasNoEndSlashes | pkg/ingress/manager.go:247-248 | A non-empty base neither starts nor ends with '/' |
| IngressManager.RouteBaseExamples | pkg/ingress/manager_test.go:25-26 | "" and "/" give an empty base |
| IngressManager.RouteBaseSimpleExample | pkg/ingress/manager_test.go:27 | "apps" is its own base |
| IngressManager.RouteBaseNestedExample | pkg/ingress/manager_test.go:31 | "/apps/v1/" gives "apps/v1": the interior slash stays |
| IngressManager.NestedBlankTrimExample | pkg/ingress/manager_test.go:31 | Trimming blanks leaves "/apps/v1/" unchanged |
| IngressManager.NestedSlashTrimExample | pkg/ingress/manager_test.go:31 | Trimming slashes turns "/apps/v1/" into "apps/v1" |
| IngressManager.BlankTrimExample | pkg/ingress/manager_test.go:32 | Blanks go first: "  //apps//  " becomes "//apps//" |
| IngressManager.SlashTrimExample | pkg/ingress/manager_test.go:32 | Then slashes: "//apps//" becomes "apps" |
| IngressManager.RouteBaseBlankExample | pkg/ingress/manager_test.go:32 | "  //apps//  " gives the base "apps" |
| IngressManager.AppsTrimExample | pkg/ingress/manager_test.go:28 | "/apps" keeps its blanks-trimmed form and loses its slash |
| IngressManager.AppsBlankTrimExample | pkg/ingress/manager_test.go:28 | Trimming blanks leaves "/apps" unchanged |
| IngressManager.ApiTrimExample | pkg/ingress/manager_test.go:66 | "/api/v1" trims to "api/v1" |
| IngressManager.RoutePathDeterminesName | pkg/ingress/manager.go:246-253 | For names without '/', equal route paths imply equal names |
| IngressManager.RouteDeterminedByPath | pkg/ingress/manager.go:90-101 | Two routes built for slash-free names with the same path are the same route |
| IngressManager.RoutesInjectiveByPath | pkg/ingress/manager.go:87-102 | Within a listing of slash-free names, a route is determined by its path |
| IngressManager.RoutePathsDistinct | pkg/ingress/manager.go:87-102 | The collected routes of slash-free names have pairwise distinct paths |
| IngressManager.MapRoutes | pkg/ingress/manager.go:87-102 | One route per listed instance, in listing order |
| IngressManager.MapRoutesSnoc | pkg/ingress/manager.go:97-101 | Appending one instance appends its route |
| IngressManager.MapRoutesPermutation | pkg/ingress/manager.go:87-102 | Listings that are permutations of each other give route lists that are permutations of each other |
| IngressManager.MapRoutesPair | pkg/ingress/manager.go:87-102 | Two listed instances give their two routes, in order |
| IngressManager.PathLeTotal | pkg/ingress/manager.go:104-106 | Go's byte-wise string order is total |
| IngressManager.PathLeTransitive | pkg/ingress/manager.go:104-106 | The order is transitive |
| IngressManager.PathLeAntisymmetric | pkg/ingress/manager.go:104-106 | The order is antisymmetric |
| IngressManager.PathLeReflexive | pkg/ingress/manager.go:104-106 | The order is reflexive |
| IngressManager.SortedCons | pkg/ingress/manager.go:104-106 | A route no greater than a sorted list's head can be put before it |
| IngressManager.InsertByPath | pkg/ingress/manager.go:104-106 | Insertion keeps the list sorted, adds exactly the one route, and puts either that route or the old head first |
| IngressManager.SortByPath | pkg/ingress/manager.go:104-106 | The result is sorted by path and is a permutation of the input |
| IngressManager.SortedHeadIsLeast | pkg/ingress/manager.go:104-106 | The head of a sorted list is below every element |
| IngressManager.SortedHeadsEqual | pkg/ingress/manager.go:104-106 | Two sorted permutations with distinct paths have the same head |
| IngressManager.SortedArrangementUnique | pkg/ingress/manager.go:104-106 | Two sorted permutations with distinct paths are equal, whatever the sort's stability |
| IngressManager.Routes | pkg/ingress/manager.go:87-106 | collectRoutes' table for a listing: one route per listed instance, sorted by path; RoutesAreOnePerInstance and RoutesIndependentOfListingOrder state its properties |
| IngressManager.RoutesIndependentOfListingOrder | pkg/ingress/manager.go:81-109 | For slash-free names, the route table does not depend on the order in which the store lists the instances |
| IngressManager.RoutesAreOnePerInstance | pkg/ingress/manager.go:81-109 | One route per instance, sorted, a permutation of the per-instance routes, each a Prefix route to a service on port 80 |
| IngressManager.RouteForOnRoutePort | pkg/ingress/manager.go:91-101 | Each route is a Prefix route to a service on port 80 |
| IngressManager.SortTwo | pkg/ingress/manager.go:104-106 | Two routes come out in path order, whichever order they went in |
| IngressManager.AlphaRoutePath | pkg/ingress/manager_test.go:47-57 | Instance alpha with extra path "/apps" is routed at "/apps/alpha" |
| IngressManager.BetaRoutePath | pkg/ingress/manager_test.go:58-68 | Instance beta with extra path "/api/v1" is routed at "/api/v1/beta" |
| IngressManager.ApiBeforeApps | pkg/ingress/manager_test.go:110-123 | "/api/v1/beta" sorts before "/apps/alpha" |
| IngressManager.RoutesExample | pkg/ingress/manager_test.go:45-134 | The route table for alpha and beta lists "/api/v1/beta" (to beta-svc on port 80), then "/apps/alpha" |
| IngressManager.BuildIngress | pkg/ingress/manager.go:111-123 | Labelled exactly app=fgtech, with applySpec's spec on an empty ingress: class and TLS entry present exactly when configured |
| IngressManager.ApplySpec | pkg/ingress/manager.go:125-164 | Default backend set; class and TLS set only when configured, otherwise kept; one rule for the host, with HTTP paths exactly when there are routes |
| IngressManager.SpecsEqual | pkg/ingress/manager.go:172-244 | The declarative comparison of ingressEqual: class, default backend service name and port, TLS hosts and secrets, rules' hosts and paths (path, backend service name and port) in order |
| IngressManager.IngressEqual | pkg/ingress/manager.go:172-244 | The nested loops decide exactly the declarative field-by-field comparison |
| IngressManager.PathTypeNotCompared | pkg/ingress/manager.go:227-240 | Path types play no part in the comparison |
| IngressManager.MissingBackendIsUnequal | pkg/ingress/manager.go:179-184 | A missing default backend or backend service on either side makes the specs unequal |
| IngressManager.ApplySpecConverges | pkg/ingress/manager.go:166-170 | With a class and a TLS secret configured, applying the spec makes it equal to the desired one |
| IngressManager.StrayClassNeverConverges | pkg/ingress/manager.go:126-128 | Without a configured class, an ingress carrying a class is drifted, and stays drifted after applySpec |
| IngressManager.BackendNameIsNoDerivedName | pkg/ingress/manager.go:21-26 | No instance's pod or service name is the default backend's name |
| IngressManager.EnsureBackendPodSpec | pkg/ingress/manager.go:269-301 | What ensureBackendPod does to a store: get the backend pod; create it when NotFound, return any other error; leave an existing one as it is. Its properties are BackendPodStage |
| IngressManager.EnsureBackendServiceSpec | pkg/ingress/manager.go:303-330 | The same for the backend service. Its properties are BackendServiceStage |
| IngressManager.EnsureDefaultBackendSpec | pkg/ingress/manager.go:259-267 | The backend pod, then, if that succeeded, the backend service. Its properties are DefaultBackendStage |
| IngressManager.BackendPodStage | pkg/ingress/manager.go:269-301 | Only the backend pod can be created, and only when absent; errors are faults; quiet when present |
| IngressManager.BackendServiceStage | pkg/ingress/manager.go:303-330 | Only the backend service can be created, and only when absent; errors are faults; quiet when present |
| IngressManager.DefaultBackendStage | pkg/ingress/manager.go:259-267 | The pod, then the service: created when absent, never changed; on success both exist |
| IngressManager.CollectRoutesSpec | pkg/ingress/manager.go:81-109 | What collectRoutes does: list the namespace's instances; the listing error, or Routes of the listing. Its properties are CollectedRoutes |
| IngressManager.CollectedRoutes | pkg/ingress/manager.go:81-109 | After a successful list, collectRoutes returns the sorted routes of the listed instances |
| IngressManager.ConvergeIngressSpec | pkg/ingress/manager.go:55-78 | The ingress half of SyncNamespace: get it; create it from buildIngress when NotFound, return other errors; applySpec and update it when needsUpdate; otherwise write nothing. Its properties are IngressStage |
| IngressManager.IngressStage | pkg/ingress/manager.go:55-78 | Only the namespace's ingress is written; on success it is the created, updated or untouched ingress; quiet when current |
| IngressManager.SyncSpec | pkg/ingress/manager.go:41-79 | What SyncNamespace does to a store: fail without a host; ensure the default backend, collect the routes, converge the ingress, stopping at the first error. Its properties are SyncErrors, SyncFrame, SyncResult, ConvergedSyncIsQuiet and SyncIdempotent |
| IngressManager.SyncErrors | pkg/ingress/manager.go:41-67 | Without a host: the host error and no call. Otherwise every error is a faulted call |
| IngressManager.SyncFrame | pkg/ingress/manager.go:41-79 | Only the backend pod and service (created when absent) and the namespace's ingress can change |
| IngressManager.SyncResult | pkg/ingress/manager.go:41-79 | On success, the backend exists and the ingress is the converged one for the namespace's current instances |
| IngressManager.ConvergedSyncIsQuiet | pkg/ingress/manager.go:41-79 | On a converged namespace the sync succeeds and writes nothing |
| IngressManager.SyncIdempotent | pkg/ingress/manager.go:41-79 | With a class and TLS secret, a successful sync leaves the namespace converged, and a second sync writes nothing |
| IngressManager.Manager.constructor | pkg/ingress/manager.go:36-38 | Holds the client and the settings |
| IngressManager.Manager.SyncNamespace | pkg/ingress/manager.go:41-79 | The calls issued and the result are those of SyncSpec |
| IngressManager.Manager.CollectRoutes | pkg/ingress/manager.go:81-109 | The loop appends one route per listed instance; the calls issued and the result are those of CollectRoutesSpec |
| IngressManager.Manager.NeedsUpdate | pkg/ingress/manager.go:166-170 | True exactly when the ingress differs from the desired spec |
| IngressManager.Manager.EnsureDefaultBackend | pkg/ingress/manager.go:259-267 | The calls issued and the result are those of EnsureDefaultBackendSpec |
| IngressManager.Manager.EnsureBackendPod | pkg/ingress/manager.go:269-301 | The calls issued and the result are those of EnsureBackendPodSpec |
| IngressManager.Manager.EnsureBackendService | pkg/ingress/manager.go:303-330 | The calls issued and the result are those of EnsureBackendServiceSpec |
| StoreModel.FindInstance | controllers/fgtech_controller.go:44 | A found instance is listed and has the key; none found means no listed instance has it |
| StoreModel.RemoveInstance | controllers/ttl_watcher.go:121 | Exactly the instances with another key remain |
| StoreModel.InNamespace | pkg/ingress/manager.go:83 | Exactly the listed instances of the namespace (all of them when unscoped) |
| TtlWatcher.IgnoreNotFound | controllers/ttl_watcher.go:95-101 | NotFound becomes success; any other error is kept; the state is unchanged |
| TtlWatcher.Expired | controllers/ttl_watcher.go:67-74 | An instance is expired when its resolved TTL is positive and now is not before creation plus the TTL; ExpiryExamples and ZeroTTLNeverExpires state its properties |
| TtlWatcher.ExpiryExamples | controllers/ttl_watcher_test.go:31-98 | Created two hours ago with the one-hour default: expired. Created ten minutes ago with its own two-hour TTL: not expired |
| TtlWatcher.ZeroTTLNeverExpires | controllers/ttl_watcher.go:67-70 | An instance whose resolved TTL is 0 never expires |
| TtlWatcher.CleanupSpec | controllers/ttl_watcher.go:94-126 | What cleanup does to a store: delete the pod, the service and the instance in turn, NotFound counting as deleted, stopping at the first other error. Its properties are CleanupOutcome, CleanupOrder and CleanupFrame |
| TtlWatcher.CleanupCalls | controllers/ttl_watcher.go:103-123 | The three deletes, pod then service then instance |
| TtlWatcher.CleanupIssued | controllers/ttl_watcher.go:103-123 | How many deletes cleanup issues: every one before the first faulted one, and that one; all three when neither of the first two is faulted |
| TtlWatcher.CleanupOrder | controllers/ttl_watcher.go:94-126 | The calls issued are the pod, service and instance deletes in that order, up to and including the first faulted one; a faulted pod delete changes no object; a faulted service delete leaves the services; while any of the three is faulted the instance stays listed |
| TtlWatcher.CleanupOutcome | controllers/ttl_watcher.go:94-126 | Fails exactly when one of the three deletes is faulted; errors are faults; on success the pod, service and instance are gone |
| TtlWatcher.CleanupFrame | controllers/ttl_watcher.go:94-126 | Only this instance's pod, service and instance are removed; nothing is added or changed |
| TtlWatcher.SweepItems | controllers/ttl_watcher.go:64-80 | The first loop of sweep: for each listed item in order, skip it unless Expired, clean it up, and record its namespace when cleanup succeeded. Its properties are SweepItemsFrame, SweepItemsNamespaces, SweepItemsRemoves and SweepItemsKeeps |
| TtlWatcher.SyncAll | controllers/ttl_watcher.go:82-89 | The second loop of sweep: SyncNamespace for each namespace in the given order, each error dropped. Its properties are SyncAllFrame |
| TtlWatcher.SweepSpec | controllers/ttl_watcher.go:58-92 | What sweep does to a store: the listing error, or SweepItems followed by SyncAll over the recorded namespaces, and success. Its properties are SweepErrors, SweepRemovesExpired, SweepKeepsUnexpired and SweepSyncsCleanedNamespaces |
| TtlWatcher.SweepItemsFrame | controllers/ttl_watcher.go:65-80 | The first loop only removes objects; ingresses are untouched |
| TtlWatcher.SweepItemsNamespaces | controllers/ttl_watcher.go:65-80 | The recorded namespaces are those of the expired items cleaned up without error |
| TtlWatcher.SweepItemsRemoves | controllers/ttl_watcher.go:65-80 | Every expired, unfaulted item ends up gone |
| TtlWatcher.GoneStaysGone | controllers/ttl_watcher.go:65-80 | Removing more objects keeps a cleaned-up instance gone |
| TtlWatcher.NoneStaysNone | controllers/ttl_watcher.go:65-80 | A key absent from the instances stays absent from any sub-listing |
| TtlWatcher.CleanedNamespacesStep | controllers/ttl_watcher.go:75-79 | One more item adds its namespace exactly when it is expired and cleaned up without error |
| TtlWatcher.CleanedNamespacesOf | controllers/ttl_watcher.go:75-79 | A namespace is recorded exactly when some expired, unfaulted item lives in it |
| TtlWatcher.SweepItemsKeeps | controllers/ttl_watcher.go:65-80 | An instance whose key no expired item shares keeps its pod, service and listing |
| TtlWatcher.SyncAllFrame | controllers/ttl_watcher.go:82-89 | The ingress syncs keep the instances and every existing pod and service, and add only default backends |
| TtlWatcher.SweepErrors | controllers/ttl_watcher.go:58-92 | The sweep fails exactly when the listing fails, and then changes nothing; sync errors are swallowed |
| TtlWatcher.SweepRemovesExpired | controllers/ttl_watcher.go:58-92 | After a sweep, every expired instance whose deletes do not fail is gone, with its pod and service |
| TtlWatcher.SweepKeepsUnexpired | controllers/ttl_watcher.go:58-92 | An instance that no expired instance shares a key with keeps its pod, service and listing |
| TtlWatcher.SweepSyncsCleanedNamespaces | controllers/ttl_watcher.go:82-89 | A namespace is synced exactly when an expired instance in it was cleaned up without error |
| TtlWatcher.Watcher.constructor | controllers/ttl_watcher.go:31-40 | Holds the client and the settings |
| TtlWatcher.Watcher.Cleanup | controllers/ttl_watcher.go:94-126 | The calls issued and the result are those of CleanupSpec |
| TtlWatcher.Watcher.CleanupExpired | controllers/ttl_watcher.go:64-80 | The first loop's calls and recorded namespaces are those of SweepItems |
| TtlWatcher.Watcher.SyncNamespaces | controllers/ttl_watcher.go:82-89 | Each recorded namespace is synced once, in the order the set yields them |
| TtlWatcher.Watcher.Sweep | controllers/ttl_watcher.go:58-92 | The sync order covers the recorded namespaces; the calls issued and the result are those of SweepSpec |
| Controller.ReconcileSpec | controllers/fgtech_controller.go:40-67 | What Reconcile does to a store: get the instance; on NotFound sync its namespace; on another error return it; otherwise Ensure and AfterEnsure. Its properties are ReconcileDispatch, ReconcileResults, ReconcileProgress and ReconcileConverges |
| Controller.AfterEnsure | controllers/fgtech_controller.go:54-66 | After Ensure: its error, or its requeue result, is returned as is; otherwise the namespace is synced and Done returned. Its properties are FoundFrame, FoundResults and FoundProgress |
| Controller.ReconcileDispatch | controllers/fgtech_controller.go:40-67 | A failed get: that error, nothing changed. Instance gone: sync the namespace. Otherwise Ensure; its error or requeue is returned without a sync; otherwise sync |
| Controller.SyncedFrame | controllers/fgtech_controller.go:46-50 | The not-found path only issues calls and keeps the instances |
| Controller.FoundFrame | controllers/fgtech_controller.go:54-66 | The found path keeps the instances, and leaves ingresses alone when Ensure fails or requeues |
| Controller.ReconcileResults | controllers/fgtech_controller.go:40-67 | Errors are faulted calls, apart from the missing-host error; success is Done or RequeueNow |
| Controller.SyncedResults | controllers/fgtech_controller.go:46-50 | The not-found path's errors are faults, or the missing-host error; success is Done |
| Controller.FoundResults | controllers/fgtech_controller.go:54-66 | The found path's errors are faults, or the missing-host error; success is Done or RequeueNow |
| Controller.FoundHasKey | controllers/fgtech_controller.go:44 | The instance found for a request lives in the request's namespace |
| Controller.ReconcileProgress | controllers/fgtech_controller.go:40-67 | Without faults on the instance's calls: an absent pod is created, a drifted pod is deleted with a requeue, a current pod and service are converged |
| Controller.SyncKeepsInstanceObjects | controllers/fgtech_controller.go:62-66 | The ingress sync keeps an instance's pod and service as they are |
| Controller.FoundProgress | controllers/fgtech_controller.go:54-66 | The same progress, for the found path |
| Controller.ConvergedReconcileStays | controllers/fgtech_controller.go:40-67 | On a converged instance, a reconcile keeps its pod and service |
| Controller.ReconcileConverges | controllers/fgtech_controller.go:40-67 | Without faults, three reconciles converge the instance's pod and service, and a fourth keeps them |
| Controller.Reconciler.constructor | controllers/fgtech_controller.go:26-38 | Holds the client and the settings; no manager yet |
| Controller.Reconciler.PodManager | controllers/fgtech_controller.go:93-98 | Created with the reconciler's client and pod settings on the first call; the same manager afterwards |
| Controller.Reconciler.IngressManager | controllers/fgtech_controller.go:100-105 | Created with the reconciler's client and ingress settings on the first call; the same manager afterwards |
| Controller.Reconciler.Reconcile | controllers/fgtech_controller.go:40-67 | The calls issued and the result are those of ReconcileSpec |
| Config.Getenv | cmd/main.go:104-107 | The variable's value, or "" when unset |
| Config.DigitValue | cmd/main.go:126 | A decimal digit's value is below 10 |
| Config.ParseInt | cmd/main.go:126 | A parsed value is within [-bound, bound) and comes from a non-empty text with a sign or a digit first; "" does not parse |
| Config.Decimal | cmd/main.go:126 | The decimal text of a number is non-empty and all digits |
| Config.DecimalValue | cmd/main.go:126 | The digits of Decimal(n) have the value n |
| Config.ParseDecimal | cmd/main.go:126 | Decimal(n), optionally signed, parses to ±n exactly when it is within the bit size's range |
| Config.LoadEnvConfig | cmd/main.go:102-142 | A missing host names the error; an accepted configuration has the host and class read, a positive TTL and a port in 1..65535 |
| Config.LoadEnvConfigErrors | cmd/main.go:102-142 | Rejected exactly when the host or class is missing or a set TTL or port is invalid; a missing host, then a missing class, names the error |
| Config.LoadedConfigIsValid | cmd/main.go:102-142 | An accepted configuration has host, class, TLS secret and account set, a positive TTL, a port in 1..65535, and each value is the variable's or its default |
| Config.DecimalOverrides | cmd/main.go:125-139 | A decimal TTL in range and a decimal port in 1..65535 are taken as given |
| Config.DefaultsExample | cmd/main_test.go:8-36 | Host and class alone give TLS secret "fgtech-tls", TTL 3600, account "default" and port 8080 |
| Config.OverrideDigits | cmd/main_test.go:43-45 | 7200 and 9090 are written "7200" and "9090" |
| Config.OverridesExample | cmd/main_test.go:38-67 | Every variable set gives exactly those values |
| Config.MissingHostExample | cmd/main_test.go:69-74 | An empty environment fails with the missing-host message |
| Config.MissingClassExamples | cmd/main_test.go:76-100 | A host without a class fails with the missing-class message, even with a TTL of -1 or a port of 0 |
| Config.BadValueExamples | cmd/main.go:125-139 | With host and class set, a TTL of -1 and a port of 0 are rejected with their own messages |
| Config.LoadedSettingsSyncIdempotently | cmd/main.go:115-120 | Settings from an accepted configuration always have a class and a TLS secret, so their ingress syncs are idempotent |
| Config.LoadedSettingsShareIngress | cmd/main.go:102-142 | The watcher and the reconciler get the same ingress settings with a host, and the same positive TTL |

## Left out

- The controller-runtime client is a library. `StoreModel` and `StoreClient` model the part of its behaviour the core relies on: get, create, update, delete and list; NotFound and AlreadyExists; any other failure as a fixed set of faulted calls. They are not rows above because they model no code of this repository.
- `Start` of the TTL watcher (the minute ticker, the context and `time.Now`) is not modelled: `Sweep` takes the current time as a parameter.
- Logging is left out everywhere, including the watcher's error logs: those errors are only swallowed.
- `SetupWithManager`, `main()` and the rest of `cmd/main.go` are left out. They are wiring into the controller-runtime manager, and `Config` shows only how the settings reach the components.
- Time is whole seconds, as an `int`. Go's `time.Duration` overflow for TTLs above about 292 years is not modelled.
- Some fields are constants that no check reads, and the model leaves them out: the container command, the image pull policy and the restart policy, on both the instance pod and the default backend pod. An object's name and namespace are its map key, not a field.
- `SetControllerReference` is reduced to an owner field set to the instance's name. Its error path, a scheme failure, is not modelled.
- `applySpec` and `updateServiceFields` mutate a fresh DeepCopy or a fresh object, so they are value functions. Nothing else shares that copy.
- `sort.Slice` is a library call. It is modelled by an insertion sort on sequences, specified as sorted and a permutation. `IngressManager.SortedArrangementUnique` shows that any unstable sort gives the same result when paths are distinct.
- PodManager.ServiceNeedsUpdate: it compares the selector by map equality, the corrected mapsEqual of the Findings table, not by mapsEqual as written. On a service whose selector has an empty value it can report drift where Go does not: for an instance "demo" whose service selects {"app": ""}, with one port 80 to the pod port and type ClusterIP, Go writes nothing and the model issues an update. The same corrected check is used by PodManager.ServiceDrifted, PodManager.EnsureServiceSpec, PodManager.EnsureSpec, PodManager.Manager.Ensure, PodManager.Manager.EnsureService, PodManager.EnsureServiceCases, PodManager.EnsureProgress, PodManager.EnsureConverges, Controller.ReconcileSpec, Controller.Reconciler.Reconcile, Controller.ReconcileProgress and Controller.ReconcileConverges. PodManager.ServiceDriftAgreesWithoutEmptyValues shows the model and the code agree whenever no selector value is empty.
- PodManager.EnsureServiceCases: its "updated when drifted" case uses the corrected selector check, so on a selector with an empty value such as {"app": ""} it states an update that ensureService as written never issues.
- PodManager.Manager.EnsureService: it is proved equal to EnsureServiceSpec, which updates a service whose selector has an empty value that Go leaves alone; on every other service the two agree.
- Config.LoadEnvConfig: the partly filled configuration Go returns next to an error is not modelled; the callers drop it.
- Go's map and set iteration order is unspecified. `SyncNamespaces` chooses an element at each step and reports the order it took as a ghost sequence. Every sweep property holds for every order.
- Concurrency is not modelled: reconciles, the watcher and other writers to the store are taken one at a time.
- Controller.ReconcileProgress: it states the result only conditionally. The namespace's sync calls are not excluded from the faults, so a successful Ensure can still be followed by a failing sync.
- IngressManager.RoutesIndependentOfListingOrder: it requires instance names without '/'. Kubernetes names never contain one, and with one two route paths could coincide, so the unstable sort could then order them either way.

## Findings

| source | as written | input that shows it | evidently intended | confidence | as-written member | corrected member |
|---|---|---|---|---|---|---|
| pkg/pod/manager.go:301-311 | `mapsEqual` compares sizes and then `b[k] != v` for each key of `a`; a key missing from `b` reads as "" | selector {"app": ""} against the expected {"fgtech-name": "demo"}: equal sizes, and `b["app"]` is "" | map equality, so that `serviceNeedsUpdate` replaces a foreign selector | not executed | PodManager.MapsEqualAsWritten | PodManager.MapsEqual |
