# External-IP route controller of kube-parrot, modelled in Dafny

kube-parrot advertises BGP routes for a Kubernetes cluster. Its external-IP
route controller (`pkg/controller/externalservices.go`) keeps three filtered
caches — ready kube-proxy pods on this host, services with external IPs, and
ready endpoints — and on every reconciliation pass drives the external-IP
route store towards the set of (service, proxy) routes the caches justify.

The model has seven files:

- `wrappers.dfy` (module `Wrappers`): the `Option` type, standing for a
  pointer that may be nil.
- `objects.dfy` (module `Objects`): pods, services, endpoints (subsets of
  addresses whose node name is an optional pointer), the namespace/name key,
  and the controller's configuration (proxy name prefix, proxy namespace,
  local host IP).
- `readiness.dfy` (module `Readiness`): the admission predicates,
  `hasLocalOnlyAnnotation`, and `hasEndpointOnNode` with its nil node-name
  hazard made explicit as a precondition (`ScanIsSafe`).
- `handlers.dfy` (module `Handlers`): the nine add/update/delete handlers as
  total functions from (caches, object) to (caches', dirty), an `Event`
  dispatcher, and invariants over sequences of events.
- `reconcile.dfy` (module `Reconciliation`): `reconcile` as a function from
  (caches, store, List() orders, failing calls) to an `Outcome` that carries
  the store, the trace of store calls, and, when the pass returned early, why.
- `convergence.dfy` (module `Convergence`): what one and two successful
  passes achieve over unchanged caches.
- `scenarios.dfy` (module `Scenarios`): the local-only rule for a general
  pair of proxies, and two concrete passes.

The route store is a set of `Route(service, proxy)` records holding the
service and proxy objects the route was built from. Its `Delete` and `Add`
are idempotent set operations. Which calls fail is an input: `faults` holds
the positions, in the pass's call trace, of the calls that fail. The orders
in which the `List()` calls return their elements are inputs too, constrained
by `Lists` to list every element once: one order for the stored routes, one
for the proxies, and one service order per proxy, because the inner loop
calls `c.services.List()` afresh for each proxy (`ListsEach`).

## Model

| member | source | states |
|---|---|---|
| `Readiness.AnySubsetHasAddresses` | pkg/controller/externalservices.go:168-174 | the readiness loop is true iff some subset has a non-empty address list |
| `Readiness.AnyKeyLocalOnly` | pkg/controller/externalservices.go:251-257 | the annotation loop is true iff one of the listed keys is present with value exactly "LocalOnly" |
| `Readiness.HasLocalOnlyAnnotation` | pkg/controller/externalservices.go:250-259 | true iff the alpha or the beta external-traffic annotation maps to exactly "LocalOnly"; any other value or a missing key gives false |
| `Readiness.ProbeAddresses` | pkg/controller/externalservices.go:263-267 | the inner scan dereferences nil iff it meets a nil node name before a match, and matches iff it meets none and some address is on the node |
| `Readiness.ProbeSubsets` | pkg/controller/externalservices.go:262-269 | the nested subset/address scan behaves as one scan over all addresses in visiting order |
| `Readiness.ProbeConcat` | pkg/controller/externalservices.go:262-269 | scanning two address lists in sequence continues into the second only when the first found no match and no nil |
| `Readiness.ScanIsSafe` | pkg/controller/externalservices.go:264 | the unchecked `*address.NodeName` is safe iff no address the scan visits before a match has a nil node name |
| `Readiness.HasEndpointOnNode` | pkg/controller/externalservices.go:261-270 | under the no-nil precondition, true iff some address of some subset has node name equal to the given node |
| `Readiness.NamedAddressesAreSafe` | pkg/controller/externalservices.go:262-266 | when every address carries a node name the scan is safe for every node |
| `Handlers.PodDelete` | pkg/controller/externalservices.go:72-79 | removes the pod's key; signals dirty iff the key was cached; an absent key changes nothing; other caches untouched |
| `Handlers.PodAdd` | pkg/controller/externalservices.go:81-108 | a pod with wrong prefix, namespace or host IP changes nothing even if cached; otherwise the key is cached afterwards iff the pod is ready; a cached entry is not replaced; dirty iff membership changed; admission is preserved |
| `Handlers.PodUpdate` | pkg/controller/externalservices.go:110-112 | an update is podAdd of the current object; the previous one is ignored |
| `Handlers.ServiceDelete` | pkg/controller/externalservices.go:114-119 | removes the key unconditionally and always signals dirty |
| `Handlers.ServiceAdd` | pkg/controller/externalservices.go:121-149 | no external IPs: nothing changes, even if cached; a cached key is not replaced and raises no dirty signal; otherwise the service is admitted and dirty is signalled |
| `Handlers.ServiceUpdate` | pkg/controller/externalservices.go:151-153 | an update is serviceAdd of the current object |
| `Handlers.EndpointsDelete` | pkg/controller/externalservices.go:155-163 | removes the key only if present and signals dirty only then |
| `Handlers.EndpointsAdd` | pkg/controller/externalservices.go:165-194 | the key is cached afterwards iff some subset has addresses; an existing entry is not replaced; dirty iff membership changed |
| `Handlers.EndpointsUpdate` | pkg/controller/externalservices.go:196-198 | an update is endpointsAdd of the current object |
| `Handlers.AdmissionIsInvariant` | pkg/controller/externalservices.go:81-198 | over any event sequence, every cached entry stays filed under its own key and satisfied its cache's admission predicate when stored |
| `Handlers.QuietEventsChangeNothing` | pkg/controller/externalservices.go:72-198 | if no handler of an event sequence signals dirty, no cache changed |
| `Reconciliation.Perform` | pkg/controller/externalservices.go:203-205 | a store call joins the trace; a failing call leaves the store unchanged and becomes the error; a successful call applies its idempotent set effect |
| `Reconciliation.DeleteUnless` | pkg/controller/externalservices.go:202-212 | the proxy and service checks delete the route iff its key is not cached, and make no call otherwise |
| `Reconciliation.CheckJoin` | pkg/controller/externalservices.go:214-224 | deletes iff the service key has no endpoints or the route's own service snapshot is local-only with no endpoint on the proxy's node; a nil node name stops the pass and names this route's service and proxy; however it ends, the store loses at most this route |
| `Reconciliation.CheckRoute` | pkg/controller/externalservices.go:202-224 | one listed route is removed iff it fails Keeps (proxy key, service key, endpoints, local-only on the snapshot); a kept route causes no store call; every call is a Delete of that route; however it ends, the store loses at most this route, and a nil stop names this route |
| `Reconciliation.DeletePhase` | pkg/controller/externalservices.go:201-225 | on success the store loses exactly the listed routes that fail Keeps and the Delete calls name exactly those; only Delete calls are made; if every route is kept, no call is made; however the loop ends, every Delete names a listed route that fails Keeps, the store keeps every other route, and a nil stop names a listed route whose scan is unsafe |
| `Reconciliation.AddPair` | pkg/controller/externalservices.go:229-243 | for one pair, Add is called iff the service has endpoints and is not local-only or has an endpoint on the proxy's node; an unadmitted pair leaves the pass untouched even when it stops; the store gains at most this route |
| `Reconciliation.AddForProxy` | pkg/controller/externalservices.go:228-244 | the inner loop adds exactly the routes of the admitted services for one proxy and only makes Add calls; however it ends, every Add names one of those routes and the store gains nothing else; a nil stop names this proxy and one of its listed services |
| `Reconciliation.AddPhase` | pkg/controller/externalservices.go:227-245 | the outer loops, each proxy paired with its own listing of the services, add exactly the admitted (service, proxy) routes; with a reliable store and no nil scan they never stop; however they end, every Add names an admitted route, the store gains nothing else, and a nil stop implies an unsafe scan |
| `Reconciliation.OuterSplit` | pkg/controller/externalservices.go:227-245 | one outer iteration adds the admitted routes of its own proxy and service listing, and the remaining iterations add the rest; the scans split the same way |
| `Reconciliation.Reconcile` | pkg/controller/externalservices.go:200-248 | no Delete follows an Add; the first failing call is the last call and its error is returned; on success the store is the kept routes plus the desired set, Add is called exactly for the desired routes and Delete exactly for the stored routes failing Keeps; even when the pass stops early, Delete is called only for stored routes failing Keeps and Add only for desired routes, the store keeps every stored route that passes Keeps and gains only desired routes, and a nil stop happens only when some scan is unsafe |
| `Convergence.DesiredRoutesAreKept` | pkg/controller/externalservices.go:200-248 | every route the addition phase wants would survive the deletion phase |
| `Convergence.PassLeavesOnlyLiveRoutes` | pkg/controller/externalservices.go:200-248 | after a successful pass no route remains whose proxy, service or endpoints left the caches |
| `Convergence.ConvergesWhenSnapshotsCurrent` | pkg/controller/externalservices.go:200-248 | if the stored routes were built from the cached objects, a successful pass leaves exactly the desired set |
| `Convergence.PassOverConvergedStore` | pkg/controller/externalservices.go:200-248 | a pass over a converged store with a reliable store deletes nothing and changes nothing, but re-issues Add for every desired route |
| `Convergence.SecondPassChangesNothing` | pkg/controller/externalservices.go:200-248 | a second pass over unchanged caches leaves the store as the first pass left it and deletes nothing |
| `Scenarios.LocalOnlyEnforcement` | pkg/controller/externalservices.go:218-237 | a local-only service whose one address is on node A is served by a proxy on A and not by one elsewhere; the latter's route never survives a successful pass |
| `Scenarios.ExampleFirstPassAddsRoute` | pkg/controller/externalservices.go:227-245 | a non-local-only service with endpoints and one proxy yields exactly that one route |
| `Scenarios.ExampleAnnotationChangeKeepsRoute` | pkg/controller/externalservices.go:144-148 | turning a cached service local-only is ignored by serviceUpdate, and a pass judges the route on its old snapshot and keeps it |

## Behaviour of the code worth knowing

- A cached service or endpoints object is never replaced: `serviceAdd` and
  `endpointsAdd` only insert absent keys. Changes to annotations or
  addresses of a cached object are therefore not seen until it is deleted,
  or, for endpoints, until an update leaves it with no addresses
  (externalservices.go:188-192).
- A cached pod whose name, namespace or host IP stops qualifying, and a
  cached service that loses its external IPs, is not evicted.
- `serviceDelete` signals dirty even when the key was not cached.
- An endpoint address with a nil node name is dereferenced, not treated as
  "no match". The model stops the pass with `NilNodeName` (a Go panic).
- A second pass over unchanged caches issues no Delete but re-issues an Add
  for every desired route. The store is unchanged because Add is idempotent.
- The deletion phase judges local-only on the route's own service snapshot.
  The store can therefore keep a route built from an older copy of a
  still-cached object. A successful pass is guaranteed to leave exactly
  the desired set when the stored routes were built from the cached
  objects (`ConvergesWhenSnapshotsCurrent`). Otherwise a route built from
  an older copy that still passes the checks on its own snapshot survives
  beside the desired ones.
- A route may be deleted up to three times in one iteration, since the
  proxy, service and endpoints checks are independent.

## Left out

- `pkg/parrot/parrot.go`: process wiring (BGP server, informers, sleeps, goroutines, cache sync) and debug handlers that only log.
- `Run` and the constructor's handler registration (externalservices.go:29-70): stop channels, WaitGroups and informer callbacks. The `Event` dispatcher stands for the registration.
- The dirty reconciler (coalescing, backoff, retry) is not part of this model. `Dirty()` is the boolean each handler returns.
- The BGP route store is not part of this model. It is a set of routes with idempotent `Add`/`Delete`. Failures come from the `faults` input, and a failing call is assumed to leave the store unchanged.
- `util.IsPodReady` is the `ready` field. `hostIP.To4().String()` is the `hostIP` string of `Config`. `types.KubeProxyPrefix` and `types.KubeProxyNamespace` are `Config` fields, because `pkg/types` is not part of this model.
- The key function is the namespace/name `Key`. Tombstone objects and the `obj.(*v1.Pod)` type assertions that would panic on them are left out.
- Thread safety of the caches and concurrency between handlers and passes.
- Logging, including the `kube-scheduler`/`kube-controller-manager` suffix check (externalservices.go:184-187), which only affects logging.
- The commented-out announcement-annotation code (externalservices.go:123-137).
- What happens after a nil node-name panic: the model only ends the pass.
- Endpoint and pod fields the controller does not read (ports, not-ready addresses, IPs other than the host IP).
