/**
 The event handlers of the external-IP route controller. Each handler turns
 one watch notification into an admit or evict operation on one of the three
 caches and reports whether it raised the dirty signal that schedules a
 reconciliation pass.
 */
module Handlers {
  import opened Objects
  import opened Readiness

  /** The three keyed caches: ready local proxy pods, qualifying services, ready endpoints. */
  datatype Caches = Caches(
    proxies: map<Key, Pod>,
    services: map<Key, Service>,
    endpoints: map<Key, Endpoints>)

  /** What a handler leaves behind: the caches and whether it called Dirty(). */
  datatype Step = Step(caches: Caches, dirty: bool)

  /** Every entry is filed under its own object's key, as the namespace/name key function files it. */
  predicate WellKeyed(c: Caches)
  {
    && (forall k :: k in c.proxies ==> c.proxies[k].Id() == k)
    && (forall k :: k in c.services ==> c.services[k].Id() == k)
    && (forall k :: k in c.endpoints ==> c.endpoints[k].Id() == k)
  }

  /** Every entry is well keyed and satisfied its cache's admission predicate when it was stored. */
  predicate Admitted(cfg: Config, c: Caches)
  {
    && WellKeyed(c)
    && (forall k :: k in c.proxies ==> IsLocalProxy(cfg, c.proxies[k]) && c.proxies[k].ready)
    && (forall k :: k in c.services ==> ServiceQualifies(c.services[k]))
    && (forall k :: k in c.endpoints ==> EndpointsReady(c.endpoints[k]))
  }

  /** podDelete: evicts the pod's key if it is cached, and only then signals dirty. */
  function PodDelete(c: Caches, pod: Pod): (r: Step)
    ensures r.caches.services == c.services && r.caches.endpoints == c.endpoints
    ensures pod.Id() !in r.caches.proxies
    ensures r.caches.proxies - {pod.Id()} == c.proxies - {pod.Id()}
    ensures r.dirty <==> pod.Id() in c.proxies
    ensures !r.dirty ==> r.caches == c
  {
    if pod.Id() in c.proxies then Step(c.(proxies := c.proxies - {pod.Id()}), true)
    else Step(c, false)
  }

  /**
   podAdd: ignores pods that are not proxies of this host; otherwise admits a
   ready pod that is not cached yet and evicts a cached pod that is not ready.
   */
  function PodAdd(cfg: Config, c: Caches, pod: Pod): (r: Step)
    ensures r.caches.services == c.services && r.caches.endpoints == c.endpoints
    ensures !IsLocalProxy(cfg, pod) ==> r == Step(c, false)
    ensures IsLocalProxy(cfg, pod) ==> (pod.Id() in r.caches.proxies <==> pod.ready)
    ensures r.caches.proxies - {pod.Id()} == c.proxies - {pod.Id()}
    ensures pod.Id() in c.proxies && pod.Id() in r.caches.proxies ==>
              r.caches.proxies[pod.Id()] == c.proxies[pod.Id()]
    ensures pod.Id() !in c.proxies && pod.Id() in r.caches.proxies ==> r.caches.proxies[pod.Id()] == pod
    ensures r.dirty <==> (pod.Id() in c.proxies <==> pod.Id() !in r.caches.proxies)
    ensures !r.dirty ==> r.caches == c
    ensures Admitted(cfg, c) ==> Admitted(cfg, r.caches)
  {
    if !HasPrefix(pod.name, cfg.proxyPrefix) || pod.namespace != cfg.proxyNamespace then Step(c, false)
    else if pod.hostIP != cfg.hostIP then Step(c, false)
    else if pod.ready then
      if pod.Id() !in c.proxies then Step(c.(proxies := c.proxies[pod.Id() := pod]), true)
      else Step(c, false)
    else
      if pod.Id() in c.proxies then Step(c.(proxies := c.proxies - {pod.Id()}), true)
      else Step(c, false)
  }

  /** podUpdate: the previous version is ignored; the current one goes through podAdd. */
  function PodUpdate(cfg: Config, c: Caches, previous: Pod, current: Pod): (r: Step)
    ensures r == PodAdd(cfg, c, current)
  {
    PodAdd(cfg, c, current)
  }

  /** serviceDelete: evicts the key whether or not it was cached, and always signals dirty. */
  function ServiceDelete(c: Caches, svc: Service): (r: Step)
    ensures r.caches.proxies == c.proxies && r.caches.endpoints == c.endpoints
    ensures svc.Id() !in r.caches.services
    ensures r.caches.services - {svc.Id()} == c.services - {svc.Id()}
    ensures r.dirty
  {
    Step(c.(services := c.services - {svc.Id()}), true)
  }

  /**
   serviceAdd: a service without external IPs changes nothing, not even when it
   is cached; a qualifying service is admitted only if its key is not cached yet.
   */
  function ServiceAdd(c: Caches, svc: Service): (r: Step)
    ensures r.caches.proxies == c.proxies && r.caches.endpoints == c.endpoints
    ensures !ServiceQualifies(svc) ==> r == Step(c, false)
    ensures svc.Id() in c.services ==> r == Step(c, false)
    ensures ServiceQualifies(svc) ==> svc.Id() in r.caches.services
    ensures r.caches.services - {svc.Id()} == c.services - {svc.Id()}
    ensures svc.Id() !in c.services && svc.Id() in r.caches.services ==> r.caches.services[svc.Id()] == svc
    ensures r.dirty <==> svc.Id() !in c.services && svc.Id() in r.caches.services
    ensures !r.dirty ==> r.caches == c
    ensures forall cfg :: Admitted(cfg, c) ==> Admitted(cfg, r.caches)
  {
    if |svc.externalIPs| == 0 then Step(c, false)
    else if svc.Id() !in c.services then Step(c.(services := c.services[svc.Id() := svc]), true)
    else Step(c, false)
  }

  /** serviceUpdate: the previous version is ignored; the current one goes through serviceAdd. */
  function ServiceUpdate(c: Caches, previous: Service, current: Service): (r: Step)
    ensures r == ServiceAdd(c, current)
  {
    ServiceAdd(c, current)
  }

  /** endpointsDelete: evicts the key if it is cached, and only then signals dirty. */
  function EndpointsDelete(c: Caches, eps: Endpoints): (r: Step)
    ensures r.caches.proxies == c.proxies && r.caches.services == c.services
    ensures eps.Id() !in r.caches.endpoints
    ensures r.caches.endpoints - {eps.Id()} == c.endpoints - {eps.Id()}
    ensures r.dirty <==> eps.Id() in c.endpoints
    ensures !r.dirty ==> r.caches == c
  {
    if eps.Id() in c.endpoints then Step(c.(endpoints := c.endpoints - {eps.Id()}), true)
    else Step(c, false)
  }

  /**
   endpointsAdd: admits a ready endpoints object whose key is not cached yet
   (a cached entry is never replaced) and evicts a cached key whose object is
   no longer ready.
   */
  function EndpointsAdd(c: Caches, eps: Endpoints): (r: Step)
    ensures r.caches.proxies == c.proxies && r.caches.services == c.services
    ensures eps.Id() in r.caches.endpoints <==> exists i :: 0 <= i < |eps.subsets| && |eps.subsets[i].addresses| > 0
    ensures r.caches.endpoints - {eps.Id()} == c.endpoints - {eps.Id()}
    ensures eps.Id() in c.endpoints && eps.Id() in r.caches.endpoints ==>
              r.caches.endpoints[eps.Id()] == c.endpoints[eps.Id()]
    ensures eps.Id() !in c.endpoints && eps.Id() in r.caches.endpoints ==> r.caches.endpoints[eps.Id()] == eps
    ensures r.dirty <==> (eps.Id() in c.endpoints <==> eps.Id() !in r.caches.endpoints)
    ensures !r.dirty ==> r.caches == c
    ensures forall cfg :: Admitted(cfg, c) ==> Admitted(cfg, r.caches)
  {
    if EndpointsReady(eps) then
      if eps.Id() !in c.endpoints then Step(c.(endpoints := c.endpoints[eps.Id() := eps]), true)
      else Step(c, false)
    else
      if eps.Id() in c.endpoints then Step(c.(endpoints := c.endpoints - {eps.Id()}), true)
      else Step(c, false)
  }

  /** endpointsUpdate: the previous version is ignored; the current one goes through endpointsAdd. */
  function EndpointsUpdate(c: Caches, previous: Endpoints, current: Endpoints): (r: Step)
    ensures r == EndpointsAdd(c, current)
  {
    EndpointsAdd(c, current)
  }

  /** One watch notification, as the informers deliver it to the registered handlers. */
  datatype Event =
    | PodAdded(pod: Pod)
    | PodUpdated(previousPod: Pod, pod: Pod)
    | PodDeleted(pod: Pod)
    | ServiceAdded(svc: Service)
    | ServiceUpdated(previousSvc: Service, svc: Service)
    | ServiceDeleted(svc: Service)
    | EndpointsAdded(eps: Endpoints)
    | EndpointsUpdated(previousEps: Endpoints, eps: Endpoints)
    | EndpointsDeleted(eps: Endpoints)

  /** Dispatches an event to the handler registered for its kind and operation. */
  function Handle(cfg: Config, c: Caches, ev: Event): Step
  {
    match ev
    case PodAdded(p) => PodAdd(cfg, c, p)
    case PodUpdated(q, p) => PodUpdate(cfg, c, q, p)
    case PodDeleted(p) => PodDelete(c, p)
    case ServiceAdded(s) => ServiceAdd(c, s)
    case ServiceUpdated(q, s) => ServiceUpdate(c, q, s)
    case ServiceDeleted(s) => ServiceDelete(c, s)
    case EndpointsAdded(e) => EndpointsAdd(c, e)
    case EndpointsUpdated(q, e) => EndpointsUpdate(c, q, e)
    case EndpointsDeleted(e) => EndpointsDelete(c, e)
  }

  /** Handles `events` in delivery order; the result is dirty if any handler signalled. */
  function HandleAll(cfg: Config, c: Caches, events: seq<Event>): Step
    decreases |events|
  {
    if |events| == 0 then Step(c, false)
    else
      var first := Handle(cfg, c, events[0]);
      var rest := HandleAll(cfg, first.caches, events[1..]);
      Step(rest.caches, first.dirty || rest.dirty)
  }

  /** Eviction keeps admission: a cache that only ever received admitted objects still holds only those. */
  lemma {:induction false} AdmissionIsInvariant(cfg: Config, c: Caches, events: seq<Event>)
    requires Admitted(cfg, c)
    ensures Admitted(cfg, HandleAll(cfg, c, events).caches)
    decreases |events|
  {
    if |events| > 0 {
      var first := Handle(cfg, c, events[0]);
      assert Admitted(cfg, first.caches) by {
        match events[0]
        case PodDeleted(p) =>
        case ServiceDeleted(s) =>
        case EndpointsDeleted(e) =>
        case _ =>
      }
      AdmissionIsInvariant(cfg, first.caches, events[1..]);
    }
  }

  /** No dirty signal means no cache changed: skipping reconciliation after such events loses nothing. */
  lemma {:induction false} QuietEventsChangeNothing(cfg: Config, c: Caches, events: seq<Event>)
    ensures !HandleAll(cfg, c, events).dirty ==> HandleAll(cfg, c, events).caches == c
    decreases |events|
  {
    if |events| > 0 {
      var first := Handle(cfg, c, events[0]);
      QuietEventsChangeNothing(cfg, first.caches, events[1..]);
    }
  }
}
