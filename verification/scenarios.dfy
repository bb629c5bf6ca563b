/**
 The local-only behaviour of the join on small caches: a local-only service
 is routed only through proxies on a node that hosts one of its endpoints,
 and what happens when a service's annotation changes after it was cached.
 */
module Scenarios {
  import opened Wrappers
  import opened Objects
  import opened Readiness
  import opened Handlers
  import opened Reconciliation

  /**
   A local-only service whose endpoints have a single address, on node
   `node`: the join admits a proxy on that node and rejects a proxy on any
   other node, so a successful pass never leaves a route to the latter.
   */
  lemma LocalOnlyEnforcement(
    c: Caches, svc: Service, ip: string, node: string, near: Pod, far: Pod,
    store: set<Route>, listed: seq<Route>, proxyOrder: seq<Key>, serviceOrders: seq<seq<Key>>, faults: set<nat>)
    requires HasLocalOnlyAnnotation(svc)
    requires svc.Id() in c.endpoints
    requires c.endpoints[svc.Id()].subsets == [Subset([Address(ip, Some(node))])]
    requires near.nodeName == node && far.nodeName != node
    requires Lists(listed, store) && Lists(proxyOrder, c.proxies.Keys)
    requires |serviceOrders| == |proxyOrder| && ListsEach(serviceOrders, c.services.Keys)
    ensures Serves(c, svc, near) && !Serves(c, svc, far)
    ensures var o := Reconcile(c, store, listed, proxyOrder, serviceOrders, faults);
            o.Running? ==> Route(svc, far) !in o.exec.store
    ensures var o := Reconcile(c, store, listed, proxyOrder, serviceOrders, faults);
            (&& o.Running?
             && near.Id() in c.proxies && c.proxies[near.Id()] == near
             && svc.Id() in c.services && c.services[svc.Id()] == svc)
            ==> Route(svc, near) in o.exec.store
  {
  }

  const Proxy1: Pod := Pod("kube-system", "kube-proxy-1", "10.0.0.1", "n1", true)
  const Service1: Service := Service("default", "s1", ["1.2.3.4"], map[])
  const Endpoints1: Endpoints := Endpoints("default", "s1", [Subset([Address("10.1.0.7", Some("n2"))])])
  const Caches1: Caches :=
    Caches(map[Proxy1.Id() := Proxy1], map[Service1.Id() := Service1], map[Endpoints1.Id() := Endpoints1])

  /** Service1 with the alpha external-traffic annotation set to "LocalOnly". */
  const Service1LocalOnly: Service := Service1.(annotations := map[AlphaExternalTraffic := LocalOnly])

  /** The first pass over the example caches adds the route for (Service1, Proxy1) and nothing else. */
  lemma ExampleFirstPassAddsRoute()
    ensures var o := Reconcile(Caches1, {}, [], [Proxy1.Id()], [[Service1.Id()]], {});
            o.Running? && o.exec.store == {Route(Service1, Proxy1)}
  {
  }

  /**
   Turning Service1 local-only afterwards does not remove the route: the
   update handler keeps the cached copy of a service it already holds, so
   nothing changes and no pass is requested; and even a pass over caches
   that did hold the new copy judges the route on the service snapshot it
   was built from, which is not local-only, so the route is kept.
   */
  lemma ExampleAnnotationChangeKeepsRoute()
    ensures HasLocalOnlyAnnotation(Service1LocalOnly)
    ensures ServiceUpdate(Caches1, Service1, Service1LocalOnly) == Step(Caches1, false)
    ensures var c := Caches1.(services := map[Service1.Id() := Service1LocalOnly]);
            var o := Reconcile(c, {Route(Service1, Proxy1)}, [Route(Service1, Proxy1)],
                               [Proxy1.Id()], [[Service1.Id()]], {});
            o.Running? && o.exec.store == {Route(Service1, Proxy1)}
  {
  }
}
