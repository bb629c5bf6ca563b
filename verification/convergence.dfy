/**
 What one or two reconciliation passes achieve: stale routes are gone after a
 successful pass, a second pass over unchanged caches changes nothing, and
 the store equals the desired set when its routes were built from the
 objects the caches hold.
 */
module Convergence {
  import opened Objects
  import opened Handlers
  import opened Reconciliation

  /** With well-keyed caches, every desired route passes the deletion checks. */
  lemma DesiredRoutesAreKept(c: Caches, r: Route)
    requires WellKeyed(c)
    requires r in Desired(c)
    ensures Keeps(c, r)
  {
  }

  /**
   After a successful pass every route in the store has its proxy, its
   service and its endpoints cached and passes the local-only check: a proxy
   that left the cache takes all its routes with it within one pass.
   */
  lemma PassLeavesOnlyLiveRoutes(
    c: Caches, store: set<Route>, listed: seq<Route>,
    proxyOrder: seq<Key>, serviceOrders: seq<seq<Key>>, faults: set<nat>)
    requires WellKeyed(c)
    requires Lists(listed, store) && Lists(proxyOrder, c.proxies.Keys)
    requires |serviceOrders| == |proxyOrder| && ListsEach(serviceOrders, c.services.Keys)
    requires Reconcile(c, store, listed, proxyOrder, serviceOrders, faults).Running?
    ensures forall r :: r in Reconcile(c, store, listed, proxyOrder, serviceOrders, faults).exec.store ==>
              && r.proxy.Id() in c.proxies
              && r.service.Id() in c.services
              && r.service.Id() in c.endpoints
              && Keeps(c, r)
  {
  }

  /** Every route was built from the objects the caches now hold under its keys. */
  ghost predicate SnapshotsCurrent(c: Caches, store: set<Route>)
  {
    forall r :: r in store ==>
      && (r.proxy.Id() in c.proxies ==> c.proxies[r.proxy.Id()] == r.proxy)
      && (r.service.Id() in c.services ==> c.services[r.service.Id()] == r.service)
  }

  /** When the stored routes were built from the cached objects, a successful pass leaves exactly the desired set. */
  lemma ConvergesWhenSnapshotsCurrent(
    c: Caches, store: set<Route>, listed: seq<Route>,
    proxyOrder: seq<Key>, serviceOrders: seq<seq<Key>>, faults: set<nat>)
    requires WellKeyed(c) && SnapshotsCurrent(c, store)
    requires Lists(listed, store) && Lists(proxyOrder, c.proxies.Keys)
    requires |serviceOrders| == |proxyOrder| && ListsEach(serviceOrders, c.services.Keys)
    requires Reconcile(c, store, listed, proxyOrder, serviceOrders, faults).Running?
    ensures Reconcile(c, store, listed, proxyOrder, serviceOrders, faults).exec.store == Desired(c)
  {
  }

  /**
   A pass over a store that already holds every desired route and only routes
   that pass the deletion checks, with a store that does not fail, succeeds,
   deletes nothing and changes nothing; it still re-issues an Add for every
   desired route.
   */
  lemma PassOverConvergedStore(
    c: Caches, store: set<Route>, listed: seq<Route>, proxyOrder: seq<Key>, serviceOrders: seq<seq<Key>>)
    requires Lists(listed, store) && Lists(proxyOrder, c.proxies.Keys)
    requires |serviceOrders| == |proxyOrder| && ListsEach(serviceOrders, c.services.Keys)
    requires JoinScansSafe(c)
    requires Desired(c) <= store
    requires forall r :: r in store ==> Keeps(c, r)
    ensures var o := Reconcile(c, store, listed, proxyOrder, serviceOrders, {});
            && o.Running?
            && o.exec.store == store
            && Deleted(o.exec.calls) == {}
            && Added(o.exec.calls) == Desired(c)
  {
  }

  /** A second pass over unchanged caches, with a store that does not fail, leaves the store as the first left it. */
  lemma SecondPassChangesNothing(
    c: Caches, store: set<Route>, listed: seq<Route>,
    proxyOrder: seq<Key>, serviceOrders: seq<seq<Key>>, faults: set<nat>,
    first: Outcome, listed2: seq<Route>, proxyOrder2: seq<Key>, serviceOrders2: seq<seq<Key>>)
    requires WellKeyed(c)
    requires Lists(listed, store) && Lists(proxyOrder, c.proxies.Keys)
    requires |serviceOrders| == |proxyOrder| && ListsEach(serviceOrders, c.services.Keys)
    requires first == Reconcile(c, store, listed, proxyOrder, serviceOrders, faults) && first.Running?
    requires Lists(listed2, first.exec.store)
    requires Lists(proxyOrder2, c.proxies.Keys)
    requires |serviceOrders2| == |proxyOrder2| && ListsEach(serviceOrders2, c.services.Keys)
    ensures var second := Reconcile(c, first.exec.store, listed2, proxyOrder2, serviceOrders2, {});
            && second.Running?
            && second.exec.store == first.exec.store
            && Deleted(second.exec.calls) == {}
  {
    var after := first.exec.store;
    assert Desired(c) <= after && forall r :: r in after ==> Keeps(c, r) by {
      PassLeavesOnlyLiveRoutes(c, store, listed, proxyOrder, serviceOrders, faults);
    }
    PassOverConvergedStore(c, after, listed2, proxyOrder2, serviceOrders2);
  }
}
