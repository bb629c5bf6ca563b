/**
 The reconciliation pass of the external-IP route controller. A pass first
 walks the routes the store lists and deletes every route whose proxy,
 service or endpoints are gone or whose local-only check fails; it then
 adds a route for every (proxy, service) pair the join admits. The route
 store is a set of routes; which of its calls fail is an input (`faults`,
 the positions in the pass's call trace that fail), since the store itself
 is not part of this model.
 */
module Reconciliation {
  import opened Objects
  import opened Readiness
  import opened Handlers

  /** An external-IP route: the service and proxy pod it was built from, as they were when it was added. */
  datatype Route = Route(service: Service, proxy: Pod)

  /** A call into the route store. */
  datatype Call = DeleteCall(route: Route) | AddCall(route: Route)

  /**
   Why a pass ended early: the store call at position `index` of the trace
   failed, or the node-name scan dereferenced a nil node name (a panic).
   */
  datatype Stop = StoreFailure(index: nat, call: Call) | NilNodeName(service: Service, proxy: Pod)

  /** The store's routes and the store calls made so far in this pass. */
  datatype Exec = Exec(store: set<Route>, calls: seq<Call>)

  /** A pass in progress, or a pass that returned early with the reason. */
  datatype Outcome = Running(exec: Exec) | Stopped(exec: Exec, why: Stop)

  /** A successful call's effect on the store; deleting an absent route and adding a present one change nothing. */
  function Apply(store: set<Route>, call: Call): set<Route>
  {
    match call
    case DeleteCall(r) => store - {r}
    case AddCall(r) => store + {r}
  }

  /**
   `o` continues `e`: its trace extends e's trace; a store failure is the
   last call of the trace and is the first new call `faults` marks failing;
   otherwise no new call is marked failing.
   */
  ghost predicate Extends(e: Exec, o: Outcome, faults: set<nat>)
  {
    && |e.calls| <= |o.exec.calls|
    && o.exec.calls[..|e.calls|] == e.calls
    && (if o.Stopped? && o.why.StoreFailure? then
          && o.why.index + 1 == |o.exec.calls|
          && |e.calls| <= o.why.index
          && o.why.index in faults
          && o.exec.calls[o.why.index] == o.why.call
          && (forall i :: |e.calls| <= i < o.why.index ==> i !in faults)
        else
          forall i :: |e.calls| <= i < |o.exec.calls| ==> i !in faults)
  }

  /** Every call `o` made after `e` satisfies `isAdd == call.AddCall?`. */
  ghost predicate NewCallsAre(e: Exec, o: Outcome, isAdd: bool)
    requires |e.calls| <= |o.exec.calls|
  {
    forall i :: |e.calls| <= i < |o.exec.calls| ==> o.exec.calls[i].AddCall? == isAdd
  }

  /** Every call `o` made after `e` names a route in `allowed`. */
  ghost predicate NewRoutesWithin(e: Exec, o: Outcome, allowed: set<Route>)
    requires |e.calls| <= |o.exec.calls|
  {
    forall i :: |e.calls| <= i < |o.exec.calls| ==> o.exec.calls[i].route in allowed
  }

  /** The routes a trace adds. */
  ghost function Added(calls: seq<Call>): set<Route>
  {
    set i | 0 <= i < |calls| && calls[i].AddCall? :: calls[i].route
  }

  /** The routes a trace deletes. */
  ghost function Deleted(calls: seq<Call>): set<Route>
  {
    set i | 0 <= i < |calls| && calls[i].DeleteCall? :: calls[i].route
  }

  /** One store call: the call joins the trace; it fails when its position is in `faults`, leaving the store as it was. */
  function Perform(e: Exec, call: Call, faults: set<nat>): (o: Outcome)
    ensures Extends(e, o, faults)
    ensures o.exec.calls == e.calls + [call]
    ensures o.Running? <==> |e.calls| !in faults
    ensures o.Running? ==> o.exec.store == Apply(e.store, call)
    ensures o.Stopped? ==> o.exec.store == e.store && o.why == StoreFailure(|e.calls|, call)
  {
    var calls := e.calls + [call];
    if |e.calls| in faults then Stopped(Exec(e.store, calls), StoreFailure(|e.calls|, call))
    else Running(Exec(Apply(e.store, call), calls))
  }

  /** The join: the service has endpoints and, when it is local-only, an endpoint on the proxy's node. */
  predicate Serves(c: Caches, svc: Service, proxy: Pod)
  {
    && svc.Id() in c.endpoints
    && (HasLocalOnlyAnnotation(svc) ==>
          && ScanIsSafe(proxy.nodeName, c.endpoints[svc.Id()])
          && HasEndpointOnNode(proxy.nodeName, c.endpoints[svc.Id()]))
  }

  /** The node-name scan the join runs for this pair, if it runs one, meets no nil node name. */
  predicate ScanSafeFor(c: Caches, svc: Service, proxy: Pod)
  {
    svc.Id() in c.endpoints && HasLocalOnlyAnnotation(svc) ==> ScanIsSafe(proxy.nodeName, c.endpoints[svc.Id()])
  }

  /** A listed route survives the deletion phase: proxy cached, service cached, and the join holds for its snapshots. */
  predicate Keeps(c: Caches, r: Route)
  {
    && r.proxy.Id() in c.proxies
    && r.service.Id() in c.services
    && Serves(c, r.service, r.proxy)
  }

  /** The listed routes the deletion phase removes. */
  ghost function Doomed(c: Caches, listed: seq<Route>): set<Route>
  {
    set r | r in listed && !Keeps(c, r)
  }

  /** The routes that should exist: every cached (proxy, service) pair the join admits. */
  ghost function Desired(c: Caches): set<Route>
  {
    set pk, sk | pk in c.proxies && sk in c.services && Serves(c, c.services[sk], c.proxies[pk]) ::
      Route(c.services[sk], c.proxies[pk])
  }

  /** One check of the deletion loop: delete the route when its key is not cached (`present` is false). */
  function DeleteUnless(present: bool, e: Exec, r: Route, faults: set<nat>): (o: Outcome)
    ensures Extends(e, o, faults)
    ensures forall i :: |e.calls| <= i < |o.exec.calls| ==> o.exec.calls[i] == DeleteCall(r)
    ensures present ==> o == Running(e)
    ensures e.store - {r} <= o.exec.store <= e.store
    ensures o.Running? ==> o.exec.store == if present then e.store else e.store - {r}
    ensures o.Running? ==> (|e.calls| < |o.exec.calls| <==> !present)
    ensures faults == {} ==> o.Running?
  {
    if present then Running(e) else Perform(e, DeleteCall(r), faults)
  }

  /** The endpoints and local-only step of the deletion loop, judged on the route's own service snapshot. */
  function CheckJoin(c: Caches, e: Exec, r: Route, faults: set<nat>): (o: Outcome)
    ensures Extends(e, o, faults)
    ensures forall i :: |e.calls| <= i < |o.exec.calls| ==> o.exec.calls[i] == DeleteCall(r)
    ensures o.Stopped? && o.why.NilNodeName? ==>
      o.why == NilNodeName(r.service, r.proxy) && !ScanSafeFor(c, r.service, r.proxy)
    ensures o.Running? ==> ScanSafeFor(c, r.service, r.proxy)
    ensures e.store - {r} <= o.exec.store <= e.store
    ensures o.Running? ==> o.exec.store == if Serves(c, r.service, r.proxy) then e.store else e.store - {r}
    ensures o.Running? ==> (|e.calls| < |o.exec.calls| <==> !Serves(c, r.service, r.proxy))
    ensures Serves(c, r.service, r.proxy) ==> o == Running(e)
    ensures faults == {} && ScanSafeFor(c, r.service, r.proxy) ==> o.Running?
  {
    var k := r.service.Id();
    if k !in c.endpoints then Perform(e, DeleteCall(r), faults)
    else if HasLocalOnlyAnnotation(r.service) then
      var eps := c.endpoints[k];
      if !ScanIsSafe(r.proxy.nodeName, eps) then Stopped(e, NilNodeName(r.service, r.proxy))
      else if !HasEndpointOnNode(r.proxy.nodeName, eps) then Perform(e, DeleteCall(r), faults)
      else Running(e)
    else Running(e)
  }

  /** Extends composes along a pass that was still running in between. */
  lemma ExtendsChain(e: Exec, mid: Exec, o: Outcome, faults: set<nat>)
    requires Extends(e, Running(mid), faults) && Extends(mid, o, faults)
    ensures Extends(e, o, faults)
  {
  }

  /** The body of the deletion loop for one listed route: three independent checks, each of which may delete. */
  function CheckRoute(c: Caches, e: Exec, r: Route, faults: set<nat>): (o: Outcome)
    ensures Extends(e, o, faults)
    ensures forall i :: |e.calls| <= i < |o.exec.calls| ==> o.exec.calls[i] == DeleteCall(r)
    ensures o.Stopped? && o.why.NilNodeName? ==>
      o.why == NilNodeName(r.service, r.proxy) && !ScanSafeFor(c, r.service, r.proxy)
    ensures o.Running? ==> ScanSafeFor(c, r.service, r.proxy)
    ensures e.store - {r} <= o.exec.store <= e.store
    ensures o.Running? ==> o.exec.store == if Keeps(c, r) then e.store else e.store - {r}
    ensures o.Running? ==> (|e.calls| < |o.exec.calls| <==> !Keeps(c, r))
    ensures Keeps(c, r) ==> o == Running(e)
    ensures faults == {} && ScanSafeFor(c, r.service, r.proxy) ==> o.Running?
  {
    var o1 := DeleteUnless(r.proxy.Id() in c.proxies, e, r, faults);
    if o1.Stopped? then o1
    else
      var o2 := DeleteUnless(r.service.Id() in c.services, o1.exec, r, faults);
      ExtendsChain(e, o1.exec, o2, faults);
      if o2.Stopped? then o2
      else
        var o3 := CheckJoin(c, o2.exec, r, faults);
        ExtendsChain(o1.exec, o2.exec, o3, faults);
        ExtendsChain(e, o1.exec, o3, faults);
        o3
  }

  /** Added and Deleted distribute over concatenation of traces. */
  lemma TraceConcat(a: seq<Call>, b: seq<Call>)
    ensures Added(a + b) == Added(a) + Added(b)
    ensures Deleted(a + b) == Deleted(a) + Deleted(b)
  {
    var ab := a + b;
    forall x | x in Added(ab) ensures x in Added(a) + Added(b) {
      var i :| 0 <= i < |ab| && ab[i].AddCall? && ab[i].route == x;
      if i >= |a| { assert b[i - |a|] == ab[i]; }
    }
    forall x | x in Added(a) ensures x in Added(ab) {
      var i :| 0 <= i < |a| && a[i].AddCall? && a[i].route == x;
      assert ab[i] == a[i];
    }
    forall x | x in Added(b) ensures x in Added(ab) {
      var i :| 0 <= i < |b| && b[i].AddCall? && b[i].route == x;
      assert ab[i + |a|] == b[i];
    }
    forall x | x in Deleted(ab) ensures x in Deleted(a) + Deleted(b) {
      var i :| 0 <= i < |ab| && ab[i].DeleteCall? && ab[i].route == x;
      if i >= |a| { assert b[i - |a|] == ab[i]; }
    }
    forall x | x in Deleted(a) ensures x in Deleted(ab) {
      var i :| 0 <= i < |a| && a[i].DeleteCall? && a[i].route == x;
      assert ab[i] == a[i];
    }
    forall x | x in Deleted(b) ensures x in Deleted(ab) {
      var i :| 0 <= i < |b| && b[i].DeleteCall? && b[i].route == x;
      assert ab[i + |a|] == b[i];
    }
  }

  /** The new calls of a two-step run are the new calls of each step, in order. */
  lemma NewCallsSplit(e: Exec, mid: Exec, o: Outcome, faults: set<nat>)
    requires Extends(e, Running(mid), faults) && Extends(mid, o, faults)
    ensures o.exec.calls[|e.calls|..] == mid.calls[|e.calls|..] + o.exec.calls[|mid.calls|..]
    ensures Added(o.exec.calls[|e.calls|..]) == Added(mid.calls[|e.calls|..]) + Added(o.exec.calls[|mid.calls|..])
    ensures Deleted(o.exec.calls[|e.calls|..]) == Deleted(mid.calls[|e.calls|..]) + Deleted(o.exec.calls[|mid.calls|..])
  {
    assert o.exec.calls[|e.calls|..] == mid.calls[|e.calls|..] + o.exec.calls[|mid.calls|..];
    TraceConcat(mid.calls[|e.calls|..], o.exec.calls[|mid.calls|..]);
  }

  /** The routes named by both steps' new calls lie within the union of the steps' bounds. */
  lemma WithinChain(e: Exec, mid: Exec, o: Outcome, faults: set<nat>, a: set<Route>, b: set<Route>)
    requires Extends(e, Running(mid), faults) && Extends(mid, o, faults)
    requires NewRoutesWithin(e, Running(mid), a) && NewRoutesWithin(mid, o, b)
    ensures NewRoutesWithin(e, o, a + b)
  {
    forall i | |e.calls| <= i < |o.exec.calls|
      ensures o.exec.calls[i].route in a + b
    {
      if i < |mid.calls| {
        assert o.exec.calls[i] == o.exec.calls[..|mid.calls|][i];
      }
    }
  }

  /** A trace whose calls all name routes in `allowed` adds and deletes only routes in `allowed`. */
  lemma TraceWithin(calls: seq<Call>, allowed: set<Route>)
    requires forall i :: 0 <= i < |calls| ==> calls[i].route in allowed
    ensures Added(calls) <= allowed && Deleted(calls) <= allowed
  {
  }

  /** A non-empty trace of deletions of one route deletes exactly that route. */
  lemma DeletedOne(calls: seq<Call>, r: Route)
    requires forall i :: 0 <= i < |calls| ==> calls[i] == DeleteCall(r)
    ensures Deleted(calls) == if |calls| == 0 then {} else {r}
    ensures Added(calls) == {}
  {
    if |calls| > 0 {
      assert calls[0] == DeleteCall(r);
    }
  }

  /** The deletion loop over the routes the store listed at the start of the pass. */
  function DeletePhase(c: Caches, e: Exec, listed: seq<Route>, faults: set<nat>): (o: Outcome)
    decreases |listed|
    ensures Extends(e, o, faults)
    ensures NewCallsAre(e, o, false)
    ensures NewRoutesWithin(e, o, Doomed(c, listed))
    ensures e.store - Doomed(c, listed) <= o.exec.store <= e.store
    ensures o.Stopped? && o.why.NilNodeName? ==>
      Route(o.why.service, o.why.proxy) in listed && !ScanSafeFor(c, o.why.service, o.why.proxy)
    ensures o.Running? ==> o.exec.store == e.store - Doomed(c, listed)
    ensures o.Running? ==> Deleted(o.exec.calls[|e.calls|..]) == Doomed(c, listed)
    ensures o.Running? ==> Added(o.exec.calls[|e.calls|..]) == {}
    ensures o.Running? ==> forall r :: r in listed ==> ScanSafeFor(c, r.service, r.proxy)
    ensures (forall r :: r in listed ==> Keeps(c, r)) ==> o == Running(e)
    ensures faults == {} && (forall r :: r in listed ==> ScanSafeFor(c, r.service, r.proxy)) ==> o.Running?
  {
    if |listed| == 0 then Running(e)
    else
      var r := listed[0];
      var o1 := CheckRoute(c, e, r, faults);
      if o1.Stopped? then o1
      else
        var o2 := DeletePhase(c, o1.exec, listed[1..], faults);
        ExtendsChain(e, o1.exec, o2, faults);
        DeletePhaseStep(c, e, o1.exec, o2, listed, faults);
        DeleteBoundsStep(c, e, o1.exec, o2, listed, faults);
        o2
  }

  /** How one loop iteration and the rest of the loop combine. */
  lemma DeletePhaseStep(c: Caches, e: Exec, mid: Exec, o: Outcome, listed: seq<Route>, faults: set<nat>)
    requires |listed| > 0
    requires CheckRoute(c, e, listed[0], faults) == Running(mid)
    requires Extends(mid, o, faults) && NewCallsAre(mid, o, false)
    requires o.Running? ==> o.exec.store == mid.store - Doomed(c, listed[1..])
    requires o.Running? ==> Deleted(o.exec.calls[|mid.calls|..]) == Doomed(c, listed[1..])
    requires o.Running? ==> Added(o.exec.calls[|mid.calls|..]) == {}
    ensures NewCallsAre(e, o, false)
    ensures o.Running? ==> o.exec.store == e.store - Doomed(c, listed)
    ensures o.Running? ==> Deleted(o.exec.calls[|e.calls|..]) == Doomed(c, listed)
    ensures o.Running? ==> Added(o.exec.calls[|e.calls|..]) == {}
  {
    var r := listed[0];
    assert listed == [r] + listed[1..];
    assert Doomed(c, listed) == (if Keeps(c, r) then {} else {r}) + Doomed(c, listed[1..]);
    NewCallsSplit(e, mid, o, faults);
    DeletedOne(mid.calls[|e.calls|..], r);
    forall i | |e.calls| <= i < |o.exec.calls| ensures o.exec.calls[i].AddCall? == false {
      if i < |mid.calls| {
        assert o.exec.calls[i] == o.exec.calls[..|mid.calls|][i];
      }
    }
  }

  /** How one loop iteration and the rest of the loop combine the bounds that hold however the pass ends. */
  lemma DeleteBoundsStep(c: Caches, e: Exec, mid: Exec, o: Outcome, listed: seq<Route>, faults: set<nat>)
    requires |listed| > 0
    requires CheckRoute(c, e, listed[0], faults) == Running(mid)
    requires Extends(mid, o, faults)
    requires NewRoutesWithin(mid, o, Doomed(c, listed[1..]))
    requires mid.store - Doomed(c, listed[1..]) <= o.exec.store <= mid.store
    ensures NewRoutesWithin(e, o, Doomed(c, listed))
    ensures e.store - Doomed(c, listed) <= o.exec.store <= e.store
  {
    var r := listed[0];
    assert listed == [r] + listed[1..];
    assert Doomed(c, listed) == (if Keeps(c, r) then {} else {r}) + Doomed(c, listed[1..]);
    WithinChain(e, mid, o, faults, Doomed(c, listed), Doomed(c, listed[1..]));
  }

  /** The body of the addition loops for one (proxy, service) pair whose service has endpoints cached. */
  function AddPair(c: Caches, e: Exec, svc: Service, proxy: Pod, faults: set<nat>): (o: Outcome)
    ensures Extends(e, o, faults)
    ensures forall i :: |e.calls| <= i < |o.exec.calls| ==> o.exec.calls[i] == AddCall(Route(svc, proxy))
    ensures o.Stopped? && o.why.NilNodeName? ==> o.why == NilNodeName(svc, proxy) && !ScanSafeFor(c, svc, proxy)
    ensures o.Running? ==> ScanSafeFor(c, svc, proxy)
    ensures !Serves(c, svc, proxy) ==> o.exec == e
    ensures e.store <= o.exec.store <= e.store + {Route(svc, proxy)}
    ensures o.Running? ==> o.exec.store == if Serves(c, svc, proxy) then e.store + {Route(svc, proxy)} else e.store
    ensures o.Running? ==> (|e.calls| < |o.exec.calls| <==> Serves(c, svc, proxy))
    ensures faults == {} && ScanSafeFor(c, svc, proxy) ==> o.Running?
  {
    var k := svc.Id();
    if k !in c.endpoints then Running(e)
    else if HasLocalOnlyAnnotation(svc) then
      var eps := c.endpoints[k];
      if !ScanIsSafe(proxy.nodeName, eps) then Stopped(e, NilNodeName(svc, proxy))
      else if HasEndpointOnNode(proxy.nodeName, eps) then Perform(e, AddCall(Route(svc, proxy)), faults)
      else Running(e)
    else Perform(e, AddCall(Route(svc, proxy)), faults)
  }

  /** The routes the inner loop should add for one proxy. */
  ghost function TargetsFor(c: Caches, proxy: Pod, sks: seq<Key>): set<Route>
    requires forall k :: k in sks ==> k in c.services
  {
    set k | k in sks && Serves(c, c.services[k], proxy) :: Route(c.services[k], proxy)
  }

  /** Every key of every service listing names a cached service. */
  predicate ListsServices(c: Caches, sos: seq<seq<Key>>)
  {
    forall i, k :: 0 <= i < |sos| && k in sos[i] ==> k in c.services
  }

  /**
   The routes both loops should add: the outer loop pairs the proxy `pks[i]`
   with the services of its own listing `sos[i]`.
   */
  ghost function Targets(c: Caches, pks: seq<Key>, sos: seq<seq<Key>>): set<Route>
    requires forall k :: k in pks ==> k in c.proxies
    requires |sos| == |pks| && ListsServices(c, sos)
  {
    set i, sk | 0 <= i < |pks| && sk in sos[i] && Serves(c, c.services[sk], c.proxies[pks[i]]) ::
      Route(c.services[sk], c.proxies[pks[i]])
  }

  /** A non-empty trace of additions of one route adds exactly that route. */
  lemma AddedOne(calls: seq<Call>, r: Route)
    requires forall i :: 0 <= i < |calls| ==> calls[i] == AddCall(r)
    ensures Added(calls) == if |calls| == 0 then {} else {r}
    ensures Deleted(calls) == {}
  {
    if |calls| > 0 {
      assert calls[0] == AddCall(r);
    }
  }

  /** New calls of one kind in both steps are new calls of that kind in the whole run. */
  lemma NewCallsChain(e: Exec, mid: Exec, o: Outcome, faults: set<nat>, isAdd: bool)
    requires Extends(e, Running(mid), faults) && Extends(mid, o, faults)
    requires NewCallsAre(e, Running(mid), isAdd) && NewCallsAre(mid, o, isAdd)
    ensures NewCallsAre(e, o, isAdd)
  {
  }

  /** Two addition-only runs, adding `t1` and then `t2`, together add `t1 + t2`. */
  lemma ChainAdditions(e: Exec, mid: Exec, o: Outcome, faults: set<nat>, t1: set<Route>, t2: set<Route>)
    requires Extends(e, Running(mid), faults) && NewCallsAre(e, Running(mid), true)
    requires mid.store == e.store + t1 && Added(mid.calls[|e.calls|..]) == t1
    requires Extends(mid, o, faults) && NewCallsAre(mid, o, true)
    requires o.Running? ==> o.exec.store == mid.store + t2
    requires o.Running? ==> Added(o.exec.calls[|mid.calls|..]) == t2
    ensures NewCallsAre(e, o, true)
    ensures o.Running? ==> o.exec.store == e.store + (t1 + t2)
    ensures o.Running? ==> Added(o.exec.calls[|e.calls|..]) == t1 + t2
  {
    NewCallsSplit(e, mid, o, faults);
    NewCallsChain(e, mid, o, faults, true);
  }

  /** The inner addition loop: every cached service, for one proxy. */
  function AddForProxy(c: Caches, e: Exec, proxy: Pod, sks: seq<Key>, faults: set<nat>): (o: Outcome)
    requires forall k :: k in sks ==> k in c.services
    decreases |sks|
    ensures Extends(e, o, faults)
    ensures NewCallsAre(e, o, true)
    ensures NewRoutesWithin(e, o, TargetsFor(c, proxy, sks))
    ensures e.store <= o.exec.store <= e.store + TargetsFor(c, proxy, sks)
    ensures o.Stopped? && o.why.NilNodeName? ==>
      && o.why.proxy == proxy && !ScanSafeFor(c, o.why.service, proxy)
      && exists k :: k in sks && c.services[k] == o.why.service
    ensures o.Running? ==> o.exec.store == e.store + TargetsFor(c, proxy, sks)
    ensures o.Running? ==> Added(o.exec.calls[|e.calls|..]) == TargetsFor(c, proxy, sks)
    ensures o.Running? ==> forall k :: k in sks ==> ScanSafeFor(c, c.services[k], proxy)
    ensures faults == {} && (forall k :: k in sks ==> ScanSafeFor(c, c.services[k], proxy)) ==> o.Running?
  {
    if |sks| == 0 then Running(e)
    else
      var o1 := AddPair(c, e, c.services[sks[0]], proxy, faults);
      if o1.Stopped? then o1
      else
        var o2 := AddForProxy(c, o1.exec, proxy, sks[1..], faults);
        ExtendsChain(e, o1.exec, o2, faults);
        AddForProxyStep(c, e, o1.exec, o2, proxy, sks, faults);
        AddForProxyBoundsStep(c, e, o1.exec, o2, proxy, sks, faults);
        o2
  }

  /** How one inner iteration and the rest of the inner loop combine. */
  lemma AddForProxyStep(c: Caches, e: Exec, mid: Exec, o: Outcome, proxy: Pod, sks: seq<Key>, faults: set<nat>)
    requires |sks| > 0 && forall k :: k in sks ==> k in c.services
    requires AddPair(c, e, c.services[sks[0]], proxy, faults) == Running(mid)
    requires Extends(mid, o, faults) && NewCallsAre(mid, o, true)
    requires o.Running? ==> o.exec.store == mid.store + TargetsFor(c, proxy, sks[1..])
    requires o.Running? ==> Added(o.exec.calls[|mid.calls|..]) == TargetsFor(c, proxy, sks[1..])
    ensures NewCallsAre(e, o, true)
    ensures o.Running? ==> o.exec.store == e.store + TargetsFor(c, proxy, sks)
    ensures o.Running? ==> Added(o.exec.calls[|e.calls|..]) == TargetsFor(c, proxy, sks)
  {
    var svc := c.services[sks[0]];
    assert sks == [sks[0]] + sks[1..];
    assert TargetsFor(c, proxy, sks) ==
      (if Serves(c, svc, proxy) then {Route(svc, proxy)} else {}) + TargetsFor(c, proxy, sks[1..]);
    NewCallsSplit(e, mid, o, faults);
    AddedOne(mid.calls[|e.calls|..], Route(svc, proxy));
    NewCallsChain(e, mid, o, faults, true);
  }

  /** How one inner iteration and the rest of the inner loop combine the bounds that hold however the pass ends. */
  lemma AddForProxyBoundsStep(c: Caches, e: Exec, mid: Exec, o: Outcome, proxy: Pod, sks: seq<Key>, faults: set<nat>)
    requires |sks| > 0 && forall k :: k in sks ==> k in c.services
    requires AddPair(c, e, c.services[sks[0]], proxy, faults) == Running(mid)
    requires Extends(mid, o, faults)
    requires NewRoutesWithin(mid, o, TargetsFor(c, proxy, sks[1..]))
    requires mid.store <= o.exec.store <= mid.store + TargetsFor(c, proxy, sks[1..])
    ensures NewRoutesWithin(e, o, TargetsFor(c, proxy, sks))
    ensures e.store <= o.exec.store <= e.store + TargetsFor(c, proxy, sks)
  {
    var svc := c.services[sks[0]];
    assert sks == [sks[0]] + sks[1..];
    assert TargetsFor(c, proxy, sks) ==
      (if Serves(c, svc, proxy) then {Route(svc, proxy)} else {}) + TargetsFor(c, proxy, sks[1..]);
    WithinChain(e, mid, o, faults, TargetsFor(c, proxy, sks), TargetsFor(c, proxy, sks[1..]));
  }

  /** No scan the addition loops run over these proxies and their service listings meets a nil node name. */
  predicate ScansSafe(c: Caches, pks: seq<Key>, sos: seq<seq<Key>>)
    requires forall k :: k in pks ==> k in c.proxies
    requires |sos| == |pks| && ListsServices(c, sos)
  {
    forall i, sk :: 0 <= i < |pks| && sk in sos[i] ==> ScanSafeFor(c, c.services[sk], c.proxies[pks[i]])
  }

  /** The outer addition loop: every cached proxy, each paired with the services one List() call returns. */
  function AddPhase(c: Caches, e: Exec, pks: seq<Key>, sos: seq<seq<Key>>, faults: set<nat>): (o: Outcome)
    requires forall k :: k in pks ==> k in c.proxies
    requires |sos| == |pks| && ListsServices(c, sos)
    decreases |pks|
    ensures Extends(e, o, faults)
    ensures NewCallsAre(e, o, true)
    ensures NewRoutesWithin(e, o, Targets(c, pks, sos))
    ensures e.store <= o.exec.store <= e.store + Targets(c, pks, sos)
    ensures o.Stopped? && o.why.NilNodeName? ==> !ScanSafeFor(c, o.why.service, o.why.proxy) && !ScansSafe(c, pks, sos)
    ensures o.Running? ==> o.exec.store == e.store + Targets(c, pks, sos)
    ensures o.Running? ==> Added(o.exec.calls[|e.calls|..]) == Targets(c, pks, sos)
    ensures o.Running? ==> ScansSafe(c, pks, sos)
    ensures faults == {} && ScansSafe(c, pks, sos) ==> o.Running?
  {
    if |pks| == 0 then Running(e)
    else
      OuterSplit(c, pks, sos);
      var o1 := AddForProxy(c, e, c.proxies[pks[0]], sos[0], faults);
      if o1.Stopped? then o1
      else
        var o2 := AddPhase(c, o1.exec, pks[1..], sos[1..], faults);
        ExtendsChain(e, o1.exec, o2, faults);
        AddPhaseStep(c, e, o1.exec, o2, pks, sos, faults);
        AddPhaseBoundsStep(c, e, o1.exec, o2, pks, sos, faults);
        o2
  }

  /** The first outer iteration and the rest of the outer loop split the targets and the scans. */
  lemma OuterSplit(c: Caches, pks: seq<Key>, sos: seq<seq<Key>>)
    requires |pks| > 0 && forall k :: k in pks ==> k in c.proxies
    requires |sos| == |pks| && ListsServices(c, sos)
    ensures forall k :: k in sos[0] ==> k in c.services
    ensures ListsServices(c, sos[1..])
    ensures Targets(c, pks, sos) == TargetsFor(c, c.proxies[pks[0]], sos[0]) + Targets(c, pks[1..], sos[1..])
    ensures ScansSafe(c, pks, sos) <==>
      (forall k :: k in sos[0] ==> ScanSafeFor(c, c.services[k], c.proxies[pks[0]])) && ScansSafe(c, pks[1..], sos[1..])
  {
  }

  /** How one outer iteration and the rest of the outer loop combine. */
  lemma AddPhaseStep(c: Caches, e: Exec, mid: Exec, o: Outcome, pks: seq<Key>, sos: seq<seq<Key>>, faults: set<nat>)
    requires |pks| > 0
    requires forall k :: k in pks ==> k in c.proxies
    requires |sos| == |pks| && ListsServices(c, sos)
    requires forall k :: k in sos[0] ==> k in c.services
    requires ListsServices(c, sos[1..])
    requires AddForProxy(c, e, c.proxies[pks[0]], sos[0], faults) == Running(mid)
    requires Extends(mid, o, faults) && NewCallsAre(mid, o, true)
    requires o.Running? ==> o.exec.store == mid.store + Targets(c, pks[1..], sos[1..])
    requires o.Running? ==> Added(o.exec.calls[|mid.calls|..]) == Targets(c, pks[1..], sos[1..])
    ensures NewCallsAre(e, o, true)
    ensures o.Running? ==> o.exec.store == e.store + Targets(c, pks, sos)
    ensures o.Running? ==> Added(o.exec.calls[|e.calls|..]) == Targets(c, pks, sos)
  {
    var head := TargetsFor(c, c.proxies[pks[0]], sos[0]);
    var rest := Targets(c, pks[1..], sos[1..]);
    ChainAdditions(e, mid, o, faults, head, rest);
    assert Targets(c, pks, sos) == head + rest by {
      OuterSplit(c, pks, sos);
    }
  }

  /** How one outer iteration and the rest of the outer loop combine the bounds that hold however the pass ends. */
  lemma AddPhaseBoundsStep(c: Caches, e: Exec, mid: Exec, o: Outcome, pks: seq<Key>, sos: seq<seq<Key>>, faults: set<nat>)
    requires |pks| > 0
    requires forall k :: k in pks ==> k in c.proxies
    requires |sos| == |pks| && ListsServices(c, sos)
    requires forall k :: k in sos[0] ==> k in c.services
    requires ListsServices(c, sos[1..])
    requires AddForProxy(c, e, c.proxies[pks[0]], sos[0], faults) == Running(mid)
    requires Extends(mid, o, faults)
    requires NewRoutesWithin(mid, o, Targets(c, pks[1..], sos[1..]))
    requires mid.store <= o.exec.store <= mid.store + Targets(c, pks[1..], sos[1..])
    ensures NewRoutesWithin(e, o, Targets(c, pks, sos))
    ensures e.store <= o.exec.store <= e.store + Targets(c, pks, sos)
  {
    var head := TargetsFor(c, c.proxies[pks[0]], sos[0]);
    var rest := Targets(c, pks[1..], sos[1..]);
    WithinChain(e, mid, o, faults, head, rest);
    assert Targets(c, pks, sos) == head + rest by {
      OuterSplit(c, pks, sos);
    }
  }

  /** Every scan the join can run over the cached proxies and services meets no nil node name. */
  ghost predicate JoinScansSafe(c: Caches)
  {
    forall pk, sk :: pk in c.proxies && sk in c.services ==> ScanSafeFor(c, c.services[sk], c.proxies[pk])
  }

  /** No node-name scan a pass over `store` can run meets a nil node name. */
  ghost predicate NoNilScans(c: Caches, store: set<Route>)
  {
    JoinScansSafe(c) && forall r :: r in store ==> ScanSafeFor(c, r.service, r.proxy)
  }

  /**
   reconcile: the deletion loop over the routes the store lists, then the
   addition loops over the cached proxies (outer) and services (inner).
   `listed` and `proxyOrder` are the orders the deletion loop's and the outer
   loop's List() calls return; `serviceOrders[i]` is the order the inner
   loop's List() call returns for the proxy `proxyOrder[i]`.
   */
  function Reconcile(
    c: Caches, store: set<Route>, listed: seq<Route>,
    proxyOrder: seq<Key>, serviceOrders: seq<seq<Key>>, faults: set<nat>): (o: Outcome)
    requires Lists(listed, store)
    requires Lists(proxyOrder, c.proxies.Keys)
    requires |serviceOrders| == |proxyOrder| && ListsEach(serviceOrders, c.services.Keys)
    ensures Extends(Exec(store, []), o, faults)
    ensures forall i, j :: 0 <= i < j < |o.exec.calls| && o.exec.calls[i].AddCall? ==> o.exec.calls[j].AddCall?
    ensures o.Running? ==> o.exec.store == (set r | r in store && Keeps(c, r)) + Desired(c)
    ensures o.Running? ==> Deleted(o.exec.calls) == (set r | r in store && !Keeps(c, r))
    ensures o.Running? ==> Added(o.exec.calls) == Desired(c)
    ensures o.Running? ==> NoNilScans(c, store)
    ensures faults == {} && NoNilScans(c, store) ==> o.Running?
    ensures Deleted(o.exec.calls) <= set r | r in store && !Keeps(c, r)
    ensures Added(o.exec.calls) <= Desired(c)
    ensures (set r | r in store && Keeps(c, r)) <= o.exec.store <= store + Desired(c)
    ensures o.Stopped? && o.why.NilNodeName? ==> !ScanSafeFor(c, o.why.service, o.why.proxy) && !NoNilScans(c, store)
  {
    var start := Exec(store, []);
    var o1 := DeletePhase(c, start, listed, faults);
    DeletionOutcome(c, store, listed, faults, o1);
    if o1.Stopped? then o1
    else
      TargetsAreDesired(c, proxyOrder, serviceOrders);
      var o2 := AddPhase(c, o1.exec, proxyOrder, serviceOrders, faults);
      ExtendsChain(start, o1.exec, o2, faults);
      DeletesBeforeAdds(start, o1.exec, o2, faults);
      assert o1.exec.calls[|start.calls|..] == o1.exec.calls;
      assert o2.exec.calls[|start.calls|..] == o2.exec.calls;
      NewCallsSplit(start, o1.exec, o2, faults);
      AdditionBounds(o1.exec, o2, faults, Desired(c));
      o2
  }

  /** Over the whole listing, the deletion phase dooms exactly the stored routes that fail Keeps. */
  lemma DeletionOutcome(c: Caches, store: set<Route>, listed: seq<Route>, faults: set<nat>, o: Outcome)
    requires Lists(listed, store)
    requires o == DeletePhase(c, Exec(store, []), listed, faults)
    ensures o.Running? ==> o.exec.store == set r | r in store && Keeps(c, r)
    ensures o.Running? ==> Deleted(o.exec.calls) == set r | r in store && !Keeps(c, r)
    ensures o.Running? ==> Added(o.exec.calls) == {}
    ensures o.Running? ==> forall r :: r in store ==> ScanSafeFor(c, r.service, r.proxy)
    ensures faults == {} && (forall r :: r in store ==> ScanSafeFor(c, r.service, r.proxy)) ==> o.Running?
    ensures Deleted(o.exec.calls) <= set r | r in store && !Keeps(c, r)
    ensures Added(o.exec.calls) == {}
    ensures (set r | r in store && Keeps(c, r)) <= o.exec.store <= store
    ensures o.Stopped? && o.why.NilNodeName? ==>
      Route(o.why.service, o.why.proxy) in store && !ScanSafeFor(c, o.why.service, o.why.proxy)
  {
    assert o.exec.calls[0..] == o.exec.calls;
    TraceWithin(o.exec.calls, Doomed(c, listed));
    NoAdds(o.exec.calls);
  }

  /** A trace with no Add call adds nothing. */
  lemma NoAdds(calls: seq<Call>)
    requires forall i :: 0 <= i < |calls| ==> !calls[i].AddCall?
    ensures Added(calls) == {}
  {
  }

  /** The new calls of an addition-only run whose routes lie in `allowed` add only routes in `allowed` and delete nothing. */
  lemma AdditionBounds(e: Exec, o: Outcome, faults: set<nat>, allowed: set<Route>)
    requires Extends(e, o, faults)
    requires NewCallsAre(e, o, true) && NewRoutesWithin(e, o, allowed)
    ensures Added(o.exec.calls[|e.calls|..]) <= allowed
    ensures Deleted(o.exec.calls[|e.calls|..]) == {}
  {
    var tail := o.exec.calls[|e.calls|..];
    forall i | 0 <= i < |tail|
      ensures tail[i].AddCall? && tail[i].route in allowed
    {
      assert tail[i] == o.exec.calls[|e.calls| + i];
    }
    TraceWithin(tail, allowed);
  }

  /** Over complete listings of the proxy and service caches, the addition targets are the desired routes. */
  lemma TargetsAreDesired(c: Caches, proxyOrder: seq<Key>, serviceOrders: seq<seq<Key>>)
    requires Lists(proxyOrder, c.proxies.Keys)
    requires |serviceOrders| == |proxyOrder| && ListsEach(serviceOrders, c.services.Keys)
    ensures ListsServices(c, serviceOrders)
    ensures Targets(c, proxyOrder, serviceOrders) == Desired(c)
    ensures ScansSafe(c, proxyOrder, serviceOrders) <==> JoinScansSafe(c)
  {
  }

  /** A deletion-only run followed by an addition-only run never deletes after it has added. */
  lemma DeletesBeforeAdds(e: Exec, mid: Exec, o: Outcome, faults: set<nat>)
    requires Extends(e, Running(mid), faults) && Extends(mid, o, faults)
    requires |e.calls| == 0
    requires NewCallsAre(e, Running(mid), false) && NewCallsAre(mid, o, true)
    ensures forall i, j :: 0 <= i < j < |o.exec.calls| && o.exec.calls[i].AddCall? ==> o.exec.calls[j].AddCall?
  {
  }
}
