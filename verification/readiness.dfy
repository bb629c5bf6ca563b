/**
 The admission predicates of the three caches and the two helpers of the
 local-only join: which proxy pods, endpoints and services the controller
 tracks, whether a service asks for local-only traffic, and whether an
 endpoints object has an address on a given node.
 */
module Readiness {
  import opened Wrappers
  import opened Objects

  /** A proxy pod of this host: proxy name prefix, proxy namespace, local host IP (readiness is separate). */
  predicate IsLocalProxy(cfg: Config, pod: Pod)
  {
    && HasPrefix(pod.name, cfg.proxyPrefix)
    && pod.namespace == cfg.proxyNamespace
    && pod.hostIP == cfg.hostIP
  }

  /** A service qualifies when it declares an external IP. */
  predicate ServiceQualifies(svc: Service)
  {
    |svc.externalIPs| > 0
  }

  /** The readiness loop of the endpoints handler: stops at the first subset with an address. */
  function AnySubsetHasAddresses(subsets: seq<Subset>): (r: bool)
    ensures r <==> exists i :: 0 <= i < |subsets| && |subsets[i].addresses| > 0
  {
    if |subsets| == 0 then false
    else if |subsets[0].addresses| > 0 then true
    else AnySubsetHasAddresses(subsets[1..])
  }

  /** An endpoints object is ready when one of its subsets lists an address. */
  predicate EndpointsReady(eps: Endpoints)
  {
    AnySubsetHasAddresses(eps.subsets)
  }

  const AlphaExternalTraffic: string := "service.alpha.kubernetes.io/external-traffic"
  const BetaExternalTraffic: string := "service.beta.kubernetes.io/external-traffic"
  const LocalOnly: string := "LocalOnly"

  /** The annotation loop: true as soon as one of `keys` is present with the value "LocalOnly". */
  function AnyKeyLocalOnly(keys: seq<string>, annotations: map<string, string>): (r: bool)
    ensures r <==> exists i :: 0 <= i < |keys| && keys[i] in annotations && annotations[keys[i]] == LocalOnly
  {
    if |keys| == 0 then false
    else if keys[0] in annotations && annotations[keys[0]] == LocalOnly then true
    else AnyKeyLocalOnly(keys[1..], annotations)
  }

  /** hasLocalOnlyAnnotation: the alpha or the beta external-traffic annotation says exactly "LocalOnly". */
  function HasLocalOnlyAnnotation(svc: Service): (r: bool)
    ensures r <==>
      || (AlphaExternalTraffic in svc.annotations && svc.annotations[AlphaExternalTraffic] == LocalOnly)
      || (BetaExternalTraffic in svc.annotations && svc.annotations[BetaExternalTraffic] == LocalOnly)
  {
    var keys := [AlphaExternalTraffic, BetaExternalTraffic];
    assert forall i :: 0 <= i < |keys| ==> keys[i] == AlphaExternalTraffic || keys[i] == BetaExternalTraffic;
    assert keys[0] == AlphaExternalTraffic && keys[1] == BetaExternalTraffic;
    AnyKeyLocalOnly(keys, svc.annotations)
  }

  /** What the node-name scan ends with: a match, no match, or a nil node-name dereference. */
  datatype Probe = Match | NoMatch | NilDeref

  /** The addresses of all subsets, in the order the nested scan visits them. */
  function Flatten(subsets: seq<Subset>): seq<Address>
  {
    if |subsets| == 0 then [] else subsets[0].addresses + Flatten(subsets[1..])
  }

  /** Walking `addrs` in order looking for node `node`, the scan meets a nil node name before any match. */
  ghost predicate ReachesNil(node: string, addrs: seq<Address>)
  {
    exists i :: 0 <= i < |addrs| && addrs[i].nodeName.None? &&
      forall j :: 0 <= j < i ==> addrs[j].nodeName != Some(node)
  }

  /** The inner loop of hasEndpointOnNode over one list of addresses. */
  function ProbeAddresses(node: string, addrs: seq<Address>): (r: Probe)
    ensures r == NilDeref <==> ReachesNil(node, addrs)
    ensures r == Match <==>
      !ReachesNil(node, addrs) && exists i :: 0 <= i < |addrs| && addrs[i].nodeName == Some(node)
  {
    if |addrs| == 0 then NoMatch
    else match addrs[0].nodeName
      case None => NilDeref
      case Some(n) =>
        if n == node then Match
        else
          var r := ProbeAddresses(node, addrs[1..]);
          assert ReachesNil(node, addrs[1..]) <==> ReachesNil(node, addrs) by {
            if ReachesNil(node, addrs[1..]) {
              var i :| 0 <= i < |addrs[1..]| && addrs[1..][i].nodeName.None? &&
                forall j :: 0 <= j < i ==> addrs[1..][j].nodeName != Some(node);
              assert addrs[i + 1] == addrs[1..][i];
              assert forall j :: 0 <= j < i + 1 ==> addrs[j].nodeName != Some(node) by {
                forall j | 0 <= j < i + 1 ensures addrs[j].nodeName != Some(node) {
                  if j > 0 { assert addrs[j] == addrs[1..][j - 1]; }
                }
              }
            }
            if ReachesNil(node, addrs) {
              var i :| 0 <= i < |addrs| && addrs[i].nodeName.None? &&
                forall j :: 0 <= j < i ==> addrs[j].nodeName != Some(node);
              assert i > 0;
              assert addrs[1..][i - 1] == addrs[i];
            }
          }
          assert (exists i :: 0 <= i < |addrs| && addrs[i].nodeName == Some(node)) <==>
                 (exists i :: 0 <= i < |addrs[1..]| && addrs[1..][i].nodeName == Some(node)) by {
            if exists i :: 0 <= i < |addrs| && addrs[i].nodeName == Some(node) {
              var i :| 0 <= i < |addrs| && addrs[i].nodeName == Some(node);
              assert addrs[1..][i - 1] == addrs[i];
            }
          }
          r
  }

  /** hasEndpointOnNode's nested loop: subsets in order, the addresses of each in order. */
  function ProbeSubsets(node: string, subsets: seq<Subset>): (r: Probe)
    ensures r == ProbeAddresses(node, Flatten(subsets))
  {
    if |subsets| == 0 then NoMatch
    else
      var p := ProbeAddresses(node, subsets[0].addresses);
      ProbeConcat(node, subsets[0].addresses, Flatten(subsets[1..]));
      if p == NoMatch then ProbeSubsets(node, subsets[1..]) else p
  }

  /** Scanning a concatenation scans the left part, and the right part only if the left had no match. */
  lemma {:induction false} ProbeConcat(node: string, a: seq<Address>, b: seq<Address>)
    ensures ProbeAddresses(node, a + b) ==
      if ProbeAddresses(node, a) == NoMatch then ProbeAddresses(node, b) else ProbeAddresses(node, a)
  {
    if |a| > 0 {
      assert (a + b)[1..] == a[1..] + b;
      ProbeConcat(node, a[1..], b);
    } else {
      assert a + b == b;
    }
  }

  /** hasEndpointOnNode dereferences every node name it visits: this says none of them is nil. */
  predicate ScanIsSafe(node: string, eps: Endpoints)
    ensures ScanIsSafe(node, eps) <==> !ReachesNil(node, Flatten(eps.subsets))
  {
    ProbeSubsets(node, eps.subsets) != NilDeref
  }

  /** An address belongs to the flattened list exactly when it belongs to one of the subsets. */
  lemma {:induction false} FlattenMembership(subsets: seq<Subset>, a: Address)
    ensures a in Flatten(subsets) <==> exists i :: 0 <= i < |subsets| && a in subsets[i].addresses
  {
    if |subsets| > 0 {
      FlattenMembership(subsets[1..], a);
      if exists i :: 0 <= i < |subsets| && a in subsets[i].addresses {
        var i :| 0 <= i < |subsets| && a in subsets[i].addresses;
        if i > 0 { assert subsets[1..][i - 1] == subsets[i]; }
      }
      if exists i :: 0 <= i < |subsets[1..]| && a in subsets[1..][i].addresses {
        var i :| 0 <= i < |subsets[1..]| && a in subsets[1..][i].addresses;
        assert subsets[1..][i] == subsets[i + 1];
      }
    }
  }

  /**
   hasEndpointOnNode: some address of some subset is on node `node`.
   hasEndpointOnNode (externalservices.go:264) reads each address's node
   name without a nil check, so the caller must guarantee that the scan
   meets no nil node name.
   */
  function HasEndpointOnNode(node: string, eps: Endpoints): (r: bool)
    requires ScanIsSafe(node, eps)
    ensures r <==> exists i, j :: 0 <= i < |eps.subsets| && 0 <= j < |eps.subsets[i].addresses| &&
                                  eps.subsets[i].addresses[j].nodeName == Some(node)
  {
    FlattenFindsNode(node, eps.subsets);
    ProbeSubsets(node, eps.subsets) == Match
  }

  /** A flattened address is on `node` exactly when some address of some subset is. */
  lemma FlattenFindsNode(node: string, subsets: seq<Subset>)
    ensures (exists k :: 0 <= k < |Flatten(subsets)| && Flatten(subsets)[k].nodeName == Some(node)) <==>
            (exists i, j :: 0 <= i < |subsets| && 0 <= j < |subsets[i].addresses| &&
                            subsets[i].addresses[j].nodeName == Some(node))
  {
    var flat := Flatten(subsets);
    if exists i, j :: 0 <= i < |subsets| && 0 <= j < |subsets[i].addresses| &&
                      subsets[i].addresses[j].nodeName == Some(node) {
      var i, j :| 0 <= i < |subsets| && 0 <= j < |subsets[i].addresses| &&
                  subsets[i].addresses[j].nodeName == Some(node);
      var a := subsets[i].addresses[j];
      FlattenMembership(subsets, a);
      var k :| 0 <= k < |flat| && flat[k] == a;
    }
    if exists k :: 0 <= k < |flat| && flat[k].nodeName == Some(node) {
      var k :| 0 <= k < |flat| && flat[k].nodeName == Some(node);
      FlattenMembership(subsets, flat[k]);
      var i :| 0 <= i < |subsets| && flat[k] in subsets[i].addresses;
      var j :| 0 <= j < |subsets[i].addresses| && subsets[i].addresses[j] == flat[k];
    }
  }

  /** When every address carries a node name, the scan is safe for every node. */
  lemma NamedAddressesAreSafe(node: string, eps: Endpoints)
    requires forall i, j :: 0 <= i < |eps.subsets| && 0 <= j < |eps.subsets[i].addresses| ==>
                            eps.subsets[i].addresses[j].nodeName.Some?
    ensures ScanIsSafe(node, eps)
  {
    var flat := Flatten(eps.subsets);
    forall k | 0 <= k < |flat| ensures flat[k].nodeName.Some? {
      FlattenMembership(eps.subsets, flat[k]);
      var i :| 0 <= i < |eps.subsets| && flat[k] in eps.subsets[i].addresses;
      var j :| 0 <= j < |eps.subsets[i].addresses| && eps.subsets[i].addresses[j] == flat[k];
    }
  }
}
