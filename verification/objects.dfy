/**
 The cluster objects the external-IP route controller watches, reduced to the
 fields the controller reads, and the configuration it is built with.
 */
module Objects {
  import opened Wrappers

  /** Identity of a cluster object: the "namespace/name" key of a cache. */
  datatype Key = Key(namespace: string, name: string)

  /** A pod; `ready` stands for the pod-ready condition, `hostIP` for its reported host IP. */
  datatype Pod = Pod(namespace: string, name: string, hostIP: string, nodeName: string, ready: bool)
  {
    function Id(): Key { Key(namespace, name) }
  }

  /** A service with its external IPs and its annotations. */
  datatype Service = Service(
    namespace: string,
    name: string,
    externalIPs: seq<string>,
    annotations: map<string, string>)
  {
    function Id(): Key { Key(namespace, name) }
  }

  /** One endpoint address; its node name is a pointer that may be nil. */
  datatype Address = Address(ip: string, nodeName: Option<string>)

  /** An endpoint subset: a list of ready addresses. */
  datatype Subset = Subset(addresses: seq<Address>)

  /** The endpoints object of a service; it shares the service's namespace and name. */
  datatype Endpoints = Endpoints(namespace: string, name: string, subsets: seq<Subset>)
  {
    function Id(): Key { Key(namespace, name) }
  }

  /**
   Fixed at construction: the name prefix and namespace of the proxy pods,
   and the local host IP rendered as a dotted IPv4 string.
   */
  datatype Config = Config(proxyPrefix: string, proxyNamespace: string, hostIP: string)

  /** Go's strings.HasPrefix. */
  predicate HasPrefix(s: string, prefix: string)
  {
    |prefix| <= |s| && s[..|prefix|] == prefix
  }

  /** `xs` is what a List() call returns for the collection `s`: every element, once each, in some order. */
  predicate Lists<T(==)>(xs: seq<T>, s: set<T>)
  {
    && (forall i :: 0 <= i < |xs| ==> xs[i] in s)
    && (forall x :: x in s ==> x in xs)
    && (forall i, j :: 0 <= i < j < |xs| ==> xs[i] != xs[j])
  }

  /** Each of `xss` is a listing of `s`, as repeated List() calls over one unchanged cache return. */
  predicate ListsEach<T(==)>(xss: seq<seq<T>>, s: set<T>)
  {
    forall i :: 0 <= i < |xss| ==> Lists(xss[i], s)
  }
}
