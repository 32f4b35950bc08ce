/** The v1 routes: the urls the generated client stubs send, the if/else chain generated for every
    service, and the router that tries the registered services in order. */
module Routes {
  import opened Options
  import opened Statuses

  /** A method with the names of its input and output messages. */
  datatype Rpc = Rpc(name: Bytes, request: Bytes, response: Bytes)

  /** A service of a file with the given package; names are protobuf identifiers. */
  datatype Service = Service(package: Bytes, name: Bytes, methods: seq<Rpc>)

  /** A character of a protobuf identifier. */
  predicate Letter(c: char) {
    'a' <= c <= 'z' || 'A' <= c <= 'Z' || '0' <= c <= '9' || c == '_'
  }

  predicate Identifier(s: string) {
    s != "" && forall i :: 0 <= i < |s| ==> Letter(s[i])
  }

  /** Identifiers joined by dots, or nothing. */
  predicate PackageName(s: string) {
    forall i :: 0 <= i < |s| ==> Letter(s[i]) || s[i] == '.'
  }

  /** At least one method, no two of the same name. */
  predicate Declared(svc: Service) {
    && PackageName(svc.package) && Identifier(svc.name)
    && svc.methods != []
    && (forall m :: m in svc.methods ==> Identifier(m.name) && Identifier(m.request) && Identifier(m.response))
    && (forall i, j :: 0 <= i < j < |svc.methods| ==> svc.methods[i].name != svc.methods[j].name)
  }

  /** The generator's Package variable: the package with a dot, if there is one. */
  function Prefix(package: Bytes): Bytes {
    if package == "" then "" else package + "."
  }

  function FullName(svc: Service): Bytes {
    Prefix(svc.package) + svc.name
  }

  function Url(svc: Service, method_: Bytes): Bytes {
    "/" + FullName(svc) + "/" + method_
  }

  // ----- Urls decode uniquely -----

  /** Two texts with one separator each, not in the first part, agree only if both parts agree. */
  lemma SplitAtSeparator(a: string, b: string, a': string, b': string, sep: char)
    requires sep !in a && sep !in a'
    requires a + [sep] + b == a' + [sep] + b'
    ensures a == a' && b == b'
  {
    var s, s' := a + [sep] + b, a' + [sep] + b';
    assert s[|a|] == sep && s'[|a'|] == sep;
    assert s[..|a|] == a && s'[..|a'|] == a';
    assert s[|a| + 1..] == b && s'[|a'| + 1..] == b';
  }

  /** The same, with the separator not in the second part. */
  lemma SplitAtLastSeparator(a: string, b: string, a': string, b': string, sep: char)
    requires sep !in b && sep !in b'
    requires a + [sep] + b == a' + [sep] + b'
    ensures a == a' && b == b'
  {
    var s, s' := a + [sep] + b, a' + [sep] + b';
    assert s[|a|] == sep && s'[|a'|] == sep;
    assert s[|a| + 1..] == b && s'[|a'| + 1..] == b';
    assert s[..|a|] == a && s'[..|a'|] == a';
  }

  lemma FullNameDecodes(svc: Service, svc': Service)
    requires Declared(svc) && Declared(svc')
    ensures FullName(svc) == FullName(svc') <==> svc.package == svc'.package && svc.name == svc'.name
  {
    assert forall x: Service :: x.package == "" ==> FullName(x) == x.name;
    assert forall x: Service :: x.package != "" ==> FullName(x) == x.package + ['.'] + x.name && '.' in FullName(x);
    if FullName(svc) == FullName(svc') && svc.package != "" && svc'.package != "" {
      SplitAtLastSeparator(svc.package, svc.name, svc'.package, svc'.name, '.');
    }
  }

  /** A url names one package, one service and one method. */
  lemma UrlDecodes(svc: Service, m: Bytes, svc': Service, m': Bytes)
    requires Declared(svc) && Declared(svc') && Identifier(m) && Identifier(m')
    ensures Url(svc, m) == Url(svc', m') <==> svc.package == svc'.package && svc.name == svc'.name && m == m'
  {
    FullNameDecodes(svc, svc');
    if Url(svc, m) == Url(svc', m') {
      var a, a' := FullName(svc), FullName(svc');
      assert Url(svc, m)[1..] == a + ['/'] + m;
      assert Url(svc', m')[1..] == a' + ['/'] + m';
      SplitAtSeparator(a, m, a', m', '/');
    }
  }

  /** A url is made of letters, dots and slashes. */
  lemma UrlLetters(svc: Service, m: Bytes)
    requires Declared(svc) && Identifier(m)
    ensures forall i :: 0 <= i < |Url(svc, m)| ==>
      Letter(Url(svc, m)[i]) || Url(svc, m)[i] == '.' || Url(svc, m)[i] == '/'
    ensures Url(svc, m) != ""
  {
    assert forall i :: 0 <= i < |Prefix(svc.package)| ==>
      Letter(Prefix(svc.package)[i]) || Prefix(svc.package)[i] == '.';
    assert forall i :: 0 <= i < |FullName(svc)| ==> Letter(FullName(svc)[i]) || FullName(svc)[i] == '.';
  }

  // ----- The generated chain and the router -----

  datatype Found = NotFound(status: Status) | Routed(service: nat, method_: nat)

  function Missing(url: Bytes): Found {
    NotFound(Status(NOT_FOUND, METHOD_NOT_FOUND + url))
  }

  /** One arm of the generated if/else chain: the url its test compares with and the method it binds. */
  datatype Arm = Arm(url: Bytes, rpc: Rpc)

  function Arms(svc: Service): (arms: seq<Arm>)
    ensures |arms| == |svc.methods|
  {
    seq(|svc.methods|, j requires 0 <= j < |svc.methods| => Arm(Url(svc, svc.methods[j].name), svc.methods[j]))
  }

  /** Running the chain: the first arm whose literal equals the url. */
  function ChainFrom(arms: seq<Arm>, url: Bytes, j: nat): Option<nat>
    decreases |arms| - j
  {
    if j >= |arms| then None
    else if url == arms[j].url then Some(j)
    else ChainFrom(arms, url, j + 1)
  }

  lemma {:induction false} ChainFinds(svc: Service, url: Bytes, j: nat)
    requires Declared(svc) && j <= |svc.methods|
    ensures forall i: nat :: ChainFrom(Arms(svc), url, j) == Some(i) <==>
      j <= i < |svc.methods| && url == Url(svc, svc.methods[i].name)
    decreases |svc.methods| - j
  {
    if j == |svc.methods| {
    } else {
      ChainFinds(svc, url, j + 1);
      if url == Url(svc, svc.methods[j].name) {
        forall i: nat | j < i < |svc.methods| ensures url != Url(svc, svc.methods[i].name) {
          UrlDecodes(svc, svc.methods[i].name, svc, svc.methods[j].name);
        }
      }
    }
  }

  /** Distinct services, each declared properly. */
  predicate Registered(svcs: seq<Service>) {
    && (forall svc :: svc in svcs ==> Declared(svc))
    && (forall i, k :: 0 <= i < k < |svcs| ==> FullName(svcs[i]) != FullName(svcs[k]))
  }

  /** Url names method j of service k. */
  predicate Names(svcs: seq<Service>, url: Bytes, k: nat, j: nat) {
    k < |svcs| && j < |svcs[k].methods| && url == Url(svcs[k], svcs[k].methods[j].name)
  }

  function RouteFrom(svcs: seq<Service>, url: Bytes, k: nat): Found
    decreases |svcs| - k
  {
    if k >= |svcs| then Missing(url)
    else
      match ChainFrom(Arms(svcs[k]), url, 0)
      case Some(j) => Routed(k, j)
      case None => RouteFrom(svcs, url, k + 1)
  }

  /** A url is routed to a method exactly when it is the url that method's client stub sends; every
      other url is not found. */
  lemma {:induction false} RouteIsExact(svcs: seq<Service>, url: Bytes, k: nat, i: nat, j: nat)
    requires Registered(svcs) && k <= |svcs|
    ensures RouteFrom(svcs, url, k) == Routed(i, j) <==> k <= i && Names(svcs, url, i, j)
    decreases |svcs| - k
  {
    if k == |svcs| {
    } else {
      RouteIsExact(svcs, url, k + 1, i, j);
      ChainFinds(svcs[k], url, 0);
      var arm := ChainFrom(Arms(svcs[k]), url, 0);
      if arm.Some? && i < |svcs| && j < |svcs[i].methods| {
        UrlDecodes(svcs[i], svcs[i].methods[j].name, svcs[k], svcs[k].methods[arm.value].name);
      }
    }
  }

  /** Every other url is answered with NOT_FOUND and the url. */
  lemma {:induction false} UnknownUrlNotFound(svcs: seq<Service>, url: Bytes, k: nat)
    requires Registered(svcs) && k <= |svcs| && forall i: nat, j: nat :: Names(svcs, url, i, j) ==> i < k
    ensures RouteFrom(svcs, url, k) == NotFound(Status(NOT_FOUND, METHOD_NOT_FOUND + url))
    decreases |svcs| - k
  {
    if k == |svcs| {
    } else {
      var arm := ChainFrom(Arms(svcs[k]), url, 0);
      ChainFinds(svcs[k], url, 0);
      if arm.Some? {
        assert Names(svcs, url, k, arm.value);
      }
      UnknownUrlNotFound(svcs, url, k + 1);
    }
  }

  /** The order in which the services were registered is irrelevant: in any list that holds the same
      services, the url leads to the same service and method. */
  lemma OrderIrrelevant(svcs: seq<Service>, svcs': seq<Service>, url: Bytes, k: nat, j: nat)
    requires Registered(svcs) && Registered(svcs') && (forall svc :: svc in svcs <==> svc in svcs')
    requires RouteFrom(svcs, url, 0) == Routed(k, j)
    ensures var found := RouteFrom(svcs', url, 0);
      k < |svcs| && found.Routed? && found.service < |svcs'| && svcs'[found.service] == svcs[k] && found.method_ == j
  {
    RouteIsExact(svcs, url, 0, k, j);
    assert svcs[k] in svcs';
    var i: nat :| i < |svcs'| && svcs'[i] == svcs[k];
    RouteIsExact(svcs', url, 0, i, j);
  }

  class Router {
    var svcList: seq<Service>

    constructor ()
      ensures svcList == []
    {
      svcList := [];
    }

    method AddSvc(svc: Service)
      modifies this
      ensures svcList == old(svcList) + [svc]
    {
      svcList := svcList + [svc];
    }

    method Route(url: Bytes) returns (found: Found)
      ensures found == RouteFrom(svcList, url, 0)
    {
      for k := 0 to |svcList|
        invariant RouteFrom(svcList, url, 0) == RouteFrom(svcList, url, k)
      {
        var arm := ChainFrom(Arms(svcList[k]), url, 0);
        if arm.Some? {
          return Routed(k, arm.value);
        }
      }
      found := Missing(url);
    }
  }
}
