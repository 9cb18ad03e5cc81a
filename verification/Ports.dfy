/** How a server's base port and its game's port mappings become the ports of a container
    (agent/docker.go, StartContainer). */
module Ports {
  import opened Decimal

  datatype PortMapping = PortMapping(portLabel: string, containerPort: int, protocol: string, hostPortOffset: int)
  datatype PortBinding = PortBinding(hostIP: string, hostPort: string)

  function Protocols(protocol: string): (ps: seq<string>)
    ensures forall q :: q in ps ==> q == "tcp" || q == "udp"
  {
    if protocol == "both" then ["tcp", "udp"]
    else if protocol == "tcp" then ["tcp"]
    else ["udp"]
  }

  /** The "%d/%s" key of a container port. */
  function Key(containerPort: int, proto: string): string {
    Itoa(containerPort) + "/" + proto
  }

  // ---- What the bindings mean

  /** A container port and its protocol. */
  type Endpoint = (int, string)

  ghost predicate Covers(m: PortMapping, e: Endpoint) {
    m.containerPort == e.0 && e.1 in Protocols(m.protocol)
  }

  /** Without mappings the base port itself is used, for both protocols. */
  function Effective(port: int, mappings: seq<PortMapping>): seq<PortMapping> {
    if mappings == [] then [PortMapping("", port, "both", 0)] else mappings
  }

  /** The host port of each endpoint: the last mapping that covers it decides. */
  ghost predicate IsHostPort(port: int, mappings: seq<PortMapping>, e: Endpoint, hostPort: int) {
    exists i :: 0 <= i < |mappings| && Covers(mappings[i], e) && hostPort == port + mappings[i].hostPortOffset
      && forall j :: i < j < |mappings| ==> !Covers(mappings[j], e)
  }

  function Bound(port: int, mappings: seq<PortMapping>): map<Endpoint, int> {
    if mappings == [] then map[]
    else
      var m := mappings[|mappings| - 1];
      BindAll(Bound(port, mappings[..|mappings| - 1]), port + m.hostPortOffset, m.containerPort, Protocols(m.protocol))
  }

  function BindAll(b: map<Endpoint, int>, hostPort: int, containerPort: int, protos: seq<string>): map<Endpoint, int> {
    if protos == [] then b
    else BindAll(b, hostPort, containerPort, protos[..|protos| - 1])[(containerPort, protos[|protos| - 1]) := hostPort]
  }

  ghost predicate Binds(bindings: map<string, seq<PortBinding>>, bound: map<Endpoint, int>, e: Endpoint) {
    e in bound ==>
      Key(e.0, e.1) in bindings && bindings[Key(e.0, e.1)] == [PortBinding("0.0.0.0", Itoa(bound[e]))]
  }

  ghost predicate IsKeyOf(k: string, bound: map<Endpoint, int>) {
    exists e :: e in bound && k == Key(e.0, e.1)
  }

  ghost predicate Rendered(bindings: map<string, seq<PortBinding>>, bound: map<Endpoint, int>) {
    && (forall e {:trigger Binds(bindings, bound, e)} :: Binds(bindings, bound, e))
    && (forall k {:trigger IsKeyOf(k, bound)} :: k in bindings ==> IsKeyOf(k, bound))
  }

  lemma KeySlash(e: Endpoint)
    ensures var n := |Itoa(e.0)|;
      && Key(e.0, e.1)[..n] == Itoa(e.0) && Key(e.0, e.1)[n] == '/' && Key(e.0, e.1)[n + 1..] == e.1
      && forall i :: 0 <= i < n ==> Key(e.0, e.1)[i] != '/'
  {
    forall i | 0 <= i < |Itoa(e.0)|
      ensures Key(e.0, e.1)[i] != '/'
    {
      assert Key(e.0, e.1)[i] == Itoa(e.0)[i] && Itoa(e.0)[i] in Itoa(e.0);
    }
  }

  lemma KeyInjective(e: Endpoint, f: Endpoint)
    ensures Key(e.0, e.1) == Key(f.0, f.1) <==> e == f
  {
    KeySlash(e);
    KeySlash(f);
    if Key(e.0, e.1) == Key(f.0, f.1) {
      assert |Itoa(e.0)| == |Itoa(f.0)|;
      ItoaInjective(e.0, f.0);
    }
  }

  lemma RenderOne(bindings: map<string, seq<PortBinding>>, bound: map<Endpoint, int>, e: Endpoint, hostPort: int)
    requires Rendered(bindings, bound)
    ensures Rendered(bindings[Key(e.0, e.1) := [PortBinding("0.0.0.0", Itoa(hostPort))]], bound[e := hostPort])
  {
    var bindings', bound' := bindings[Key(e.0, e.1) := [PortBinding("0.0.0.0", Itoa(hostPort))]], bound[e := hostPort];
    forall f
      ensures Binds(bindings', bound', f)
    {
      KeyInjective(f, e);
      assert Binds(bindings, bound, f);
    }
    forall k | k in bindings'
      ensures IsKeyOf(k, bound')
    {
      assert e in bound';
      if k in bindings {
        assert IsKeyOf(k, bound);
        var f :| f in bound && k == Key(f.0, f.1);
        assert f in bound';
      }
    }
  }

  // ---- The bindings in the terms of the mappings

  /** The mapping asks for the container port under the protocol: "both" stands for the two, and anything
      that is not "tcp" includes "udp". */
  predicate AsksFor(m: PortMapping, containerPort: int, proto: string) {
    && m.containerPort == containerPort
    && ((proto == "tcp" && (m.protocol == "tcp" || m.protocol == "both")) || (proto == "udp" && m.protocol != "tcp"))
  }

  ghost predicate LastAsks(mappings: seq<PortMapping>, i: int, containerPort: int, proto: string) {
    && 0 <= i < |mappings| && AsksFor(mappings[i], containerPort, proto)
    && forall j :: i < j < |mappings| ==> !AsksFor(mappings[j], containerPort, proto)
  }

  ghost predicate PublishesAt(bindings: map<string, seq<PortBinding>>, port: int, mappings: seq<PortMapping>,
                              containerPort: int, proto: string)
  {
    var k := Itoa(containerPort) + "/" + proto;
    && (k in bindings <==> exists i :: 0 <= i < |mappings| && AsksFor(mappings[i], containerPort, proto))
    && forall i :: LastAsks(mappings, i, containerPort, proto) ==>
         k in bindings && bindings[k] == [PortBinding("0.0.0.0", Itoa(port + mappings[i].hostPortOffset))]
  }

  /** Each port is published under each protocol some mapping asks for, by the last one that does, and
      nothing else is. */
  ghost predicate Publishes(bindings: map<string, seq<PortBinding>>, port: int, mappings: seq<PortMapping>) {
    && (forall c {:trigger PublishesAt(bindings, port, mappings, c, "tcp")} ::
          PublishesAt(bindings, port, mappings, c, "tcp"))
    && (forall c {:trigger PublishesAt(bindings, port, mappings, c, "udp")} ::
          PublishesAt(bindings, port, mappings, c, "udp"))
    && forall k :: k in bindings ==> exists c :: k == Itoa(c) + "/" + "tcp" || k == Itoa(c) + "/" + "udp"
  }

  lemma CoversAsks(m: PortMapping, e: Endpoint)
    ensures Covers(m, e) <==> AsksFor(m, e.0, e.1)
  {
  }

  lemma RenderedPublishesAt(bindings: map<string, seq<PortBinding>>, port: int, mappings: seq<PortMapping>, e: Endpoint)
    requires Rendered(bindings, Bound(port, mappings))
    ensures PublishesAt(bindings, port, mappings, e.0, e.1)
  {
    var bound := Bound(port, mappings);
    BoundKeys(port, mappings, e);
    assert Binds(bindings, bound, e);
    if Key(e.0, e.1) in bindings {
      assert IsKeyOf(Key(e.0, e.1), bound);
      var f :| f in bound && Key(e.0, e.1) == Key(f.0, f.1);
      KeyInjective(e, f);
    }
    forall i | 0 <= i < |mappings|
      ensures Covers(mappings[i], e) <==> AsksFor(mappings[i], e.0, e.1)
    {
      CoversAsks(mappings[i], e);
    }
    forall i | LastAsks(mappings, i, e.0, e.1)
      ensures e in bound && bound[e] == port + mappings[i].hostPortOffset
    {
      LastBinds(port, mappings, i, e);
    }
  }

  lemma LastBinds(port: int, mappings: seq<PortMapping>, i: int, e: Endpoint)
    requires LastAsks(mappings, i, e.0, e.1)
    ensures e in Bound(port, mappings) && Bound(port, mappings)[e] == port + mappings[i].hostPortOffset
  {
    CoversAsks(mappings[i], e);
    BoundKeys(port, mappings, e);
    BoundLast(port, mappings, e);
    var l :| 0 <= l < |mappings| && Covers(mappings[l], e)
        && Bound(port, mappings)[e] == port + mappings[l].hostPortOffset
      && forall j :: l < j < |mappings| ==> !Covers(mappings[j], e);
    CoversAsks(mappings[l], e);
    assert l == i;
  }

  lemma RenderedPublishes(bindings: map<string, seq<PortBinding>>, port: int, mappings: seq<PortMapping>)
    requires Rendered(bindings, Bound(port, mappings))
    ensures Publishes(bindings, port, mappings)
  {
    forall c
      ensures PublishesAt(bindings, port, mappings, c, "tcp")
    {
      RenderedPublishesAt(bindings, port, mappings, (c, "tcp"));
    }
    forall c
      ensures PublishesAt(bindings, port, mappings, c, "udp")
    {
      RenderedPublishesAt(bindings, port, mappings, (c, "udp"));
    }
    forall k | k in bindings
      ensures exists c :: k == Itoa(c) + "/" + "tcp" || k == Itoa(c) + "/" + "udp"
    {
      RenderedKey(bindings, port, mappings, k);
    }
  }

  lemma RenderedKey(bindings: map<string, seq<PortBinding>>, port: int, mappings: seq<PortMapping>, k: string)
    requires Rendered(bindings, Bound(port, mappings)) && k in bindings
    ensures exists c :: k == Itoa(c) + "/" + "tcp" || k == Itoa(c) + "/" + "udp"
  {
    assert IsKeyOf(k, Bound(port, mappings));
    var e :| e in Bound(port, mappings) && k == Key(e.0, e.1);
    BoundKeys(port, mappings, e);
    var i :| 0 <= i < |mappings| && Covers(mappings[i], e);
    CoversAsks(mappings[i], e);
  }

  /** The port part of StartContainer: the container exposes exactly the keys it binds, one key per
      covered endpoint, each to one host port. */
  method ExpandPorts(port: int, mappings: seq<PortMapping>)
    returns (exposed: set<string>, bindings: map<string, seq<PortBinding>>)
    ensures exposed == bindings.Keys
    ensures Rendered(bindings, Bound(port, Effective(port, mappings)))
    ensures mappings != [] ==> Publishes(bindings, port, mappings)
    ensures mappings == [] ==>
      bindings == map[Itoa(port) + "/" + "tcp" := [PortBinding("0.0.0.0", Itoa(port))],
                      Itoa(port) + "/" + "udp" := [PortBinding("0.0.0.0", Itoa(port))]]
  {
    exposed, bindings := {}, map[];
    for i := 0 to |mappings|
      invariant exposed == bindings.Keys
      invariant Rendered(bindings, Bound(port, mappings[..i]))
      invariant i == 0 ==> bindings == map[]
    {
      assert mappings[..i + 1][..i] == mappings[..i];
      exposed, bindings := ExpandOne(port, mappings[i], exposed, bindings, Bound(port, mappings[..i]));
    }
    assert mappings[..|mappings|] == mappings;
    if |mappings| == 0 {
      ghost var none: map<Endpoint, int> := map[];
      RenderOne(bindings, none, (port, "udp"), port);
      var natPortUDP, natPortTCP := Key(port, "udp"), Key(port, "tcp");
      exposed := exposed + {natPortUDP} + {natPortTCP};
      bindings := bindings[natPortUDP := [PortBinding("0.0.0.0", Itoa(port))]];
      RenderOne(bindings, none[(port, "udp") := port], (port, "tcp"), port);
      bindings := bindings[natPortTCP := [PortBinding("0.0.0.0", Itoa(port))]];
      DefaultBound(port);
      KeyInjective((port, "udp"), (port, "tcp"));
      assert natPortUDP == Itoa(port) + "/" + "udp" && natPortTCP == Itoa(port) + "/" + "tcp";
    } else {
      RenderedPublishes(bindings, port, mappings);
    }
  }

  method ExpandOne(port: int, pm: PortMapping, exposed: set<string>, bindings: map<string, seq<PortBinding>>,
                   ghost before: map<Endpoint, int>)
    returns (exposed': set<string>, bindings': map<string, seq<PortBinding>>)
    requires exposed == bindings.Keys && Rendered(bindings, before)
    ensures exposed' == bindings'.Keys
    ensures Rendered(bindings', BindAll(before, port + pm.hostPortOffset, pm.containerPort, Protocols(pm.protocol)))
  {
    var hostPort, containerPort := port + pm.hostPortOffset, pm.containerPort;
    var protocols :=
      if pm.protocol == "both" then ["tcp", "udp"]
      else if pm.protocol == "tcp" then ["tcp"]
      else ["udp"];
    exposed', bindings' := exposed, bindings;
    for j := 0 to |protocols|
      invariant exposed' == bindings'.Keys
      invariant Rendered(bindings', BindAll(before, hostPort, containerPort, protocols[..j]))
    {
      assert protocols[..j + 1][..j] == protocols[..j];
      var natPort := Key(containerPort, protocols[j]);
      RenderOne(bindings', BindAll(before, hostPort, containerPort, protocols[..j]),
                (containerPort, protocols[j]), hostPort);
      exposed' := exposed' + {natPort};
      bindings' := bindings'[natPort := [PortBinding("0.0.0.0", Itoa(hostPort))]];
    }
    assert protocols[..|protocols|] == protocols;
  }

  lemma DefaultBound(port: int)
    ensures Bound(port, Effective(port, [])) == map[(port, "udp") := port, (port, "tcp") := port]
  {
    var ms := Effective(port, []);
    assert Bound(port, ms[..0]) == map[];
    var b0: map<Endpoint, int> := map[];
    assert ["tcp", "udp"][..1] == ["tcp"] && ["tcp"][..0] == [];
    assert BindAll(b0, port, port, ["tcp"]) == map[(port, "tcp") := port];
  }

  // ---- Which endpoint binds where

  lemma {:induction false} BindAllMeaning(b: map<Endpoint, int>, hostPort: int, containerPort: int,
                                          protos: seq<string>, e: Endpoint)
    ensures var r := BindAll(b, hostPort, containerPort, protos);
      var hit := e.0 == containerPort && e.1 in protos;
      (e in r <==> hit || e in b) && (e in r ==> r[e] == if hit then hostPort else b[e])
  {
    if protos == [] {
    } else {
      BindAllMeaning(b, hostPort, containerPort, protos[..|protos| - 1], e);
      assert protos == protos[..|protos| - 1] + [protos[|protos| - 1]];
    }
  }

  /** Every endpoint that some mapping covers is bound, and no other is. */
  lemma {:induction false} BoundKeys(port: int, mappings: seq<PortMapping>, e: Endpoint)
    ensures e in Bound(port, mappings) <==> exists i :: 0 <= i < |mappings| && Covers(mappings[i], e)
  {
    if mappings == [] {
    } else {
      var n := |mappings| - 1;
      var front, m := mappings[..n], mappings[n];
      BoundKeys(port, front, e);
      BindAllMeaning(Bound(port, front), port + m.hostPortOffset, m.containerPort, Protocols(m.protocol), e);
      assert forall i :: 0 <= i < n ==> front[i] == mappings[i];
    }
  }

  /** The last covering mapping wins. */
  lemma {:induction false} BoundLast(port: int, mappings: seq<PortMapping>, e: Endpoint)
    requires e in Bound(port, mappings)
    ensures IsHostPort(port, mappings, e, Bound(port, mappings)[e])
  {
    var n := |mappings| - 1;
    var front, m := mappings[..n], mappings[n];
    BindAllMeaning(Bound(port, front), port + m.hostPortOffset, m.containerPort, Protocols(m.protocol), e);
    assert mappings == front + [m];
    if Covers(m, e) {
      assert IsHostPort(port, mappings, e, port + m.hostPortOffset);
    } else {
      BoundLast(port, front, e);
      HostPortOfFront(port, front, m, e, Bound(port, front)[e]);
    }
  }

  lemma HostPortOfFront(port: int, front: seq<PortMapping>, m: PortMapping, e: Endpoint, hostPort: int)
    requires IsHostPort(port, front, e, hostPort) && !Covers(m, e)
    ensures IsHostPort(port, front + [m], e, hostPort)
  {
    var i :| 0 <= i < |front| && Covers(front[i], e) && hostPort == port + front[i].hostPortOffset
      && forall j :: i < j < |front| ==> !Covers(front[j], e);
    assert Covers((front + [m])[i], e);
  }

  /** The offset an endpoint gets does not depend on the base port. */
  lemma {:induction false} BoundShifts(p: int, q: int, mappings: seq<PortMapping>, e: Endpoint)
    ensures e in Bound(p, mappings) <==> e in Bound(q, mappings)
    ensures e in Bound(p, mappings) ==> Bound(p, mappings)[e] - p == Bound(q, mappings)[e] - q
  {
    if mappings == [] {
    } else {
      var n := |mappings| - 1;
      var m := mappings[n];
      BoundShifts(p, q, mappings[..n], e);
      BindAllMeaning(Bound(p, mappings[..n]), p + m.hostPortOffset, m.containerPort, Protocols(m.protocol), e);
      BindAllMeaning(Bound(q, mappings[..n]), q + m.hostPortOffset, m.containerPort, Protocols(m.protocol), e);
    }
  }

  // ---- Two servers on one host

  /** Some host port and protocol is claimed by both. */
  ghost predicate Clash(a: map<Endpoint, int>, b: map<Endpoint, int>) {
    exists e, f :: e in a && f in b && e.1 == f.1 && a[e] == b[f]
  }

  ghost predicate OffsetGap(mappings: seq<PortMapping>, gap: int) {
    exists m, n, q :: m in mappings && n in mappings && q in Protocols(m.protocol) && q in Protocols(n.protocol)
      && gap == m.hostPortOffset - n.hostPortOffset
  }

  /** An endpoint that is mapped more than once is mapped with one and the same offset. */
  ghost predicate SameOffsets(mappings: seq<PortMapping>) {
    forall m, n, e {:trigger Covers(m, e), Covers(n, e)} ::
      m in mappings && n in mappings && Covers(m, e) && Covers(n, e) ==> m.hostPortOffset == n.hostPortOffset
  }

  /** Two servers of one game with base ports p and q get along when q - p is no difference of two
      offsets that share a protocol. */
  lemma NoGapNoClash(p: int, q: int, mappings: seq<PortMapping>)
    requires !OffsetGap(mappings, q - p)
    ensures !Clash(Bound(p, mappings), Bound(q, mappings))
  {
    var a, b := Bound(p, mappings), Bound(q, mappings);
    forall e, f | e in a && f in b && e.1 == f.1
      ensures a[e] != b[f]
    {
      BoundLast(p, mappings, e);
      BoundLast(q, mappings, f);
      var i :| 0 <= i < |mappings| && Covers(mappings[i], e) && a[e] == p + mappings[i].hostPortOffset;
      var j :| 0 <= j < |mappings| && Covers(mappings[j], f) && b[f] == q + mappings[j].hostPortOffset;
      assert mappings[i] in mappings && mappings[j] in mappings;
    }
  }

  /** When no endpoint is mapped with two offsets, that condition is exact. */
  lemma GapIffClash(p: int, q: int, mappings: seq<PortMapping>)
    requires SameOffsets(mappings)
    ensures OffsetGap(mappings, q - p) <==> Clash(Bound(p, mappings), Bound(q, mappings))
  {
    if OffsetGap(mappings, q - p) {
      var m, n, proto :| m in mappings && n in mappings && proto in Protocols(m.protocol)
          && proto in Protocols(n.protocol)
        && q - p == m.hostPortOffset - n.hostPortOffset;
      UniqueBound(p, mappings, m, proto);
      UniqueBound(q, mappings, n, proto);
    } else {
      NoGapNoClash(p, q, mappings);
    }
  }

  lemma UniqueBound(port: int, mappings: seq<PortMapping>, m: PortMapping, proto: string)
    requires SameOffsets(mappings) && m in mappings && proto in Protocols(m.protocol)
    ensures (m.containerPort, proto) in Bound(port, mappings)
    ensures Bound(port, mappings)[(m.containerPort, proto)] == port + m.hostPortOffset
  {
    var e := (m.containerPort, proto);
    assert Covers(m, e);
    var k :| 0 <= k < |mappings| && mappings[k] == m;
    BoundKeys(port, mappings, e);
    BoundLast(port, mappings, e);
    var i :| 0 <= i < |mappings| && Covers(mappings[i], e)
        && Bound(port, mappings)[e] == port + mappings[i].hostPortOffset;
    assert mappings[i] in mappings;
  }

  // ---- The order of the mappings

  lemma BoundInBoth(port: int, a: seq<PortMapping>, b: seq<PortMapping>, e: Endpoint)
    requires SameOffsets(b) && e in Bound(port, a)
    requires forall m :: m in a ==> m in b
    ensures e in Bound(port, b) && Bound(port, b)[e] == Bound(port, a)[e]
  {
    BoundLast(port, a, e);
    var i :| 0 <= i < |a| && Covers(a[i], e) && Bound(port, a)[e] == port + a[i].hostPortOffset;
    assert a[i] in b;
    UniqueBound(port, b, a[i], e.1);
  }

  /** When no endpoint is mapped with two offsets, neither the order of the mappings nor repetition
      matters. */
  lemma BoundOrderFree(port: int, a: seq<PortMapping>, b: seq<PortMapping>)
    requires SameOffsets(a)
    requires forall m :: m in a <==> m in b
    ensures Bound(port, a) == Bound(port, b)
  {
    assert SameOffsets(b);
    forall e
      ensures e in Bound(port, a) <==> e in Bound(port, b)
      ensures e in Bound(port, a) ==> Bound(port, a)[e] == Bound(port, b)[e]
    {
      if e in Bound(port, a) { BoundInBoth(port, a, b, e); }
      if e in Bound(port, b) { BoundInBoth(port, b, a, e); }
    }
  }

  function ToEnd(mappings: seq<PortMapping>, k: nat): seq<PortMapping>
    requires k < |mappings|
  {
    mappings[..k] + mappings[k + 1..] + [mappings[k]]
  }

  /** The mapping moved to the end decides the endpoints it covers. */
  lemma MovedToEnd(port: int, mappings: seq<PortMapping>, k: nat, e: Endpoint)
    requires k < |mappings| && Covers(mappings[k], e)
    ensures var b := ToEnd(mappings, k);
      && multiset(b) == multiset(mappings)
      && e in Bound(port, b) && Bound(port, b)[e] == port + mappings[k].hostPortOffset
  {
    var b := ToEnd(mappings, k);
    assert mappings == mappings[..k] + [mappings[k]] + mappings[k + 1..];
    assert Covers(b[|b| - 1], e);
    BoundKeys(port, b, e);
    BoundLast(port, b, e);
  }

  ghost predicate OrderFree(port: int, mappings: seq<PortMapping>) {
    forall b {:trigger Bound(port, b)} :: multiset(b) == multiset(mappings) ==> Bound(port, b) == Bound(port, mappings)
  }

  lemma PermutationsAgree(port: int, mappings: seq<PortMapping>, b: seq<PortMapping>)
    requires SameOffsets(mappings) && multiset(b) == multiset(mappings)
    ensures Bound(port, b) == Bound(port, mappings)
  {
    forall m
      ensures m in mappings <==> m in b
    {
      assert m in mappings <==> m in multiset(mappings);
      assert m in b <==> m in multiset(b);
    }
    BoundOrderFree(port, mappings, b);
  }

  lemma Different(a: map<Endpoint, int>, b: map<Endpoint, int>, e: Endpoint)
    requires e in a && e in b && a[e] != b[e]
    ensures a != b
  {
  }

  lemma TwoOffsetsMatter(port: int, mappings: seq<PortMapping>, i: nat, j: nat, e: Endpoint)
    requires i < |mappings| && j < |mappings| && Covers(mappings[i], e) && Covers(mappings[j], e)
    requires mappings[i].hostPortOffset != mappings[j].hostPortOffset
    ensures !OrderFree(port, mappings)
  {
    MovedToEnd(port, mappings, i, e);
    MovedToEnd(port, mappings, j, e);
    Different(Bound(port, ToEnd(mappings, i)), Bound(port, ToEnd(mappings, j)), e);
  }

  /** The bindings are the same in every order of the mappings if and only if no endpoint is mapped with
      two offsets. */
  lemma OrderFreeIffSameOffsets(port: int, mappings: seq<PortMapping>)
    ensures OrderFree(port, mappings) <==> SameOffsets(mappings)
  {
    if SameOffsets(mappings) {
      forall b | multiset(b) == multiset(mappings)
        ensures Bound(port, b) == Bound(port, mappings)
      {
        PermutationsAgree(port, mappings, b);
      }
    } else {
      var m, n, e :| m in mappings && n in mappings && Covers(m, e) && Covers(n, e)
          && m.hostPortOffset != n.hostPortOffset;
      var i :| 0 <= i < |mappings| && mappings[i] == m;
      var j :| 0 <= j < |mappings| && mappings[j] == n;
      TwoOffsetsMatter(port, mappings, i, j, e);
    }
  }

  /** Without mappings two servers clash exactly when they share the base port. */
  lemma DefaultClash(p: int, q: int)
    ensures Clash(Bound(p, Effective(p, [])), Bound(q, Effective(q, []))) <==> p == q
  {
    DefaultBound(p);
    DefaultBound(q);
    if p == q {
      assert (p, "tcp") in Bound(p, Effective(p, []));
    }
  }

  predicate SharedBinding(x: map<string, seq<PortBinding>>, k: string, y: map<string, seq<PortBinding>>, l: string) {
    k in x && l in y && x[k] == y[l]
  }

  /** The clash is about the rendered bindings as well: equal host port strings and protocols. */
  lemma ClashIsVisible(a: map<Endpoint, int>, b: map<Endpoint, int>,
                       x: map<string, seq<PortBinding>>, y: map<string, seq<PortBinding>>)
    requires Rendered(x, a) && Rendered(y, b)
    ensures Clash(a, b) <==>
      exists e, f :: e in a && f in b && e.1 == f.1 && SharedBinding(x, Key(e.0, e.1), y, Key(f.0, f.1))
  {
    forall e, f | e in a && f in b
      ensures SharedBinding(x, Key(e.0, e.1), y, Key(f.0, f.1)) <==> a[e] == b[f]
    {
      assert Binds(x, a, e) && Binds(y, b, f);
      ItoaInjective(a[e], b[f]);
      assert x[Key(e.0, e.1)][0].hostPort == Itoa(a[e]) && y[Key(f.0, f.1)][0].hostPort == Itoa(b[f]);
    }
  }
}
