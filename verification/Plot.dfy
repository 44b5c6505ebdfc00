/**
 The graph that hivescope/topology_plot.py draws: the two halves of a relay are contracted into one
 vertex, and every connection becomes an edge from upstream to downstream.
 */
module Plot {
  import opened Options
  import opened Lists
  import opened Topology

  datatype Edge = Edge(src: string, dst: string)

  // `skipped` counts how often the guard against self-loops and duplicates fired.
  datatype Graph = Graph(nodes: set<string>, edges: seq<Edge>, skipped: nat)

  // The relays of the registry whose two halves are both there.
  function Bases(b: Builder, registry: seq<string>): seq<string>
  {
    if registry == [] then []
    else (if registry[0] + SAT in b.satellites && registry[0] + MASTER in b.masters then [registry[0]] else [])
         + Bases(b, registry[1..])
  }

  /** The contracted relays are exactly the registered ones of which both halves are there. */
  lemma {:induction false} BasesHaveBothHalves(b: Builder, registry: seq<string>)
    ensures forall r :: r in Bases(b, registry) <==>
              r in registry && r + SAT in b.satellites && r + MASTER in b.masters
  {
    if registry != [] {
      BasesHaveBothHalves(b, registry[1..]);
      assert forall r :: r in registry <==> r == registry[0] || r in registry[1..];
    }
  }

  // `_canonical`
  function Canonical(bases: seq<string>, name: string): string
  {
    if RelayOf(bases, name, SAT).Some? then RelayOf(bases, name, SAT).value
    else if RelayOf(bases, name, MASTER).Some? then RelayOf(bases, name, MASTER).value
    else name
  }

  function EdgeOf(bases: seq<string>, link: Link): Edge
  {
    Edge(Canonical(bases, link.master), Canonical(bases, link.sat))
  }

  predicate Raw(b: Builder, name: string)
  {
    name in b.masters || name in b.satellites
  }

  lemma {:induction false} AllRelaysAreBases(b: Builder, registry: seq<string>)
    requires forall r :: r in registry ==> r + SAT in b.satellites && r + MASTER in b.masters
    ensures Bases(b, registry) == registry
  {
    if registry != [] {
      AllRelaysAreBases(b, registry[1..]);
      assert registry == [registry[0]] + registry[1..];
    }
  }

  lemma CanonicalOfHalf(relays: seq<string>, r: string)
    requires r in relays
    ensures Canonical(relays, r + SAT) == r && Canonical(relays, r + MASTER) == r
  {
    HalfOf(relays, r, SAT);
    HalfOf(relays, r, MASTER);
    RelayOfName(relays, r + MASTER, SAT);
    EndsDiffer(r);
  }

  lemma EndsDiffer(r: string)
    ensures (r + MASTER)[|r + MASTER| - 1] == 'r' && (r + SAT)[|r + SAT| - 1] == 't'
    ensures forall q: string :: q + SAT != r + MASTER
  {
    forall q: string ensures q + SAT != r + MASTER {
      assert (q + SAT)[|q + SAT| - 1] == 't';
    }
  }

  // x and y are one device: the same node, or the two halves of a relay.
  predicate SameDevice(b: Builder, x: string, y: string)
  {
    x == y || (exists r :: r in b.relays && Halves(r, x, y))
  }

  predicate Halves(r: string, x: string, y: string)
  {
    (x == r + SAT && y == r + MASTER) || (x == r + MASTER && y == r + SAT)
  }

  /** Contraction merges exactly the two halves of a relay and nothing else. */
  lemma ContractionMergesDevices(b: Builder, x: string, y: string)
    requires WellBuilt(b) && Raw(b, x) && Raw(b, y)
    ensures Canonical(b.relays, x) == Canonical(b.relays, y) <==> SameDevice(b, x, y)
  {
    RelayOfName(b.relays, x, SAT);
    RelayOfName(b.relays, x, MASTER);
    RelayOfName(b.relays, y, SAT);
    RelayOfName(b.relays, y, MASTER);
    if x != y && SameDevice(b, x, y) {
      var r :| r in b.relays && Halves(r, x, y);
      CanonicalOfHalf(b.relays, r);
    }
    if x != y && Canonical(b.relays, x) == Canonical(b.relays, y) {
      var r := Canonical(b.relays, x);
      assert r in b.relays;
      assert x == r + SAT || x == r + MASTER;
      assert y == r + SAT || y == r + MASTER;
      assert Halves(r, x, y);
    }
  }

  // A satellite and a listener are one device exactly when they are the halves of one relay.
  lemma LowerAndUpperHalf(b: Builder, s: string, m: string)
    requires WellBuilt(b) && s in b.satellites && m in b.masters
    ensures Canonical(b.relays, s) == Canonical(b.relays, m)
            <==> RelayOf(b.relays, m, MASTER).Some? && s == RelayOf(b.relays, m, MASTER).value + SAT
  {
    ContractionMergesDevices(b, s, m);
    RelayOfName(b.relays, m, MASTER);
    if SameDevice(b, s, m) {
      var r :| r in b.relays && Halves(r, s, m);
      assert r + SAT in b.satellites && r + MASTER in b.masters;
      HalfOf(b.relays, r, MASTER);
    }
    if RelayOf(b.relays, m, MASTER).Some? && s == RelayOf(b.relays, m, MASTER).value + SAT {
      assert Halves(RelayOf(b.relays, m, MASTER).value, s, m);
    }
  }

  // A link goes down from link i exactly when its master is the listener of i's relay.
  lemma BelowInTheGraph(b: Builder, i: nat, j: nat)
    requires WellBuilt(b) && i < |b.links| && j < |b.links|
    ensures Canonical(b.relays, b.links[i].sat) == Canonical(b.relays, b.links[j].master) <==> Above(b, j) == Some(i)
  {
    var s, m := b.links[i].sat, b.links[j].master;
    assert s == b.satellites[i] && m in b.masters;
    LowerAndUpperHalf(b, s, m);
    RelayOfName(b.relays, m, MASTER);
    var r := RelayOf(b.relays, m, MASTER);
    if r.Some? {
      assert r.value + SAT in b.satellites;
      var at := IndexOf(b.satellites, r.value + SAT);
      assert at == i <==> b.satellites[at] == b.satellites[i];
    }
  }

  lemma SatellitesStayApart(b: Builder, i: nat, j: nat)
    requires WellBuilt(b) && i < |b.links| && j < |b.links| && i != j
    ensures Canonical(b.relays, b.links[i].sat) != Canonical(b.relays, b.links[j].sat)
  {
    var x, y := b.satellites[i], b.satellites[j];
    ContractionMergesDevices(b, x, y);
    forall r | r in b.relays ensures !Halves(r, x, y) {
      assert r + MASTER in b.masters;
    }
  }

  /** The contracted edges of a well-built hive: one per connection, none a self-loop, none a
      duplicate, and no vertex with two incoming edges. */
  lemma EdgesAreATree(b: Builder, i: nat, j: nat)
    requires WellBuilt(b) && i < |b.links| && j < |b.links|
    ensures EdgeOf(b.relays, b.links[i]).src != EdgeOf(b.relays, b.links[i]).dst
    ensures i != j ==> EdgeOf(b.relays, b.links[i]).dst != EdgeOf(b.relays, b.links[j]).dst
  {
    BelowInTheGraph(b, i, i);
    if i != j {
      SatellitesStayApart(b, i, j);
    }
  }

  // w is a walk in the graph, given by the numbers of its edges.
  predicate Walk(b: Builder, w: seq<nat>)
  {
    && (forall t :: 0 <= t < |w| ==> w[t] < |b.links|)
    && (forall t :: 0 <= t < |w| - 1 ==> EdgeOf(b.relays, b.links[w[t]]).dst == EdgeOf(b.relays, b.links[w[t + 1]]).src)
  }

  /** The graph is acyclic: every walk uses edges in the order they were built, so none closes. */
  lemma {:induction false} NoCycles(b: Builder, w: seq<nat>)
    requires WellBuilt(b) && Walk(b, w) && w != []
    ensures w[0] <= w[|w| - 1]
    ensures EdgeOf(b.relays, b.links[w[|w| - 1]]).dst != EdgeOf(b.relays, b.links[w[0]]).src
    decreases |w|
  {
    if |w| > 1 {
      NoCycles(b, w[1..]);
      BelowInTheGraph(b, w[0], w[1]);
    }
    BelowInTheGraph(b, w[|w| - 1], w[0]);
  }

  /** Fresh names are needed, and nothing checks them: a satellite that is called like a relay's
      own half and hangs below that relay becomes a self-loop, which the guard drops. */
  lemma CollidingNamesLoop()
    ensures var b := Build([Master("M0"), Relay("R", AMaster("M0")), Satellite("R" + SAT, ARelay("R"))]);
            && b.links == [Link("R" + SAT, "M0"), Link("R" + SAT, "R" + MASTER)] && b.relays == ["R"]
            && EdgeOf(b.relays, b.links[1]) == Edge("R", "R") && !WellBuilt(b)
  {
    var ops := [Master("M0"), Relay("R", AMaster("M0")), Satellite("R" + SAT, ARelay("R"))];
    BuildPush([], Master("M0"));
    BuildPush([Master("M0")], ops[1]);
    BuildPush([Master("M0"), ops[1]], ops[2]);
    assert [] + [Master("M0")] == [Master("M0")];
    assert [Master("M0")] + [ops[1]] == [Master("M0"), ops[1]];
    assert [Master("M0"), ops[1]] + [ops[2]] == ops;
    CanonicalOfHalf(["R"], "R");
  }

  // ----- vertices -----

  function VertexSet(relays: seq<string>, names: seq<string>): set<string>
  {
    set x | x in names :: Canonical(relays, x)
  }

  function Vertices(b: Builder): set<string>
  {
    VertexSet(b.relays, b.masters) + VertexSet(b.relays, b.satellites)
  }

  lemma OldNamesStay(b: Builder, op: Op, x: string)
    requires WellBuilt(b) && Fresh(b, op) && Raw(b, x)
    ensures Canonical(Apply(b, op).relays, x) == Canonical(b.relays, x)
    ensures Used(b, Canonical(b.relays, x))
  {
    var relays' := Apply(b, op).relays;
    RelayOfName(b.relays, x, SAT);
    RelayOfName(b.relays, x, MASTER);
    RelayOfName(relays', x, SAT);
    RelayOfName(relays', x, MASTER);
  }

  lemma OldVerticesStay(b: Builder, op: Op)
    requires WellBuilt(b) && Fresh(b, op)
    ensures VertexSet(Apply(b, op).relays, b.masters) == VertexSet(b.relays, b.masters)
    ensures VertexSet(Apply(b, op).relays, b.satellites) == VertexSet(b.relays, b.satellites)
    ensures forall v :: v in Vertices(b) ==> Used(b, v)
  {
    forall x | Raw(b, x)
      ensures Canonical(Apply(b, op).relays, x) == Canonical(b.relays, x) && Used(b, Canonical(b.relays, x))
    {
      OldNamesStay(b, op, x);
    }
  }

  lemma VertexSetPush(relays: seq<string>, names: seq<string>, x: string)
    ensures VertexSet(relays, names + [x]) == VertexSet(relays, names) + {Canonical(relays, x)}
  {
  }

  lemma NewNameIsItself(b: Builder, name: string)
    requires NamesFit(b) && !Used(b, name)
    ensures Canonical(b.relays, name) == name
  {
    RelayOfName(b.relays, name, SAT);
    RelayOfName(b.relays, name, MASTER);
  }

  // A builder call that takes effect adds exactly one vertex.
  lemma OneVertexPerCall(b: Builder, op: Op)
    requires WellBuilt(b) && Fresh(b, op) && Apply(b, op) != b
    ensures Vertices(Apply(b, op)) == Vertices(b) + {op.name} && op.name !in Vertices(b)
  {
    OldVerticesStay(b, op);
    match op
    case Master(name) =>
      NewNameIsItself(b, name);
      VertexSetPush(b.relays, b.masters, name);
    case Satellite(name, _) =>
      NewNameIsItself(b, name);
      VertexSetPush(b.relays, b.satellites, name);
    case Relay(name, _) =>
      var relays := b.relays + [name];
      CanonicalOfHalf(relays, name);
      VertexSetPush(relays, b.masters, name + MASTER);
      VertexSetPush(relays, b.satellites, name + SAT);
  }

  predicate Counted(b: Builder)
  {
    |Vertices(b)| == |b.masters| + |b.satellites| - |b.relays|
  }

  lemma CallKeepsCount(b: Builder, op: Op)
    requires WellBuilt(b) && Fresh(b, op) && Counted(b)
    ensures Counted(Apply(b, op))
  {
    if Apply(b, op) != b {
      OneVertexPerCall(b, op);
      OneNamePerCall(b, op);
    }
  }

  /** The contracted graph has exactly masters + satellites - relays vertices. */
  lemma {:induction false} VertexCount(ops: seq<Op>)
    requires AllFresh(ops)
    ensures Counted(Build(ops))
  {
    if ops == [] {
      assert Vertices(EMPTY) == {};
    } else {
      VertexCount(ops[..|ops| - 1]);
      BuilderMakesForests(ops[..|ops| - 1]);
      CallKeepsCount(Build(ops[..|ops| - 1]), ops[|ops| - 1]);
    }
  }

  lemma OneNamePerCall(b: Builder, op: Op)
    requires Fresh(b, op) && Apply(b, op) != b
    ensures var b' := Apply(b, op);
            |b'.masters| + |b'.satellites| - |b'.relays| == |b.masters| + |b.satellites| - |b.relays| + 1
  {
  }

  // ----- roles -----

  datatype Role = RelayRole | MasterRole | SatelliteRole

  // `_role`
  function RoleOf(b: Builder, bases: seq<string>, canon: string): Role
  {
    if canon in bases then RelayRole else if canon in b.masters then MasterRole else SatelliteRole
  }

  predicate Enters(b: Builder, i: nat, canon: string)
  {
    i < |b.links| && EdgeOf(b.relays, b.links[i]).dst == canon
  }

  predicate Leaves(b: Builder, i: nat, canon: string)
  {
    i < |b.links| && EdgeOf(b.relays, b.links[i]).src == canon
  }

  /** The colours say what the legend promises: a vertex is drawn as a master exactly when nothing
      is upstream of it, and one drawn as a satellite has something upstream and nothing below. */
  lemma RolesFitTheGraph(b: Builder, x: string)
    requires WellBuilt(b) && Raw(b, x)
    ensures var canon := Canonical(b.relays, x);
            && (RoleOf(b, b.relays, canon).MasterRole? <==> forall i :: !Enters(b, i, canon))
            && (RoleOf(b, b.relays, canon).SatelliteRole? ==> forall i :: !Leaves(b, i, canon))
  {
    var canon := Canonical(b.relays, x);
    RelayOfName(b.relays, x, SAT);
    RelayOfName(b.relays, x, MASTER);
    if canon in b.relays {
      CanonicalOfHalf(b.relays, canon);
      assert Enters(b, IndexOf(b.satellites, canon + SAT), canon);
    } else {
      assert canon == x;
      forall i | 0 <= i < |b.links| ensures Enters(b, i, canon) <==> b.satellites[i] == x {
        ContractionMergesDevices(b, b.links[i].sat, x);
        OwnDevice(b, b.links[i].sat, x);
      }
      forall i | 0 <= i < |b.links| ensures Leaves(b, i, canon) <==> b.links[i].master == x {
        ContractionMergesDevices(b, b.links[i].master, x);
        OwnDevice(b, b.links[i].master, x);
      }
      if x in b.satellites {
        assert Enters(b, IndexOf(b.satellites, x), canon);
      }
    }
  }

  // A node that is no relay's half is a device of its own.
  lemma OwnDevice(b: Builder, y: string, x: string)
    requires WellBuilt(b) && Raw(b, x) && Canonical(b.relays, x) !in b.relays
    ensures SameDevice(b, y, x) <==> y == x
  {
    forall r | r in b.relays ensures !Halves(r, y, x) {
      CanonicalOfHalf(b.relays, r);
    }
  }

  // ----- reachability -----

  // One step down in the raw hive: a connection, or from a relay's satellite half to its listener.
  ghost predicate RawStep(b: Builder, x: string, y: string)
  {
    (exists i :: 0 <= i < |b.links| && b.links[i] == Link(y, x))
    || (exists r :: r in b.relays && x == r + SAT && y == r + MASTER)
  }

  ghost predicate RawPath(b: Builder, p: seq<string>)
  {
    p != [] && forall t :: 0 <= t < |p| - 1 ==> RawStep(b, p[t], p[t + 1])
  }

  ghost predicate PlotStep(b: Builder, x: string, y: string)
  {
    exists i :: 0 <= i < |b.links| && EdgeOf(b.relays, b.links[i]) == Edge(x, y)
  }

  ghost predicate PlotPath(b: Builder, p: seq<string>)
  {
    p != [] && forall t :: 0 <= t < |p| - 1 ==> PlotStep(b, p[t], p[t + 1])
  }

  ghost predicate RawReaches(b: Builder, x: string, y: string)
  {
    exists p :: RawPath(b, p) && p[0] == x && p[|p| - 1] == y
  }

  ghost predicate PlotReaches(b: Builder, x: string, y: string)
  {
    exists p :: PlotPath(b, p) && p[0] == x && p[|p| - 1] == y
  }

  lemma RawReachesStep(b: Builder, x: string, y: string, z: string)
    requires x == y || RawStep(b, x, y)
    requires RawReaches(b, y, z)
    ensures RawReaches(b, x, z)
  {
    var p :| RawPath(b, p) && p[0] == y && p[|p| - 1] == z;
    if x != y {
      var p' := [x] + p;
      assert forall t :: 0 <= t < |p'| - 1 ==> p'[t + 1] == p[t] && (t > 0 ==> p'[t] == p[t - 1]);
      assert RawPath(b, p');
    }
  }

  lemma RawReachesSelf(b: Builder, x: string)
    ensures RawReaches(b, x, x)
  {
    assert RawPath(b, [x]);
  }

  lemma PlotPathStep(b: Builder, x: string, q: seq<string>)
    requires PlotPath(b, q) && PlotStep(b, x, q[0])
    ensures PlotReaches(b, x, q[|q| - 1])
  {
    var p := [x] + q;
    assert forall t :: 0 <= t < |p| - 1 ==> p[t + 1] == q[t] && (t > 0 ==> p[t] == q[t - 1]);
    assert PlotPath(b, p);
  }

  // Going down one raw step moves along one edge of the graph, or stays on the vertex.
  lemma {:induction false} RawPathContracts(b: Builder, p: seq<string>)
    requires WellBuilt(b) && RawPath(b, p)
    ensures PlotReaches(b, Canonical(b.relays, p[0]), Canonical(b.relays, p[|p| - 1]))
    decreases |p|
  {
    var x := Canonical(b.relays, p[0]);
    if |p| == 1 {
      assert PlotPath(b, [x]);
    } else {
      assert RawStep(b, p[0], p[1]);
      RawPathContracts(b, p[1..]);
      var y := Canonical(b.relays, p[1]);
      var q :| PlotPath(b, q) && q[0] == y && q[|q| - 1] == Canonical(b.relays, p[|p| - 1]);
      if i :| 0 <= i < |b.links| && b.links[i] == Link(p[1], p[0]) {
        assert EdgeOf(b.relays, b.links[i]) == Edge(x, y);
        PlotPathStep(b, x, q);
      } else {
        var r :| r in b.relays && p[0] == r + SAT && p[1] == r + MASTER;
        CanonicalOfHalf(b.relays, r);
      }
    }
  }

  // On one vertex, the upstream end reaches the listener and the satellite half reaches anything.
  lemma DeviceStep(b: Builder, x: string, y: string)
    requires WellBuilt(b) && Raw(b, x) && Raw(b, y) && Canonical(b.relays, x) == Canonical(b.relays, y)
    requires y in b.masters || x in b.satellites
    ensures x == y || RawStep(b, x, y)
  {
    ContractionMergesDevices(b, x, y);
    if x != y {
      var r :| r in b.relays && Halves(r, x, y);
    }
  }

  // A path of at least one edge between vertices can be followed in the raw hive.
  lemma {:induction false} PlotPathExpands(b: Builder, x: string, y: string, p: seq<string>)
    requires WellBuilt(b) && Raw(b, x) && Raw(b, y) && PlotPath(b, p) && |p| >= 2
    requires p[0] == Canonical(b.relays, x) && p[|p| - 1] == Canonical(b.relays, y)
    ensures RawReaches(b, x, y)
    decreases |p|
  {
    assert PlotStep(b, p[0], p[1]);
    var i :| 0 <= i < |b.links| && EdgeOf(b.relays, b.links[i]) == Edge(p[0], p[1]);
    var m, s := b.links[i].master, b.links[i].sat;
    assert s == b.satellites[i];
    if |p| == 2 {
      DeviceStep(b, s, y);
      RawReachesSelf(b, y);
      RawReachesStep(b, s, y, y);
    } else {
      PlotPathExpands(b, s, y, p[1..]);
    }
    DeviceStep(b, x, m);
    assert RawStep(b, m, s);
    RawReachesStep(b, m, s, y);
    RawReachesStep(b, x, m, y);
  }

  /** Contracting the relay halves preserves reachability: between different devices, one raw node
      reaches another exactly when its vertex reaches the other's vertex. */
  lemma ContractionPreservesReachability(b: Builder, x: string, y: string)
    requires WellBuilt(b) && Raw(b, x) && Raw(b, y) && !SameDevice(b, x, y)
    ensures RawReaches(b, x, y) <==> PlotReaches(b, Canonical(b.relays, x), Canonical(b.relays, y))
  {
    ContractionMergesDevices(b, x, y);
    if RawReaches(b, x, y) {
      var p :| RawPath(b, p) && p[0] == x && p[|p| - 1] == y;
      RawPathContracts(b, p);
    }
    if PlotReaches(b, Canonical(b.relays, x), Canonical(b.relays, y)) {
      var p :| PlotPath(b, p) && p[0] == Canonical(b.relays, x) && p[|p| - 1] == Canonical(b.relays, y);
      assert |p| >= 2;
      PlotPathExpands(b, x, y, p);
    }
  }

  // ----- the construction as it is written -----

  // The contracted links, in the order they were built.
  function Contracted(bases: seq<string>, links: seq<Link>): seq<Edge>
  {
    seq(|links|, i requires 0 <= i < |links| => EdgeOf(bases, links[i]))
  }

  // What the guards let through.
  function Drawn(es: seq<Edge>): seq<Edge>
  {
    if es == [] then [] else
      var d, e := Drawn(Init(es)), Last(es);
      if e.src != e.dst && e !in d then d + [e] else d
  }

  // No loop, no repetition.
  predicate Simple(es: seq<Edge>)
  {
    Distinct(es) && forall i :: 0 <= i < |es| ==> es[i].src != es[i].dst
  }

  lemma {:induction false} DrawnEdges(es: seq<Edge>)
    ensures forall e :: e in Drawn(es) <==> e in es && e.src != e.dst
    ensures Distinct(Drawn(es))
  {
    if es != [] {
      DrawnEdges(Init(es));
      assert es == Init(es) + [Last(es)];
    }
  }

  lemma SimplePush(es: seq<Edge>, e: Edge)
    ensures Simple(es + [e]) <==> Simple(es) && e.src != e.dst && e !in es
  {
    var more := es + [e];
    assert forall i :: 0 <= i < |es| ==> more[i] == es[i];
    assert more[|es|] == e;
  }

  /** The guards let everything through if and only if there is no loop and no repetition. */
  lemma {:induction false} AllDrawnIff(es: seq<Edge>)
    ensures |Drawn(es)| <= |es|
    ensures |Drawn(es)| == |es| <==> Simple(es)
    ensures Simple(es) ==> Drawn(es) == es
  {
    if es != [] {
      AllDrawnIff(Init(es));
      DrawnEdges(Init(es));
      SimplePush(Init(es), Last(es));
      assert es == Init(es) + [Last(es)];
    }
  }

  /** For a well-built hive neither guard ever fires. */
  lemma GuardsStayIdle(b: Builder)
    requires WellBuilt(b)
    ensures Simple(Contracted(b.relays, b.links))
  {
    var es := Contracted(b.relays, b.links);
    forall i | 0 <= i < |es| ensures es[i].src != es[i].dst {
      EdgesAreATree(b, i, i);
    }
    forall i, j | 0 <= i < j < |es| ensures es[i] != es[j] {
      EdgesAreATree(b, i, j);
    }
  }

  /** `plot_topology_builder` up to the drawing, for any builder: the contracted nodes, and as edges
      the contracted links without loops and repetitions. The guards fire once for each link that is
      not drawn, so they never fire if and only if the contracted links are loop-free and pairwise
      different, as those of a well-built hive are. */
  method PlotTopology(b: Builder) returns (g: Graph)
    ensures var bases := Bases(b, b.relays);
            var es := Contracted(bases, b.links);
            && g.nodes == VertexSet(bases, b.masters) + VertexSet(bases, b.satellites)
            && (forall e :: e in g.edges <==> e in es && e.src != e.dst) && Distinct(g.edges)
            && g.skipped == |b.links| - |g.edges|
            && (g.skipped == 0 <==> Simple(es)) && (g.skipped == 0 ==> g.edges == es)
    ensures WellBuilt(b) ==> Bases(b, b.relays) == b.relays && g.nodes == Vertices(b) && g.skipped == 0
  {
    var bases := Bases(b, b.relays);
    if WellBuilt(b) {
      AllRelaysAreBases(b, b.relays);
      GuardsStayIdle(b);
    }
    var nodes := AddNodes(bases, b.masters, b.satellites);
    var edges, skipped := AddEdges(bases, b.links);
    DrawnEdges(Contracted(bases, b.links));
    AllDrawnIff(Contracted(bases, b.links));
    g := Graph(nodes, edges, skipped);
  }

  method AddNodes(bases: seq<string>, masters: seq<string>, satellites: seq<string>) returns (nodes: set<string>)
    ensures nodes == VertexSet(bases, masters) + VertexSet(bases, satellites)
  {
    nodes := {};
    for i := 0 to |masters|
      invariant nodes == VertexSet(bases, masters[..i])
    {
      assert masters[..i + 1] == masters[..i] + [masters[i]];
      VertexSetPush(bases, masters[..i], masters[i]);
      nodes := nodes + {Canonical(bases, masters[i])};
    }
    assert masters[..|masters|] == masters;
    ghost var listeners := nodes;
    for i := 0 to |satellites|
      invariant nodes == listeners + VertexSet(bases, satellites[..i])
    {
      assert satellites[..i + 1] == satellites[..i] + [satellites[i]];
      VertexSetPush(bases, satellites[..i], satellites[i]);
      nodes := nodes + {Canonical(bases, satellites[i])};
    }
    assert satellites[..|satellites|] == satellites;
  }

  method AddEdges(bases: seq<string>, links: seq<Link>) returns (edges: seq<Edge>, skipped: nat)
    ensures edges == Drawn(Contracted(bases, links)) && skipped == |links| - |edges|
  {
    edges, skipped := [], 0;
    ghost var es := Contracted(bases, links);
    for k := 0 to |links|
      invariant edges == Drawn(es[..k]) && skipped == k - |edges|
    {
      assert Init(es[..k + 1]) == es[..k];
      var e := EdgeOf(bases, links[k]);
      if e.src != e.dst && e !in edges {
        edges := edges + [e];
      } else {
        skipped := skipped + 1;
      }
    }
    assert es[..|links|] == es;
  }
}
