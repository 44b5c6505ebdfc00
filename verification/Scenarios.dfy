/**
 The parametric presets of hivescope/scenarios.py: a chain of relays with satellites under the
 last one, and a star.
 */
module Scenarios {
  import opened Options
  import opened Lists
  import opened Topology

  // ----- decimal numbers in names -----

  function Digit(d: nat): char
    requires d < 10
  {
    (48 + d) as char
  }

  function Dec(n: nat): (text: string)
    ensures text != [] && text[|text| - 1] <= '9'
  {
    if n < 10 then [Digit(n)] else Dec(n / 10) + [Digit(n % 10)]
  }

  function Value(text: string): int
  {
    if text == [] then 0 else 10 * Value(text[..|text| - 1]) + (text[|text| - 1] as int - 48)
  }

  lemma {:induction false} DecReadsBack(n: nat)
    ensures Value(Dec(n)) == n
  {
    if n < 10 {
      assert Dec(n)[..0] == [];
    } else {
      DecReadsBack(n / 10);
      assert Dec(n)[..|Dec(n)| - 1] == Dec(n / 10);
    }
  }

  function RelayName(level: nat): string
  {
    "R" + Dec(level)
  }

  function SatName(i: nat): string
  {
    "S" + Dec(i)
  }

  /** Names made from different numbers differ, and neither is a relay half or the root. */
  lemma NamesDiffer(i: nat, j: nat)
    ensures RelayName(i) == RelayName(j) ==> i == j
    ensures SatName(i) == SatName(j) ==> i == j
    ensures RelayName(i) + SAT == RelayName(j) + SAT ==> i == j
    ensures RelayName(i) + MASTER == RelayName(j) + MASTER ==> i == j
    ensures RelayName(i) + SAT != RelayName(j) && RelayName(i) + MASTER != RelayName(j)
    ensures RelayName(i) + SAT != RelayName(j) + MASTER
    ensures SatName(i) != RelayName(j) && SatName(i) != RelayName(j) + SAT && SatName(i) != RelayName(j) + MASTER
    ensures RelayName(j) != "M0" && RelayName(j) + SAT != "M0" && RelayName(j) + MASTER != "M0" && SatName(i) != "M0"
  {
    DecReadsBack(i);
    DecReadsBack(j);
    assert RelayName(i)[1..] == Dec(i) && RelayName(j)[1..] == Dec(j);
    assert SatName(i)[1..] == Dec(i) && SatName(j)[1..] == Dec(j);
    var a, b, c, d := RelayName(i) + SAT, RelayName(j) + SAT, RelayName(i) + MASTER, RelayName(j) + MASTER;
    assert a[..|a| - 4] == RelayName(i) && b[..|b| - 4] == RelayName(j);
    assert c[..|c| - 7] == RelayName(i) && d[..|d| - 7] == RelayName(j);
    assert a[|a| - 1] == 't' && c[|c| - 1] == 'r' && d[|d| - 1] == 'r';
    assert RelayName(j)[|RelayName(j)| - 1] <= '9';
    assert RelayName(j)[0] == 'R' && b[0] == 'R' && d[0] == 'R' && SatName(i)[0] == 'S' && "M0"[0] == 'M';
  }

  // ----- the presets as builder calls -----

  // The node the next level hangs from.
  function Below(levels: nat): Upstream
  {
    if levels <= 1 then AMaster("M0") else ARelay(RelayName(levels - 1))
  }

  function ChainOps(levels: nat): seq<Op>
  {
    if levels <= 1 then [Master("M0")] else ChainOps(levels - 1) + [RelayOp(levels - 1)]
  }

  function RelayOp(level: nat): Op
  {
    Relay(RelayName(level), Below(level))
  }

  function HubOps(levels: nat, sats: nat): seq<Op>
  {
    if sats == 0 then ChainOps(levels)
    else HubOps(levels, sats - 1) + [Satellite(SatName(sats - 1), Below(levels))]
  }

  // What a chain of relays looks like.
  predicate IsChain(b: Builder, levels: nat)
    requires levels >= 1
  {
    && |b.masters| == levels && b.masters[0] == "M0"
    && (forall i :: 1 <= i < levels ==> b.masters[i] == RelayName(i) + MASTER)
    && |b.satellites| == |b.links| == |b.relays| == levels - 1
    && (forall i :: 0 <= i < levels - 1 ==>
          b.satellites[i] == RelayName(i + 1) + SAT && b.relays[i] == RelayName(i + 1))
  }

  lemma ChainIsFresh(b: Builder, levels: nat)
    requires levels >= 1 && IsChain(b, levels)
    ensures Fresh(b, RelayOp(levels))
  {
    var name := RelayName(levels);
    forall m | m in b.masters ensures m != name && m != name + SAT && m != name + MASTER {
      var i :| 0 <= i < |b.masters| && b.masters[i] == m;
      NamesDiffer(levels, i);
      NamesDiffer(i, levels);
    }
    forall m | m in b.satellites ensures m != name && m != name + SAT && m != name + MASTER {
      var i :| 0 <= i < |b.satellites| && b.satellites[i] == m;
      NamesDiffer(levels, i + 1);
      NamesDiffer(i + 1, levels);
    }
    forall m | m in b.relays ensures m != name && m != name + SAT && m != name + MASTER {
      var i :| 0 <= i < |b.relays| && b.relays[i] == m;
      NamesDiffer(levels, i + 1);
    }
    if levels > 1 {
      assert b.relays[levels - 2] == RelayName(levels - 1);
    }
  }

  lemma RootHasNoRelay(relays: seq<string>)
    ensures RelayOf(relays, "M0", MASTER) == None
  {
  }

  // The relays of a chain are 1, 2, ... hops from the root.
  predicate Stepped(b: Builder, n: nat)
    requires WellBuilt(b) && n <= |b.links|
  {
    forall i :: 0 <= i < n ==> Hops(b, i) == i + 1 && Root(b, i) == "M0"
  }

  // Hanging anything below a chain keeps its relays where they are, and the new link is one deeper.
  lemma HungBelow(b: Builder, op: Op, levels: nat)
    requires levels >= 1 && WellBuilt(b) && Fresh(b, op) && levels - 1 <= |b.links| && Stepped(b, levels - 1)
    requires !op.Master? && op.up == Below(levels)
    requires levels > 1 ==> RelayName(levels - 1) in b.relays && b.satellites[levels - 2] == RelayName(levels - 1) + SAT
    requires levels == 1 ==> "M0" in b.masters
    ensures WellBuilt(Apply(b, op)) && |Apply(b, op).links| == |b.links| + 1 && b.links <= Apply(b, op).links
    ensures forall i :: 0 <= i < |b.links| ==>
              Hops(Apply(b, op), i) == Hops(b, i) && Root(Apply(b, op), i) == Root(b, i)
    ensures Hops(Apply(b, op), |b.links|) == levels && Root(Apply(b, op), |b.links|) == "M0"
  {
    ApplyKeepsWellBuilt(b, op);
    ApplyExtends(b, op);
    LastLink(b, Apply(b, op), op.up, levels);
    forall i | 0 <= i < |b.links|
      ensures Hops(Apply(b, op), i) == Hops(b, i) && Root(Apply(b, op), i) == Root(b, i)
    {
      HopsCarry(b, Apply(b, op), i);
    }
  }

  lemma ChainShape(b: Builder, levels: nat)
    requires levels >= 1 && IsChain(b, levels)
    ensures IsChain(Apply(b, RelayOp(levels)), levels + 1)
    ensures levels > 1 ==> RelayName(levels - 1) in b.relays && b.satellites[levels - 2] == RelayName(levels - 1) + SAT
    ensures "M0" in b.masters
  {
    ChainIsFresh(b, levels);
    if levels > 1 {
      assert b.relays[levels - 2] == RelayName(levels - 1);
    }
  }

  lemma SteppedFurther(b: Builder, b': Builder, n: nat)
    requires WellBuilt(b) && WellBuilt(b') && |b.links| == n && |b'.links| == n + 1 && Stepped(b, n)
    requires forall i :: 0 <= i < n ==> Hops(b', i) == Hops(b, i) && Root(b', i) == Root(b, i)
    requires Hops(b', n) == n + 1 && Root(b', n) == "M0"
    ensures Stepped(b', n + 1)
  {
  }

  lemma ChainStep(b: Builder, levels: nat)
    requires levels >= 1 && WellBuilt(b) && IsChain(b, levels) && Stepped(b, levels - 1)
    ensures var b' := Apply(b, RelayOp(levels));
            WellBuilt(b') && IsChain(b', levels + 1) && Stepped(b', levels)
  {
    ChainShape(b, levels);
    ChainIsFresh(b, levels);
    HungBelow(b, RelayOp(levels), levels);
    SteppedFurther(b, Apply(b, RelayOp(levels)), levels - 1);
  }

  predicate ChainFits(b: Builder, levels: nat)
  {
    levels >= 1 && WellBuilt(b) && IsChain(b, levels) && Stepped(b, levels - 1)
  }

  // One relay more.
  lemma ChainExtends(ops: seq<Op>, ops': seq<Op>, levels: nat)
    requires AllFresh(ops) && ChainFits(Build(ops), levels)
    requires ops' == ops + [RelayOp(levels)]
    ensures AllFresh(ops') && ChainFits(Build(ops'), levels + 1)
  {
    BuildPush(ops, RelayOp(levels));
    ChainIsFresh(Build(ops), levels);
    ChainStep(Build(ops), levels);
  }

  lemma {:induction false} ChainGrows(levels: nat)
    requires levels >= 1
    ensures AllFresh(ChainOps(levels)) && ChainFits(Build(ChainOps(levels)), levels)
  {
    if levels == 1 {
      RootIsAChain();
    } else {
      var before := levels - 1;
      ChainGrows(before);
      ChainExtends(ChainOps(before), ChainOps(levels), before);
      assert ChainFits(Build(ChainOps(levels)), levels);
    }
  }

  lemma RootIsAChain()
    ensures AllFresh(ChainOps(1)) && ChainFits(Build(ChainOps(1)), 1)
  {
    RootAlone();
    assert ChainOps(1) == [Master("M0")];
  }

  lemma RootAlone()
    ensures AllFresh([Master("M0")])
    ensures Build([Master("M0")]) == Builder(["M0"], [], [], [])
    ensures WellBuilt(Builder(["M0"], [], [], []))
  {
    BuildPush([], Master("M0"));
    assert [] + [Master("M0")] == [Master("M0")];
    assert AllFresh([]) && Build([]) == EMPTY;
  }

  // Above a link hung below a chain is the chain's last relay, if it has one.
  lemma AboveLastLink(b: Builder, b': Builder, up: Upstream, levels: nat)
    requires levels >= 1 && WellBuilt(b) && WellBuilt(b') && up == Below(levels)
    requires levels > 1 ==> RelayName(levels - 1) in b.relays && levels - 2 < |b.satellites|
                            && b.satellites[levels - 2] == RelayName(levels - 1) + SAT
    requires levels == 1 ==> "M0" in b.masters
    requires Extends(b, b') && |b'.links| == |b.links| + 1 && b'.links[|b.links|].master == Listener(up).value
    ensures Above(b', |b.links|) == if levels == 1 then None else Some(levels - 2)
  {
    AboveOfNew(b, b', up);
    if levels == 1 {
      RootHasNoRelay(b'.relays);
    } else {
      var at := IndexOf(b.satellites, RelayName(levels - 1) + SAT);
      assert b.satellites[at] == b.satellites[levels - 2];
    }
  }

  // A link hung below a chain of `levels` is `levels` hops from the root.
  lemma LastLink(b: Builder, b': Builder, up: Upstream, levels: nat)
    requires levels >= 1 && WellBuilt(b) && WellBuilt(b') && up == Below(levels)
    requires levels > 1 ==> RelayName(levels - 1) in b.relays && levels - 2 < |b.satellites|
                            && b.satellites[levels - 2] == RelayName(levels - 1) + SAT
                            && Hops(b, levels - 2) == levels - 1 && Root(b, levels - 2) == "M0"
    requires levels == 1 ==> "M0" in b.masters
    requires Extends(b, b') && |b'.links| == |b.links| + 1 && b'.links[|b.links|].master == Listener(up).value
    ensures Hops(b', |b.links|) == levels && Root(b', |b.links|) == "M0"
  {
    AboveLastLink(b, b', up, levels);
    if levels > 1 {
      OneDeeper(b, b', levels);
    } else {
      HopsOfRoot(b', |b.links|);
    }
  }

  lemma OneDeeper(b: Builder, b': Builder, levels: nat)
    requires levels > 1 && WellBuilt(b) && WellBuilt(b') && Extends(b, b') && levels - 2 < |b.links| < |b'.links|
    requires Hops(b, levels - 2) == levels - 1 && Root(b, levels - 2) == "M0"
    requires Above(b', |b.links|) == Some(levels - 2)
    ensures Hops(b', |b.links|) == levels && Root(b', |b.links|) == "M0"
  {
    HopsCarry(b, b', levels - 2);
    HopsUnfold(b', |b.links|, levels - 2);
  }

  lemma HopsOfRoot(b: Builder, i: nat)
    requires WellBuilt(b) && i < |b.links| && Above(b, i).None?
    ensures Hops(b, i) == 1 && Root(b, i) == b.links[i].master
  {
  }

  lemma HopsUnfold(b: Builder, i: nat, above: nat)
    requires WellBuilt(b) && i < |b.links| && Above(b, i) == Some(above)
    ensures above < i && Hops(b, i) == 1 + Hops(b, above) && Root(b, i) == Root(b, above)
  {
  }

  function AtLeastOne(levels: nat): nat
  {
    if levels == 0 then 1 else levels
  }

  // A hub: the chain, then leaves that are all named S0, S1, ... and hang below its end.
  predicate IsHub(b: Builder, levels: nat, sats: nat)
    requires levels >= 1
  {
    && |b.satellites| == |b.links| == levels - 1 + sats && |b.masters| == levels && |b.relays| == levels - 1
    && IsChain(Builder(b.masters, b.satellites[..levels - 1], b.relays, b.links[..levels - 1]), levels)
    && (forall j :: levels - 1 <= j < |b.satellites| ==> b.satellites[j] == SatName(j - (levels - 1)))
  }

  lemma SatNameIsNew(b: Builder, levels: nat, sats: nat)
    requires levels >= 1 && IsHub(b, levels, sats)
    ensures SatName(sats) !in b.satellites
  {
    forall i | 0 <= i < |b.satellites| ensures b.satellites[i] != SatName(sats) {
      if i < levels - 1 {
        assert b.satellites[..levels - 1][i] == RelayName(i + 1) + SAT;
        NamesDiffer(sats, i + 1);
      } else {
        NamesDiffer(sats, i - (levels - 1));
      }
    }
  }

  lemma SatNameIsNoHalf(b: Builder, levels: nat, sats: nat)
    requires levels >= 1 && IsHub(b, levels, sats)
    ensures SatName(sats) !in b.masters && SatName(sats) !in b.relays
  {
    forall i | 0 <= i < |b.masters| ensures b.masters[i] != SatName(sats) {
      NamesDiffer(sats, i);
    }
    forall i | 0 <= i < |b.relays| ensures b.relays[i] != SatName(sats) {
      NamesDiffer(sats, i + 1);
    }
  }

  lemma HubIsFresh(b: Builder, levels: nat, sats: nat)
    requires levels >= 1 && IsHub(b, levels, sats)
    ensures Fresh(b, Satellite(SatName(sats), Below(levels)))
  {
    SatNameIsNew(b, levels, sats);
    SatNameIsNoHalf(b, levels, sats);
    if levels > 1 {
      assert b.relays[levels - 2] == RelayName(levels - 1);
    }
  }

  // The leaves of a hub hang at its full depth.
  predicate Leafy(b: Builder, levels: nat, sats: nat)
    requires levels >= 1 && WellBuilt(b) && |b.links| == levels - 1 + sats
  {
    forall i :: 0 <= i < sats ==> LeafAt(b, levels, i)
  }

  // Leaf number i of a hub.
  predicate LeafAt(b: Builder, levels: nat, i: nat)
    requires levels >= 1 && WellBuilt(b) && levels - 1 + i < |b.links|
  {
    var j := levels - 1 + i;
    b.links[j].sat == SatName(i) && Hops(b, j) == levels && Root(b, j) == "M0"
  }

  lemma HubShape(b: Builder, levels: nat, sats: nat)
    requires levels >= 1 && IsHub(b, levels, sats)
    ensures IsHub(Apply(b, Satellite(SatName(sats), Below(levels))), levels, sats + 1)
    ensures levels > 1 ==> RelayName(levels - 1) in b.relays && b.satellites[levels - 2] == RelayName(levels - 1) + SAT
    ensures "M0" in b.masters
  {
    HubIsFresh(b, levels, sats);
    var b' := Apply(b, Satellite(SatName(sats), Below(levels)));
    assert b'.satellites[..levels - 1] == b.satellites[..levels - 1] && b'.links[..levels - 1] == b.links[..levels - 1];
    if levels > 1 {
      assert b.relays[levels - 2] == RelayName(levels - 1);
      assert b.satellites[..levels - 1][levels - 2] == RelayName(levels - 1) + SAT;
    }
  }

  lemma SteppedStays(b: Builder, b': Builder, n: nat)
    requires WellBuilt(b) && WellBuilt(b') && n <= |b.links| <= |b'.links| && Stepped(b, n)
    requires forall i :: 0 <= i < |b.links| ==> Hops(b', i) == Hops(b, i) && Root(b', i) == Root(b, i)
    ensures Stepped(b', n)
  {
  }

  lemma HubStep(b: Builder, levels: nat, sats: nat)
    requires levels >= 1 && WellBuilt(b) && IsHub(b, levels, sats) && Stepped(b, levels - 1)
    ensures var b' := Apply(b, Satellite(SatName(sats), Below(levels)));
            WellBuilt(b') && IsHub(b', levels, sats + 1) && Stepped(b', levels - 1)
  {
    HubShape(b, levels, sats);
    HubIsFresh(b, levels, sats);
    HungBelow(b, Satellite(SatName(sats), Below(levels)), levels);
    SteppedStays(b, Apply(b, Satellite(SatName(sats), Below(levels))), levels - 1);
  }

  lemma LeafStays(b: Builder, b': Builder, levels: nat, i: nat)
    requires levels >= 1 && WellBuilt(b) && WellBuilt(b') && levels - 1 + i < |b.links| && b.links <= b'.links
    requires LeafAt(b, levels, i)
    requires var j := levels - 1 + i; Hops(b', j) == Hops(b, j) && Root(b', j) == Root(b, j)
    ensures LeafAt(b', levels, i)
  {
    assert b'.links[levels - 1 + i] == b.links[levels - 1 + i];
  }

  lemma LeafyFurther(b: Builder, b': Builder, levels: nat, sats: nat)
    requires levels >= 1 && WellBuilt(b) && WellBuilt(b') && |b.links| == levels - 1 + sats && Leafy(b, levels, sats)
    requires |b'.links| == |b.links| + 1 && b.links <= b'.links && b'.links[|b.links|].sat == SatName(sats)
    requires forall i :: 0 <= i < |b.links| ==> Hops(b', i) == Hops(b, i) && Root(b', i) == Root(b, i)
    requires Hops(b', |b.links|) == levels && Root(b', |b.links|) == "M0"
    ensures Leafy(b', levels, sats + 1)
  {
    forall i | 0 <= i < sats + 1 ensures LeafAt(b', levels, i) {
      if i < sats {
        LeafStays(b, b', levels, i);
      }
    }
  }

  lemma LeafStep(b: Builder, levels: nat, sats: nat)
    requires levels >= 1 && WellBuilt(b) && IsHub(b, levels, sats) && Stepped(b, levels - 1) && Leafy(b, levels, sats)
    requires WellBuilt(Apply(b, Satellite(SatName(sats), Below(levels))))
    ensures var b' := Apply(b, Satellite(SatName(sats), Below(levels)));
            |b'.links| == levels + sats && Leafy(b', levels, sats + 1)
  {
    var op := Satellite(SatName(sats), Below(levels));
    HubShape(b, levels, sats);
    HubIsFresh(b, levels, sats);
    HungBelow(b, op, levels);
    LeafyFurther(b, Apply(b, op), levels, sats);
  }

  lemma NoLevelIsOneLevel(levels: nat)
    ensures ChainOps(levels) == ChainOps(AtLeastOne(levels)) && Below(levels) == Below(AtLeastOne(levels))
  {
  }

  lemma BareHub(b: Builder, levels: nat)
    requires levels >= 1 && IsChain(b, levels)
    ensures IsHub(b, levels, 0)
  {
    assert b == Builder(b.masters, b.satellites[..levels - 1], b.relays, b.links[..levels - 1]);
  }

  predicate HubFits(b: Builder, levels: nat, sats: nat)
  {
    levels >= 1 && WellBuilt(b) && IsHub(b, levels, sats) && Stepped(b, levels - 1) && Leafy(b, levels, sats)
  }

  // One leaf more.
  lemma HubExtends(ops: seq<Op>, ops': seq<Op>, levels: nat, sats: nat)
    requires AllFresh(ops) && HubFits(Build(ops), levels, sats)
    requires ops' == ops + [Satellite(SatName(sats), Below(levels))]
    ensures AllFresh(ops') && HubFits(Build(ops'), levels, sats + 1)
  {
    BuildPush(ops, Satellite(SatName(sats), Below(levels)));
    HubIsFresh(Build(ops), levels, sats);
    HubStep(Build(ops), levels, sats);
    LeafStep(Build(ops), levels, sats);
  }

  lemma ChainIsABareHub(levels: nat)
    ensures AllFresh(ChainOps(levels)) && HubFits(Build(ChainOps(levels)), AtLeastOne(levels), 0)
  {
    NoLevelIsOneLevel(levels);
    ChainGrows(AtLeastOne(levels));
    BareHub(Build(ChainOps(levels)), AtLeastOne(levels));
  }

  /** `hierarchical_hubs(k, s)` uses fresh names and puts every one of its s leaves exactly k hops
      from `M0`, for all k >= 1; k == 0 gives the same hive as k == 1. */
  lemma {:induction false} HubLeavesAreKHopsDeep(levels: nat, sats: nat)
    ensures AllFresh(HubOps(levels, sats)) && HubFits(Build(HubOps(levels, sats)), AtLeastOne(levels), sats)
    decreases sats
  {
    if sats == 0 {
      ChainIsABareHub(levels);
    } else {
      NoLevelIsOneLevel(levels);
      HubLeavesAreKHopsDeep(levels, sats - 1);
      HubExtends(HubOps(levels, sats - 1), HubOps(levels, sats), AtLeastOne(levels), sats - 1);
    }
  }

  // ----- the presets as they are written -----

  method HierarchicalHubs(levels: nat, sats: nat) returns (b: TopologyBuilder)
    ensures fresh(b) && b.View() == Build(HubOps(levels, sats))
  {
    b := new TopologyBuilder();
    b.AddMaster("M0");
    assert [Master("M0")][..0] == [];
    var prev := AMaster("M0");
    var level := 1;
    while level < levels
      invariant 1 <= level <= AtLeastOne(levels)
      invariant fresh(b) && b.View() == Build(ChainOps(level)) && prev == Below(level)
    {
      var ops := ChainOps(level);
      assert ChainOps(level + 1)[..|ops|] == ops;
      var raised := b.AddRelay(RelayName(level), prev);
      prev := ARelay(RelayName(level));
      level := level + 1;
    }
    assert ChainOps(level) == ChainOps(levels);
    for i := 0 to sats
      invariant fresh(b) && b.View() == Build(HubOps(levels, i)) && prev == Below(levels)
    {
      var ops := HubOps(levels, i);
      assert HubOps(levels, i + 1)[..|ops|] == ops;
      var raised := b.AddSatellite(SatName(i), prev);
    }
  }

  // A star is a hub with a single level.
  method StarTopology(sats: nat) returns (b: TopologyBuilder)
    ensures fresh(b) && b.View() == Build(HubOps(1, sats))
  {
    b := new TopologyBuilder();
    b.AddMaster("M0");
    assert [Master("M0")][..0] == [];
    for i := 0 to sats
      invariant fresh(b) && b.View() == Build(HubOps(1, i))
    {
      var ops := HubOps(1, i);
      assert HubOps(1, i + 1)[..|ops|] == ops;
      var raised := b.AddSatellite(SatName(i), AMaster("M0"));
    }
  }
}
