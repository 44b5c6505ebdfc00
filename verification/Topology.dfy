/**
 Building and starting a hive (hivescope/topology.py). A relay is one device registered as two
 raw nodes, its satellite half and its listener half.
 */
module Topology {
  import opened Options
  import opened Lists

  const SAT := "_sat"
  const MASTER := "_master"

  // What a caller may pass as `upstream`.
  datatype Upstream = AMaster(name: string) | ARelay(name: string) | SomethingElse

  datatype Link = Link(sat: string, master: string)

  datatype Builder = Builder(masters: seq<string>, satellites: seq<string>, relays: seq<string>, links: seq<Link>)

  datatype Op = Master(name: string) | Satellite(name: string, up: Upstream) | Relay(name: string, up: Upstream)

  // `_resolve_listener`; None is the TypeError.
  function Listener(up: Upstream): Option<string>
  {
    match up
    case AMaster(name) => Some(name)
    case ARelay(name) => Some(name + MASTER)
    case SomethingElse => None
  }

  function Apply(b: Builder, op: Op): Builder
  {
    match op
    case Master(name) => b.(masters := Filed(b.masters, name))
    case Satellite(name, up) =>
      if Listener(up).None? then b
      else b.(satellites := Filed(b.satellites, name), links := b.links + [Link(name, Listener(up).value)])
    case Relay(name, up) =>
      if Listener(up).None? then b
      else Builder(Filed(b.masters, name + MASTER), Filed(b.satellites, name + SAT), Filed(b.relays, name),
                   b.links + [Link(name + SAT, Listener(up).value)])
  }

  const EMPTY := Builder([], [], [], [])

  function Build(ops: seq<Op>): Builder
  {
    if ops == [] then EMPTY else Apply(Build(ops[..|ops| - 1]), ops[|ops| - 1])
  }

  // ----- fresh names -----

  predicate Used(b: Builder, name: string)
  {
    name in b.masters || name in b.satellites || name in b.relays
  }

  // An upstream must be a node of this builder; a name and its halves must be new.
  predicate Fresh(b: Builder, op: Op)
  {
    match op
    case Master(name) => !Used(b, name)
    case Satellite(name, up) => !Used(b, name) && Known(b, up)
    case Relay(name, up) => !Used(b, name) && !Used(b, name + SAT) && !Used(b, name + MASTER) && Known(b, up)
  }

  predicate Known(b: Builder, up: Upstream)
  {
    match up
    case AMaster(name) => name in b.masters
    case ARelay(name) => name in b.relays
    case SomethingElse => true
  }

  predicate AllFresh(ops: seq<Op>)
  {
    ops == [] || (AllFresh(ops[..|ops| - 1]) && Fresh(Build(ops[..|ops| - 1]), ops[|ops| - 1]))
  }

  lemma BuildPush(ops: seq<Op>, op: Op)
    ensures Build(ops + [op]) == Apply(Build(ops), op)
    ensures AllFresh(ops + [op]) <==> AllFresh(ops) && Fresh(Build(ops), op)
  {
    assert (ops + [op])[..|ops|] == ops;
  }

  // ----- the forest -----

  // The relay whose half is called `name`, if any.
  function RelayOf(relays: seq<string>, name: string, suffix: string): Option<string>
  {
    if |name| >= |suffix| && name[|name| - |suffix|..] == suffix && name[..|name| - |suffix|] in relays
    then Some(name[..|name| - |suffix|]) else None
  }

  lemma HalfOf(relays: seq<string>, r: string, suffix: string)
    ensures RelayOf(relays, r + suffix, suffix) == if r in relays then Some(r) else None
  {
    var name := r + suffix;
    assert name[|name| - |suffix|..] == suffix && name[..|name| - |suffix|] == r;
  }

  lemma RelayOfName(relays: seq<string>, name: string, suffix: string)
    ensures RelayOf(relays, name, suffix).Some? ==>
              RelayOf(relays, name, suffix).value in relays && name == RelayOf(relays, name, suffix).value + suffix
  {
  }

  // Where x first is in xs, |xs| if nowhere.
  function IndexOf(xs: seq<string>, x: string): (i: nat)
    ensures i <= |xs| && (i < |xs| <==> x in xs) && (i < |xs| ==> xs[i] == x)
    ensures forall j :: 0 <= j < i ==> xs[j] != x
  {
    if xs == [] then 0 else if xs[0] == x then 0 else 1 + IndexOf(xs[1..], x)
  }

  // The link above link i: the upstream connection of the relay whose listener it goes to.
  function Above(b: Builder, i: nat): Option<nat>
    requires i < |b.links|
  {
    var r := RelayOf(b.relays, b.links[i].master, MASTER);
    if r.None? then None else Some(IndexOf(b.satellites, r.value + SAT))
  }

  // A well-built hive: one link per satellite, in order; every relay has both halves; a relay's
  // own link precedes every link to its listener; raw names and relay names are all different.
  predicate WellBuilt(b: Builder)
  {
    && NamesFit(b) && LinksFit(b)
    && (forall i :: 0 <= i < |b.links| ==> Above(b, i).Some? ==> Above(b, i).value < i)
  }

  predicate NamesFit(b: Builder)
  {
    && Distinct(b.masters) && Distinct(b.satellites) && Distinct(b.relays)
    && (forall m :: m in b.masters ==> m !in b.satellites && m !in b.relays)
    && (forall s :: s in b.satellites ==> s !in b.relays)
    && (forall r :: r in b.relays ==> r + SAT in b.satellites && r + MASTER in b.masters)
  }

  lemma {:induction false} IndexOfPush(xs: seq<string>, ys: seq<string>, x: string)
    requires x in xs
    ensures IndexOf(xs + ys, x) == IndexOf(xs, x)
    decreases xs
  {
    if xs[0] == x {
    } else {
      assert (xs + ys)[1..] == xs[1..] + ys;
      IndexOfPush(xs[1..], ys, x);
    }
  }

  // b' has everything b has, in place, and at most one relay more, with a new listener.
  predicate Extends(b: Builder, b': Builder)
  {
    && b.links <= b'.links && b.satellites <= b'.satellites && b.relays <= b'.relays
    && |b'.relays| <= |b.relays| + 1
    && (|b'.relays| > |b.relays| ==> b'.relays[|b.relays|] + MASTER !in b.masters)
  }

  lemma ApplyExtends(b: Builder, op: Op)
    requires Fresh(b, op)
    ensures Extends(b, Apply(b, op))
    ensures Apply(b, op).links != b.links ==>
              !op.Master? && Listener(op.up).Some? && Known(b, op.up) && |Apply(b, op).links| == |b.links| + 1
              && Apply(b, op).links[|b.links|].master == Listener(op.up).value
  {
  }

  // Which relay a listener belongs to does not change for listeners that are already there.
  lemma RelayOfOld(b: Builder, b': Builder, m: string)
    requires Extends(b, b') && m in b.masters
    ensures RelayOf(b'.relays, m, MASTER) == RelayOf(b.relays, m, MASTER)
  {
    RelayOfName(b.relays, m, MASTER);
    RelayOfName(b'.relays, m, MASTER);
    var n := |b.relays|;
    assert forall r :: r in b.relays ==> r in b'.relays;
    assert forall r :: r in b'.relays && r !in b.relays ==> |b'.relays| == n + 1 && r == b'.relays[n];
  }

  lemma IndexOfOld(b: Builder, b': Builder, s: string)
    requires Extends(b, b') && s in b.satellites
    ensures IndexOf(b'.satellites, s) == IndexOf(b.satellites, s)
  {
    var more := b'.satellites[|b.satellites|..];
    assert b'.satellites == b.satellites + more;
    IndexOfPush(b.satellites, more, s);
  }

  // Older links keep what is above them, and the new link goes to something already there.
  lemma AboveOfOld(b: Builder, b': Builder, i: nat)
    requires WellBuilt(b) && Extends(b, b') && i < |b.links|
    ensures Above(b', i) == Above(b, i)
  {
    var m := b.links[i].master;
    assert b'.links[i] == b.links[i];
    RelayOfOld(b, b', m);
    RelayOfName(b.relays, m, MASTER);
    var r := RelayOf(b.relays, m, MASTER);
    if r.Some? {
      IndexOfOld(b, b', r.value + SAT);
    }
  }

  lemma AboveOfNew(b: Builder, b': Builder, up: Upstream)
    requires WellBuilt(b) && Known(b, up) && Listener(up).Some? && Extends(b, b')
    requires |b'.links| == |b.links| + 1 && b'.links[|b.links|].master == Listener(up).value
    ensures Listener(up).value in b.masters
    ensures Above(b', |b.links|).Some? ==> Above(b', |b.links|).value < |b.links|
    ensures up.ARelay? ==> Above(b', |b.links|) == Some(IndexOf(b.satellites, up.name + SAT))
  {
    var m := Listener(up).value;
    if up.ARelay? {
      HalfOf(b.relays, up.name, MASTER);
    }
    RelayOfOld(b, b', m);
    RelayOfName(b.relays, m, MASTER);
    var r := RelayOf(b.relays, m, MASTER);
    if r.Some? {
      IndexOfOld(b, b', r.value + SAT);
    }
  }

  lemma ApplyKeepsNames(b: Builder, op: Op)
    requires NamesFit(b) && Fresh(b, op)
    ensures NamesFit(Apply(b, op))
  {
    if op.Relay? && Listener(op.up).Some? {
      var b' := Apply(b, op);
      HalvesDiffer(op.name);
      assert forall m :: m in b'.masters <==> m in b.masters || m == op.name + MASTER;
      assert forall s :: s in b'.satellites <==> s in b.satellites || s == op.name + SAT;
      assert forall r :: r in b'.relays <==> r in b.relays || r == op.name;
    }
  }

  // One link per satellite, to a master that is there.
  predicate LinksFit(b: Builder)
  {
    && |b.links| == |b.satellites|
    && (forall i :: 0 <= i < |b.links| ==> b.links[i].sat == b.satellites[i] && b.links[i].master in b.masters)
  }

  lemma LinksFollow(b: Builder, op: Op)
    requires LinksFit(b) && NamesFit(b) && Fresh(b, op)
    ensures LinksFit(Apply(b, op))
  {
    var b' := Apply(b, op);
    forall m | m in b.masters ensures m in b'.masters {}
  }

  lemma ApplyKeepsWellBuilt(b: Builder, op: Op)
    requires WellBuilt(b) && Fresh(b, op)
    ensures WellBuilt(Apply(b, op))
  {
    var b' := Apply(b, op);
    ApplyKeepsNames(b, op);
    ApplyExtends(b, op);
    LinksFollow(b, op);
    if b'.links != b.links {
      AboveOfNew(b, b', op.up);
    }
    forall i | 0 <= i < |b'.links| ensures Above(b', i).Some? ==> Above(b', i).value < i {
      if i < |b.links| {
        AboveOfOld(b, b', i);
      }
    }
  }

  lemma HalvesDiffer(name: string)
    ensures name != name + SAT && name != name + MASTER && name + SAT != name + MASTER
  {
    assert |name + SAT| == |name| + 4 && |name + MASTER| == |name| + 7;
  }

  /** With fresh names, every sequence of builder calls gives a forest in which a relay's own
      upstream connection precedes all its children's. */
  lemma {:induction false} BuilderMakesForests(ops: seq<Op>)
    requires AllFresh(ops)
    ensures WellBuilt(Build(ops))
  {
    if ops != [] {
      BuilderMakesForests(ops[..|ops| - 1]);
      ApplyKeepsWellBuilt(Build(ops[..|ops| - 1]), ops[|ops| - 1]);
    }
  }

  // ----- starting -----

  // How one connect ends: well, or with an exception before or after the connection was stored.
  datatype Outcome = Connected | RaisedBefore | RaisedAfter

  // How one disconnect ends: well, or with an exception that leaves the connection open or closed.
  datatype Ending = Disconnected | RaisedOpen | RaisedClosed

  // Connected satellites, those whose connect was called, and whether start_all was aborted (by a
  // connect that raised, or by a link to a master that this builder does not know).
  datatype Start = Start(connected: set<string>, called: seq<string>, aborted: bool)

  // start_all on links i and later.
  function StartFrom(b: Builder, connected: set<string>, outcomes: string -> Outcome, i: nat): Start
    requires i <= |b.links|
    decreases |b.links| - i
  {
    if i == |b.links| then Start(connected, [], false)
    else
      var s := b.links[i].sat;
      if s in connected then StartFrom(b, connected, outcomes, i + 1)
      else if b.links[i].master !in b.masters then Start(connected, [], true)
      else
        match outcomes(s)
        case RaisedBefore => Start(connected, [s], true)
        case RaisedAfter => Start(connected + {s}, [s], true)
        case Connected =>
          var rest := StartFrom(b, connected + {s}, outcomes, i + 1);
          rest.(called := [s] + rest.called)
  }

  // The same start, with calls that were made before it.
  function CalledBefore(done: seq<string>, r: Start): Start
  {
    r.(called := done + r.called)
  }

  // Link i and everything above it up to a root master is connected.
  predicate ChainUp(b: Builder, connected: set<string>, i: nat)
    requires WellBuilt(b) && i < |b.links|
    decreases i
  {
    b.links[i].sat in connected && (Above(b, i).Some? ==> ChainUp(b, connected, Above(b, i).value))
  }

  predicate Rooted(b: Builder, connected: set<string>)
    requires WellBuilt(b)
  {
    forall i :: 0 <= i < |b.links| && b.links[i].sat in connected ==> ChainUp(b, connected, i)
  }

  lemma {:induction false} ChainUpGrows(b: Builder, small: set<string>, large: set<string>, i: nat)
    requires WellBuilt(b) && i < |b.links| && small <= large && ChainUp(b, small, i)
    ensures ChainUp(b, large, i)
    decreases i
  {
    if Above(b, i).Some? {
      ChainUpGrows(b, small, large, Above(b, i).value);
    }
  }

  // Connecting link i after all earlier ones are connected keeps every chain whole.
  lemma ConnectKeepsRooted(b: Builder, connected: set<string>, i: nat)
    requires WellBuilt(b) && Rooted(b, connected) && i < |b.links|
    requires forall j :: 0 <= j < i ==> b.links[j].sat in connected
    ensures Rooted(b, connected + {b.links[i].sat})
  {
    var more := connected + {b.links[i].sat};
    forall j | 0 <= j < |b.links| && b.links[j].sat in more ensures ChainUp(b, more, j) {
      if b.links[j].sat in connected {
        ChainUpGrows(b, connected, more, j);
      } else {
        assert b.satellites[j] == b.satellites[i];
        assert j == i;
        if Above(b, i).Some? {
          ChainUpGrows(b, connected, more, Above(b, i).value);
        }
      }
    }
  }

  /** `start_all` disconnects nobody, connects only satellites that were not connected, and when
      it is not aborted leaves every satellite connected. */
  lemma {:induction false} StartOnlyConnects(b: Builder, connected: set<string>, outcomes: string -> Outcome, i: nat)
    requires LinksFit(b) && i <= |b.links|
    requires forall j :: 0 <= j < i ==> b.links[j].sat in connected
    ensures var r := StartFrom(b, connected, outcomes, i);
            && connected <= r.connected
            && (!r.aborted ==> forall j :: 0 <= j < |b.links| ==> b.links[j].sat in r.connected)
            && (forall s :: s in r.called ==> s !in connected)
            && (forall s :: s in r.connected ==> s in connected || (s in b.satellites && s in r.called))
    decreases |b.links| - i
  {
    if i < |b.links| {
      var s := b.links[i].sat;
      assert s == b.satellites[i];
      if s in connected {
        StartOnlyConnects(b, connected, outcomes, i + 1);
      } else if outcomes(s).Connected? {
        StartOnlyConnects(b, connected + {s}, outcomes, i + 1);
      }
    }
  }

  /** At every step of `start_all`, aborted runs included, a connected satellite's whole chain to
      a root master is connected. */
  lemma {:induction false} StartKeepsChains(b: Builder, connected: set<string>, outcomes: string -> Outcome, i: nat)
    requires WellBuilt(b) && Rooted(b, connected) && i <= |b.links|
    requires forall j :: 0 <= j < i ==> b.links[j].sat in connected
    ensures Rooted(b, StartFrom(b, connected, outcomes, i).connected)
    decreases |b.links| - i
  {
    if i < |b.links| {
      var s := b.links[i].sat;
      if s in connected {
        StartSkips(b, connected, outcomes, i);
        StartKeepsChains(b, connected, outcomes, i + 1);
      } else {
        var more := connected + {s};
        ConnectKeepsRooted(b, connected, i);
        StartUnfolds(b, connected, outcomes, i);
        if outcomes(s).Connected? {
          StartKeepsChains(b, more, outcomes, i + 1);
        }
      }
    } else {
      StartEnds(b, connected, outcomes);
    }
  }

  lemma StartEnds(b: Builder, connected: set<string>, outcomes: string -> Outcome)
    ensures StartFrom(b, connected, outcomes, |b.links|) == Start(connected, [], false)
  {
  }

  lemma StartSkips(b: Builder, connected: set<string>, outcomes: string -> Outcome, i: nat)
    requires i < |b.links| && b.links[i].sat in connected
    ensures StartFrom(b, connected, outcomes, i) == StartFrom(b, connected, outcomes, i + 1)
  {
  }

  // One connect of the loop.
  lemma StartUnfolds(b: Builder, connected: set<string>, outcomes: string -> Outcome, i: nat)
    requires LinksFit(b) && i < |b.links| && b.links[i].sat !in connected
    ensures var s := b.links[i].sat;
            StartFrom(b, connected, outcomes, i).connected ==
              match outcomes(s)
              case RaisedBefore => connected
              case RaisedAfter => connected + {s}
              case Connected => StartFrom(b, connected + {s}, outcomes, i + 1).connected
  {
  }

  // The links from number i on whose satellites are not connected, in link order.
  function Unconnected(b: Builder, connected: set<string>, i: nat): seq<Link>
    requires i <= |b.links|
    decreases |b.links| - i
  {
    if i == |b.links| then []
    else (if b.links[i].sat in connected then [] else [b.links[i]]) + Unconnected(b, connected, i + 1)
  }

  // Each satellite has one link.
  predicate OneLinkEach(b: Builder)
  {
    forall i, j :: 0 <= i < j < |b.links| ==> b.links[i].sat != b.links[j].sat
  }

  lemma FitIsOneLinkEach(b: Builder)
    requires LinksFit(b) && NamesFit(b)
    ensures OneLinkEach(b)
  {
  }

  lemma {:induction false} UnconnectedLater(b: Builder, connected: set<string>, s: string, i: nat)
    requires i <= |b.links| && forall j :: i <= j < |b.links| ==> b.links[j].sat != s
    ensures Unconnected(b, connected + {s}, i) == Unconnected(b, connected, i)
    decreases |b.links| - i
  {
    if i < |b.links| {
      UnconnectedLater(b, connected, s, i + 1);
    }
  }

  // What a start does with the links to connect: it calls the first of them in order, each to a known
  // master, all ending well but perhaps the last; it connects those called, but for one that raised before
  // its connection was stored; and it is aborted by a call that raised, or by an unknown master.
  ghost predicate StartedInOrder(b: Builder, connected: set<string>, outcomes: string -> Outcome,
                                 todo: seq<Link>, r: Start)
  {
    var n := |r.called|;
    && n <= |todo| && (forall j :: 0 <= j < n ==> r.called[j] == todo[j].sat && todo[j].master in b.masters)
    && (forall j :: 0 <= j < n - 1 ==> outcomes(r.called[j]).Connected?)
    && (forall s :: s in r.connected <==> s in connected || (s in r.called && !outcomes(s).RaisedBefore?))
    && (r.aborted <==>
          || (n > 0 && !outcomes(r.called[n - 1]).Connected?)
          || (n < |todo| && todo[n].master !in b.masters))
    && (!r.aborted ==> n == |todo|)
  }

  lemma Cons<T>(x: T, xs: seq<T>)
    ensures |[x] + xs| == |xs| + 1 && ([x] + xs)[0] == x
    ensures forall j :: 0 < j <= |xs| ==> ([x] + xs)[j] == xs[j - 1]
    ensures forall y :: y in [x] + xs <==> y == x || y in xs
  {
  }

  lemma OneCallMore(b: Builder, connected: set<string>, outcomes: string -> Outcome,
                    link: Link, todo: seq<Link>, r: Start)
    requires outcomes(link.sat).Connected? && link.master in b.masters
    requires StartedInOrder(b, connected + {link.sat}, outcomes, todo, r)
    ensures StartedInOrder(b, connected, outcomes, [link] + todo, CalledBefore([link.sat], r))
  {
    var called, all := [link.sat] + r.called, [link] + todo;
    Cons(link.sat, r.called);
    Cons(link, todo);
    forall j | 0 <= j < |called| ensures called[j] == all[j].sat && all[j].master in b.masters {
      assert j > 0 ==> r.called[j - 1] == todo[j - 1].sat && todo[j - 1].master in b.masters;
    }
    forall j | 0 <= j < |called| - 1 ensures outcomes(called[j]).Connected? {
      assert j > 0 ==> outcomes(r.called[j - 1]).Connected?;
    }
  }

  lemma LastCall(b: Builder, connected: set<string>, outcomes: string -> Outcome, link: Link, todo: seq<Link>)
    requires !outcomes(link.sat).Connected? && link.master in b.masters
    ensures var now := if outcomes(link.sat).RaisedBefore? then connected else connected + {link.sat};
            StartedInOrder(b, connected, outcomes, [link] + todo, Start(now, [link.sat], true))
  {
    Cons(link, todo);
  }

  lemma NoCall(b: Builder, connected: set<string>, outcomes: string -> Outcome, link: Link, todo: seq<Link>)
    requires link.master !in b.masters
    ensures StartedInOrder(b, connected, outcomes, [link] + todo, Start(connected, [], true))
  {
    Cons(link, todo);
  }

  lemma NothingToDo(b: Builder, connected: set<string>, outcomes: string -> Outcome)
    ensures StartedInOrder(b, connected, outcomes, [], Start(connected, [], false))
  {
  }

  // The loop at a link whose satellite is not connected.
  lemma StartAt(b: Builder, connected: set<string>, outcomes: string -> Outcome, i: nat)
    requires i < |b.links| && b.links[i].sat !in connected
    ensures Unconnected(b, connected, i) == [b.links[i]] + Unconnected(b, connected, i + 1)
    ensures var s, more := b.links[i].sat, connected + {b.links[i].sat};
            StartFrom(b, connected, outcomes, i) ==
              if b.links[i].master !in b.masters then Start(connected, [], true)
              else if outcomes(s).Connected? then CalledBefore([s], StartFrom(b, more, outcomes, i + 1))
              else Start(if outcomes(s).RaisedBefore? then connected else more, [s], true)
  {
  }

  /** Which connects `start_all` calls, in every builder with one link per satellite and for every outcome
      of each: those of the satellites that are not connected, in link order, all of them unless it is
      aborted; and it is aborted exactly by a connect that raises or a master it does not know, and there. */
  lemma {:induction false} StartCallsInOrder(b: Builder, connected: set<string>, outcomes: string -> Outcome, i: nat)
    requires OneLinkEach(b) && i <= |b.links|
    ensures StartedInOrder(b, connected, outcomes, Unconnected(b, connected, i), StartFrom(b, connected, outcomes, i))
    decreases |b.links| - i
  {
    if i == |b.links| {
      NothingToDo(b, connected, outcomes);
    } else if b.links[i].sat in connected {
      StartCallsInOrder(b, connected, outcomes, i + 1);
    } else {
      var link, later := b.links[i], Unconnected(b, connected, i + 1);
      StartAt(b, connected, outcomes, i);
      if link.master !in b.masters {
        NoCall(b, connected, outcomes, link, later);
      } else if outcomes(link.sat).Connected? {
        StartCallsInOrder(b, connected + {link.sat}, outcomes, i + 1);
        UnconnectedLater(b, connected, link.sat, i + 1);
        OneCallMore(b, connected, outcomes, link, later, StartFrom(b, connected + {link.sat}, outcomes, i + 1));
      } else {
        LastCall(b, connected, outcomes, link, later);
      }
    }
  }

  /** A second `start_all` after one that was not aborted calls no connect at all. */
  lemma SecondStartConnectsNothing(b: Builder, connected: set<string>,
                                   first: string -> Outcome, second: string -> Outcome)
    requires WellBuilt(b) && Rooted(b, connected) && !StartFrom(b, connected, first, 0).aborted
    ensures var r := StartFrom(b, connected, first, 0);
            StartFrom(b, r.connected, second, 0) == Start(r.connected, [], false)
  {
    StartOnlyConnects(b, connected, first, 0);
    NothingToStart(b, StartFrom(b, connected, first, 0).connected, second, 0);
  }

  lemma {:induction false} NothingToStart(b: Builder, connected: set<string>, outcomes: string -> Outcome, i: nat)
    requires i <= |b.links| && forall j :: 0 <= j < |b.links| ==> b.links[j].sat in connected
    ensures StartFrom(b, connected, outcomes, i) == Start(connected, [], false)
    decreases |b.links| - i
  {
    if i < |b.links| {
      NothingToStart(b, connected, outcomes, i + 1);
    }
  }

  /** Nodes added later do not break a running hive: its chains stay whole in the larger one. */
  lemma AddingKeepsChains(b: Builder, op: Op, connected: set<string>)
    requires WellBuilt(b) && Fresh(b, op) && Rooted(b, connected)
    requires forall s :: s in connected ==> s in b.satellites
    ensures WellBuilt(Apply(b, op)) && Rooted(Apply(b, op), connected)
  {
    ApplyKeepsWellBuilt(b, op);
    ApplyExtends(b, op);
    var b' := Apply(b, op);
    forall i | 0 <= i < |b'.links| && b'.links[i].sat in connected ensures ChainUp(b', connected, i) {
      assert b'.links[i].sat in b.satellites;
      if i >= |b.links| {
        HalvesDiffer(op.name);
        assert false;
      }
      ChainCarries(b, b', connected, i);
    }
  }

  lemma {:induction false} ChainCarries(b: Builder, b': Builder, connected: set<string>, i: nat)
    requires WellBuilt(b) && WellBuilt(b') && i < |b.links| && Extends(b, b')
    requires ChainUp(b, connected, i)
    ensures ChainUp(b', connected, i)
    decreases i
  {
    AboveOfOld(b, b', i);
    assert b'.links[i] == b.links[i];
    if Above(b, i).Some? {
      ChainCarries(b, b', connected, Above(b, i).value);
    }
  }

  // A test growing a hive and starting it, in any order and any number of times.
  datatype Act = Grow(op: Op) | StartAll(outcomes: string -> Outcome)

  function Grown(acts: seq<Act>): seq<Op>
  {
    if acts == [] then [] else
      Grown(acts[..|acts| - 1]) + if acts[|acts| - 1].Grow? then [acts[|acts| - 1].op] else []
  }

  function Up(acts: seq<Act>): set<string>
  {
    if acts == [] then {} else
      var before, last := acts[..|acts| - 1], acts[|acts| - 1];
      if last.Grow? then Up(before) else StartFrom(Build(Grown(before)), Up(before), last.outcomes, 0).connected
  }

  /** However calls that add nodes and calls of `start_all` are mixed, every connected satellite
      has its whole chain to a root master connected. */
  lemma {:induction false} RunningHivesAreRooted(acts: seq<Act>)
    requires AllFresh(Grown(acts))
    ensures WellBuilt(Build(Grown(acts))) && Rooted(Build(Grown(acts)), Up(acts))
    ensures forall s :: s in Up(acts) ==> s in Build(Grown(acts)).satellites
  {
    if acts != [] {
      var before, last := acts[..|acts| - 1], acts[|acts| - 1];
      var ops := Grown(before);
      if last.Grow? {
        assert Grown(acts)[..|Grown(acts)| - 1] == ops;
        RunningHivesAreRooted(before);
        AddingKeepsChains(Build(ops), last.op, Up(before));
      } else {
        assert Grown(acts) == ops;
        RunningHivesAreRooted(before);
        StartKeepsChains(Build(ops), Up(before), last.outcomes, 0);
        StartOnlyConnects(Build(ops), Up(before), last.outcomes, 0);
      }
    }
  }

  // Connections between a satellite and the root master of its tree.
  function Hops(b: Builder, i: nat): nat
    requires WellBuilt(b) && i < |b.links|
    decreases i
  {
    if Above(b, i).None? then 1 else 1 + Hops(b, Above(b, i).value)
  }

  function Root(b: Builder, i: nat): string
    requires WellBuilt(b) && i < |b.links|
    decreases i
  {
    if Above(b, i).None? then b.links[i].master else Root(b, Above(b, i).value)
  }

  lemma {:induction false} HopsCarry(b: Builder, b': Builder, i: nat)
    requires WellBuilt(b) && WellBuilt(b') && i < |b.links| && Extends(b, b')
    ensures Hops(b', i) == Hops(b, i) && Root(b', i) == Root(b, i)
    decreases i
  {
    AboveOfOld(b, b', i);
    assert b'.links[i] == b.links[i];
    if Above(b, i).Some? {
      HopsCarry(b, b', Above(b, i).value);
    }
  }

  // ----- the builder object -----

  class TopologyBuilder {
    var masters: seq<string>
    var satellites: seq<string>
    var relays: seq<string>
    var links: seq<Link>
    var connected: set<string>

    function View(): Builder
      reads this
    {
      Builder(masters, satellites, relays, links)
    }

    constructor ()
      ensures View() == EMPTY && connected == {}
    {
      masters, satellites, relays, links, connected := [], [], [], [], {};
    }

    method AddMaster(name: string)
      modifies this
      ensures View() == Apply(old(View()), Master(name)) && connected == old(connected)
    {
      masters := Filed(masters, name);
    }

    method AddSatellite(name: string, up: Upstream) returns (raised: bool)
      modifies this
      ensures View() == Apply(old(View()), Satellite(name, up))
      ensures connected == if raised then old(connected) else old(connected) - {name}
      ensures raised <==> up.SomethingElse?
    {
      var listener := Listener(up);
      if listener.None? {
        return true;
      }
      satellites := Filed(satellites, name);
      connected := connected - {name};
      links := links + [Link(name, listener.value)];
      raised := false;
    }

    method AddRelay(name: string, up: Upstream) returns (raised: bool)
      modifies this
      ensures View() == Apply(old(View()), Relay(name, up))
      ensures connected == if raised then old(connected) else old(connected) - {name + SAT}
      ensures raised <==> up.SomethingElse?
    {
      var parent := Listener(up);
      if parent.None? {
        return true;
      }
      satellites := Filed(satellites, name + SAT);
      connected := connected - {name + SAT};
      masters := Filed(masters, name + MASTER);
      links := links + [Link(name + SAT, parent.value)];
      relays := Filed(relays, name);
      raised := false;
    }

    // `start_all`; every chain is whole at the end of every iteration, aborted ones included.
    method StartAll(outcomes: string -> Outcome) returns (aborted: bool, ghost called: seq<string>)
      modifies this`connected
      ensures WellBuilt(View()) && old(Rooted(View(), connected)) ==> Rooted(View(), connected)
      ensures old(connected) <= connected
      ensures Start(connected, called, aborted) == StartFrom(View(), old(connected), outcomes, 0)
    {
      ghost var b, before := View(), connected;
      ghost var whole := WellBuilt(b) && Rooted(b, connected);
      called := [];
      for i := 0 to |links|
        invariant View() == b && before <= connected
        invariant whole ==> Rooted(b, connected) && forall j :: 0 <= j < i ==> links[j].sat in connected
        invariant StartFrom(b, before, outcomes, 0) == CalledBefore(called, StartFrom(b, connected, outcomes, i))
      {
        var s := links[i].sat;
        if s !in connected {
          if links[i].master !in masters {
            aborted := true;
            return;
          }
          called := called + [s];
          if whole {
            ConnectKeepsRooted(b, connected, i);
          }
          match outcomes(s)
          case RaisedBefore =>
            aborted := true;
            return;
          case RaisedAfter =>
            connected := connected + {s};
            aborted := true;
            return;
          case Connected =>
            connected := connected + {s};
        }
      }
      aborted := false;
    }

    // `stop_all`, as far as connections go: every connected satellite is told to disconnect, and a
    // disconnect that raises is passed over; it may or may not have closed the connection.
    method StopAll(endings: string -> Ending)
      modifies this`connected
      ensures View() == old(View())
      ensures forall s :: s in connected <==>
                s in old(connected) && (s in satellites ==> endings(s).RaisedOpen?)
    {
      for i := 0 to |satellites|
        invariant forall s :: s in connected <==>
                    s in old(connected) && (s in satellites[..i] ==> endings(s).RaisedOpen?)
      {
        assert satellites[..i + 1] == satellites[..i] + [satellites[i]];
        if satellites[i] in connected && !endings(satellites[i]).RaisedOpen? {
          connected := connected - {satellites[i]};
        }
      }
      assert satellites[..|satellites|] == satellites;
    }
  }
}
