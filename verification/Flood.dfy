/**
 A broadcast storm on the delivery pump: a master floods n peers, and while a shared budget lasts
 each peer's handler makes the master flood them all again (hivescope/node.py, send_to_all and
 `_deliver`; the handler of tests/e2e/test_ping_flood_scale.py). The storm is first run with its
 shared counter, item by item, and then as the forest of actions it amounts to, on the pump of
 `Pump` itself.
 */
module Flood {
  import opened Lists
  import P = Pump

  datatype Item = Broadcast | Frame(peer: nat)

  datatype Storm = Storm(queue: seq<Item>, spent: nat, delivered: nat)

  function FramesToAll(n: nat): seq<Item>
  {
    seq(n, i requires 0 <= i => Frame(i))
  }

  // One pump step with n peers and a budget of b re-floods.
  function Step(n: nat, b: nat, p: Storm): Storm
    requires p.queue != []
  {
    var rest := p.queue[1..];
    if p.queue[0].Broadcast? then
      p.(queue := rest + FramesToAll(n))
    else if p.spent < b then
      Storm(rest + [Broadcast], p.spent + 1, p.delivered + 1)
    else
      Storm(rest, p.spent, p.delivered + 1)
  }

  // What a queue still costs in pump steps, each item counted with what it must set off.
  function Cost(n: nat, q: seq<Item>): nat
  {
    if q == [] then 0 else (if q[0].Broadcast? then n + 1 else 1) + Cost(n, q[1..])
  }

  // The frames a queue still delivers.
  function Debt(n: nat, q: seq<Item>): nat
  {
    if q == [] then 0 else (if q[0].Broadcast? then n else 1) + Debt(n, q[1..])
  }

  lemma {:induction false} CostConcat(n: nat, a: seq<Item>, b: seq<Item>)
    ensures Cost(n, a + b) == Cost(n, a) + Cost(n, b) && Debt(n, a + b) == Debt(n, a) + Debt(n, b)
  {
    if a == [] {
      assert a + b == b;
    } else {
      assert (a + b)[1..] == a[1..] + b;
      CostConcat(n, a[1..], b);
    }
  }

  lemma {:induction false} CostOfFrames(n: nat, q: seq<Item>)
    requires forall i :: 0 <= i < |q| ==> q[i].Frame?
    ensures Cost(n, q) == |q| && Debt(n, q) == |q|
  {
    if q != [] {
      CostOfFrames(n, q[1..]);
    }
  }

  // Steps left, and frames left, counting the budget that is not spent yet.
  function Measure(n: nat, b: nat, p: Storm): int
  {
    Cost(n, p.queue) + (b - p.spent) * (n + 1)
  }

  function FramesLeft(n: nat, b: nat, p: Storm): int
  {
    Debt(n, p.queue) + (b - p.spent) * n
  }

  // With a peer to react, an idle pump has no budget left.
  predicate Live(n: nat, b: nat, p: Storm)
  {
    p.spent <= b && (n > 0 && p.queue == [] ==> p.spent == b)
  }

  lemma BroadcastCost(n: nat, rest: seq<Item>)
    ensures Cost(n, rest + FramesToAll(n)) == Cost(n, rest) + n && Debt(n, rest + FramesToAll(n)) == Debt(n, rest) + n
  {
    CostConcat(n, rest, FramesToAll(n));
    CostOfFrames(n, FramesToAll(n));
  }

  lemma ReplyCost(n: nat, rest: seq<Item>)
    ensures Cost(n, rest + [Broadcast]) == Cost(n, rest) + n + 1 && Debt(n, rest + [Broadcast]) == Debt(n, rest) + n
  {
    CostConcat(n, rest, [Broadcast]);
    assert [Broadcast][1..] == [];
    assert Cost(n, [Broadcast]) == n + 1 && Debt(n, [Broadcast]) == n;
  }

  lemma SpendOne(left: nat, n: nat)
    requires left > 0
    ensures (left - 1) * (n + 1) == left * (n + 1) - (n + 1) && (left - 1) * n == left * n - n
  {
  }

  /** Every pump step takes exactly one from the measure and turns frames owed into frames
      delivered; budget left always keeps the storm going. */
  lemma StepCostsOne(n: nat, b: nat, p: Storm)
    requires p.queue != [] && Live(n, b, p)
    ensures var p' := Step(n, b, p);
            && Measure(n, b, p') == Measure(n, b, p) - 1
            && p'.delivered + FramesLeft(n, b, p') == p.delivered + FramesLeft(n, b, p)
            && (n > 0 ==> Live(n, b, p'))
            && p'.spent <= b
  {
    var rest := p.queue[1..];
    if p.queue[0].Broadcast? {
      BroadcastCost(n, rest);
    } else if p.spent < b {
      ReplyCost(n, rest);
      SpendOne(b - p.spent, n);
    }
  }

  lemma FirstCost(n: nat, b: nat)
    ensures Measure(n, b, Storm([Broadcast], 0, 0)) == (n + 1) * (b + 1)
    ensures FramesLeft(n, b, Storm([Broadcast], 0, 0)) == n * (b + 1)
  {
    assert [Broadcast][1..] == [];
    assert Cost(n, [Broadcast]) == n + 1 && Debt(n, [Broadcast]) == n;
    assert (n + 1) * (b + 1) == (n + 1) + b * (n + 1);
    assert n * (b + 1) == n + b * n;
  }

  /** A flood over n peers with budget b ends. With at least one peer it takes exactly
      (n + 1) * (b + 1) pump steps, delivers n * (b + 1) frames and spends the whole budget. */
  method RunFlood(n: nat, b: nat) returns (steps: nat, delivered: nat, spent: nat)
    ensures n > 0 ==> steps == (n + 1) * (b + 1) && delivered == n * (b + 1) && spent == b
    ensures n == 0 ==> steps == 1 && delivered == 0 && spent == 0
  {
    var p := Storm([Broadcast], 0, 0);
    FirstCost(n, b);
    steps := 0;
    while p.queue != []
      invariant p.spent <= b && (n > 0 ==> Live(n, b, p))
      invariant steps + Measure(n, b, p) == (n + 1) * (b + 1)
      invariant p.delivered + FramesLeft(n, b, p) == n * (b + 1)
      invariant n == 0 ==> p.delivered == p.spent == 0 && steps + |p.queue| == 1
      invariant n == 0 && p.queue != [] ==> p.queue == [Broadcast]
      decreases Measure(n, b, p)
    {
      StepCostsOne(n, b, p);
      MeasureIsNatural(n, b, p);
      if n == 0 {
        NobodyToTell(b, p);
      }
      p := Step(n, b, p);
      MeasureIsNatural(n, b, p);
      steps := steps + 1;
    }
    if n > 0 {
      NothingLeft(n, b, p);
    }
    delivered, spent := p.delivered, p.spent;
  }

  lemma NobodyToTell(b: nat, p: Storm)
    requires p.queue == [Broadcast]
    ensures Step(0, b, p) == p.(queue := [])
  {
    assert p.queue[1..] == [] && FramesToAll(0) == [];
  }

  lemma MeasureIsNatural(n: nat, b: nat, p: Storm)
    requires p.spent <= b
    ensures Measure(n, b, p) >= 0
  {
    assert (b - p.spent) * (n + 1) >= 0;
  }

  // ----- the storm as a forest of actions on the pump -----

  // Broadcast number i delivers frames i * n to i * n + n - 1; frame number j, delivered while the
  // budget lasts, makes the master deliver broadcast number j + 1. Tag 0 is a broadcast, tag j + 1
  // frame number j.
  function BroadcastAction(n: nat, b: nat, i: nat): P.Action
    requires n > 0 && i <= b
    decreases b - i, n + 1
  {
    FirstFrame(n, i);
    P.Action(0, FrameActions(n, b, i, i * n, n), false)
  }

  lemma FirstFrame(n: nat, i: nat)
    requires n > 0
    ensures i * n >= i
  {
  }

  // Frames j to j + count - 1 of broadcast i.
  function FrameActions(n: nat, b: nat, i: nat, j: nat, count: nat): seq<P.Action>
    requires n > 0 && i <= b && i <= j
    decreases b - i, count
  {
    if count == 0 then [] else
      [FrameAction(n, b, j)] + FrameActions(n, b, i, j + 1, count - 1)
  }

  function FrameAction(n: nat, b: nat, j: nat): P.Action
    requires n > 0
    decreases if j < b then b - j else 0, 0
  {
    P.Action(j + 1, if j < b then [BroadcastAction(n, b, j + 1)] else [], false)
  }

  // The queue of the storm as a queue of actions, when frame j and broadcast i come next.
  function Actions(n: nat, b: nat, q: seq<Item>, j: nat, i: nat): seq<P.Action>
    requires n > 0 && i + Broadcasts(q) <= b + 1
  {
    if q == [] then []
    else if q[0].Broadcast? then [BroadcastAction(n, b, i)] + Actions(n, b, q[1..], j, i + 1)
    else [FrameAction(n, b, j)] + Actions(n, b, q[1..], j + 1, i)
  }

  function Broadcasts(q: seq<Item>): nat
  {
    if q == [] then 0 else (if q[0].Broadcast? then 1 else 0) + Broadcasts(q[1..])
  }

  function Frames(q: seq<Item>): nat
  {
    if q == [] then 0 else (if q[0].Broadcast? then 0 else 1) + Frames(q[1..])
  }

  lemma {:induction false} CountsConcat(a: seq<Item>, c: seq<Item>)
    ensures Broadcasts(a + c) == Broadcasts(a) + Broadcasts(c) && Frames(a + c) == Frames(a) + Frames(c)
  {
    if a == [] {
      assert a + c == c;
    } else {
      assert (a + c)[1..] == a[1..] + c;
      CountsConcat(a[1..], c);
    }
  }

  lemma {:induction false} ActionsConcat(n: nat, b: nat, a: seq<Item>, c: seq<Item>, j: nat, i: nat)
    requires n > 0 && i + Broadcasts(a) + Broadcasts(c) <= b + 1
    ensures Broadcasts(a + c) == Broadcasts(a) + Broadcasts(c)
    ensures Actions(n, b, a + c, j, i)
            == Actions(n, b, a, j, i) + Actions(n, b, c, j + Frames(a), i + Broadcasts(a))
  {
    CountsConcat(a, c);
    if a == [] {
      assert a + c == c;
    } else {
      var tail := a[1..];
      assert (a + c)[1..] == tail + c && (a + c)[0] == a[0];
      var j', i' := if a[0].Broadcast? then j else j + 1, if a[0].Broadcast? then i + 1 else i;
      ActionsConcat(n, b, tail, c, j', i');
      var head := if a[0].Broadcast? then BroadcastAction(n, b, i) else FrameAction(n, b, j);
      Associates(head, Actions(n, b, tail, j', i'), Actions(n, b, c, j' + Frames(tail), i' + Broadcasts(tail)));
    }
  }

  lemma Associates(x: P.Action, a: seq<P.Action>, c: seq<P.Action>)
    ensures [x] + a + c == [x] + (a + c)
  {
  }

  lemma {:induction false} OnlyFrames(q: seq<Item>)
    requires forall k :: 0 <= k < |q| ==> q[k].Frame?
    ensures Broadcasts(q) == 0 && Frames(q) == |q|
  {
    if q != [] {
      OnlyFrames(q[1..]);
    }
  }

  // The frames a broadcast queues are the actions it delivers.
  lemma {:induction false} FramesAreDelivered(n: nat, b: nat, q: seq<Item>, j: nat, i: nat, from: nat)
    requires n > 0 && from <= b && from <= j && i <= b + 1
    requires forall k :: 0 <= k < |q| ==> q[k].Frame?
    ensures Broadcasts(q) == 0 && Actions(n, b, q, j, i) == FrameActions(n, b, from, j, |q|)
  {
    OnlyFrames(q);
    if q != [] {
      FramesAreDelivered(n, b, q[1..], j + 1, i, from);
    }
  }

  // Frames and broadcasts are numbered in the order they are queued: i broadcasts have begun.
  predicate Numbered(n: nat, b: nat, p: Storm, i: nat)
  {
    && p.spent == (if p.delivered < b then p.delivered else b)
    && i + Broadcasts(p.queue) == p.spent + 1
    && i * n == p.delivered + Frames(p.queue)
  }

  // The number of broadcasts begun after a step.
  function Begun(p: Storm, i: nat): nat
    requires p.queue != []
  {
    if p.queue[0].Broadcast? then i + 1 else i
  }

  lemma NextMultiple(i: nat, n: nat)
    ensures (i + 1) * n == i * n + n
  {
  }

  lemma BroadcastStaysNumbered(n: nat, b: nat, p: Storm, i: nat)
    requires n > 0 && Numbered(n, b, p, i) && p.queue != [] && p.queue[0].Broadcast?
    ensures Numbered(n, b, Step(n, b, p), i + 1)
  {
    CountsConcat(p.queue[1..], FramesToAll(n));
    OnlyFrames(FramesToAll(n));
    NextMultiple(i, n);
  }

  lemma FrameStaysNumbered(n: nat, b: nat, p: Storm, i: nat)
    requires n > 0 && Numbered(n, b, p, i) && p.queue != [] && p.queue[0].Frame?
    ensures Numbered(n, b, Step(n, b, p), i)
  {
    CountsConcat(p.queue[1..], [Broadcast]);
    assert [Broadcast][1..] == [];
    assert Broadcasts([Broadcast]) == 1 && Frames([Broadcast]) == 0;
  }

  // One pop of the pump is one step of the storm.
  lemma PopIsStep(n: nat, b: nat, p: Storm, i: nat)
    requires n > 0 && Numbered(n, b, p, i) && p.queue != []
    ensures Numbered(n, b, Step(n, b, p), Begun(p, i))
    ensures var q, p' := Actions(n, b, p.queue, p.delivered, i), Step(n, b, p);
            && q != [] && !q[0].raises
            && q[0].tag == (if p.queue[0].Broadcast? then 0 else p.delivered + 1)
            && q[1..] + q[0].spawned == Actions(n, b, p'.queue, p'.delivered, Begun(p, i))
  {
    if p.queue[0].Broadcast? {
      BroadcastStaysNumbered(n, b, p, i);
      BroadcastPop(n, b, p, i);
    } else {
      FrameStaysNumbered(n, b, p, i);
      FramePop(n, b, p, i);
    }
  }

  lemma BroadcastPop(n: nat, b: nat, p: Storm, i: nat)
    requires n > 0 && Numbered(n, b, p, i) && p.queue != [] && p.queue[0].Broadcast?
    ensures i + 1 + Broadcasts(p.queue[1..] + FramesToAll(n)) <= b + 1
    ensures Actions(n, b, p.queue[1..], p.delivered, i + 1) + BroadcastAction(n, b, i).spawned
            == Actions(n, b, p.queue[1..] + FramesToAll(n), p.delivered, i + 1)
  {
    var rest := p.queue[1..];
    OnlyFrames(FramesToAll(n));
    ActionsConcat(n, b, rest, FramesToAll(n), p.delivered, i + 1);
    FirstFrame(n, i);
    FramesAreDelivered(n, b, FramesToAll(n), i * n, i + 1 + Broadcasts(rest), i);
  }

  lemma FramePop(n: nat, b: nat, p: Storm, i: nat)
    requires n > 0 && Numbered(n, b, p, i) && p.queue != [] && p.queue[0].Frame?
    ensures i + Broadcasts(Step(n, b, p).queue) <= b + 1
    ensures Actions(n, b, p.queue[1..], p.delivered + 1, i) + FrameAction(n, b, p.delivered).spawned
            == Actions(n, b, Step(n, b, p).queue, p.delivered + 1, i)
  {
    var rest := p.queue[1..];
    if p.spent < b {
      assert [Broadcast][1..] == [];
      assert Broadcasts([Broadcast]) == 1;
      ActionsConcat(n, b, rest, [Broadcast], p.delivered + 1, i);
      assert Actions(n, b, [Broadcast], p.delivered + 1 + Frames(rest), i + Broadcasts(rest))
             == [BroadcastAction(n, b, i + Broadcasts(rest))];
    }
  }

  // The numbers of the frames that ran.
  function FrameNumber(): P.Action -> seq<nat>
  {
    (a: P.Action) => if a.tag > 0 then [a.tag - 1] else []
  }

  function From(j: nat, count: int): seq<nat>
    decreases if count <= 0 then 0 else count
  {
    if count <= 0 then [] else [j] + From(j + 1, count - 1)
  }

  // What a drain amounts to: a normal end, so many steps, and the frames from j on.
  predicate Amounts(o: P.Outcome, steps: int, j: nat, frames: int)
  {
    !o.raised && o.left == [] && |o.ran| == steps && Collect(o.ran, FrameNumber()) == From(j, frames)
  }

  // One action run before the rest.
  lemma OneMore(a: P.Action, o: P.Outcome, steps: int, j: nat, frames: int)
    requires (a.tag == 0 || a.tag == j + 1) && frames >= 0
    requires Amounts(o, steps, if a.tag == 0 then j else j + 1, frames)
    ensures Amounts(P.Outcome([a] + o.ran, o.left, o.raised), steps + 1, j, if a.tag == 0 then frames else frames + 1)
  {
    CollectConcat([a], o.ran, FrameNumber());
    OneNumber(a);
  }

  lemma DrainUnfolds(q: seq<P.Action>)
    requires q != [] && !q[0].raises
    ensures var o := P.Drain(q[1..] + q[0].spawned);
            P.Drain(q) == P.Outcome([q[0]] + o.ran, o.left, o.raised)
  {
  }

  lemma NothingLeft(n: nat, b: nat, p: Storm)
    requires n > 0 && Live(n, b, p) && p.queue == []
    ensures Measure(n, b, p) == 0 && FramesLeft(n, b, p) == 0
  {
  }

  // One action popped, in front of a drain that amounts to so much.
  lemma OnePopped(q: seq<P.Action>, steps: int, j: nat, frames: int)
    requires q != [] && !q[0].raises && (q[0].tag == 0 || q[0].tag == j + 1) && frames >= 0
    requires Amounts(P.Drain(q[1..] + q[0].spawned), steps, if q[0].tag == 0 then j else j + 1, frames)
    ensures Amounts(P.Drain(q), steps + 1, j, if q[0].tag == 0 then frames else frames + 1)
  {
    DrainUnfolds(q);
    OneMore(q[0], P.Drain(q[1..] + q[0].spawned), steps, j, frames);
  }

  // What a step does to the counts.
  lemma StepCounts(n: nat, b: nat, p: Storm)
    requires n > 0 && p.queue != [] && Live(n, b, p)
    ensures var p', frame := Step(n, b, p), if p.queue[0].Broadcast? then 0 else 1;
            && Measure(n, b, p) == Measure(n, b, p') + 1 && p'.delivered == p.delivered + frame
            && FramesLeft(n, b, p) == FramesLeft(n, b, p') + frame && FramesLeft(n, b, p') >= 0
            && Measure(n, b, p') >= 0 && Live(n, b, p')
  {
    StepCostsOne(n, b, p);
    MeasureIsNatural(n, b, Step(n, b, p));
    FramesLeftIsNatural(n, b, Step(n, b, p));
  }

  lemma {:induction false} StormStep(n: nat, b: nat, p: Storm, q: seq<P.Action>)
    requires n > 0 && p.queue != [] && Live(n, b, p) && q != [] && !q[0].raises
    requires q[0].tag == if p.queue[0].Broadcast? then 0 else p.delivered + 1
    requires var p' := Step(n, b, p);
             Amounts(P.Drain(q[1..] + q[0].spawned), Measure(n, b, p'), p'.delivered, FramesLeft(n, b, p'))
    ensures Amounts(P.Drain(q), Measure(n, b, p), p.delivered, FramesLeft(n, b, p))
  {
    var p' := Step(n, b, p);
    var steps, frames := Measure(n, b, p'), FramesLeft(n, b, p');
    StepCounts(n, b, p);
    OnePopped(q, steps, p.delivered, frames);
  }

  lemma {:induction false} DrainIsTheStorm(n: nat, b: nat, p: Storm, i: nat)
    requires n > 0 && Numbered(n, b, p, i) && Live(n, b, p)
    ensures Amounts(P.Drain(Actions(n, b, p.queue, p.delivered, i)), Measure(n, b, p), p.delivered, FramesLeft(n, b, p))
    decreases Measure(n, b, p)
  {
    MeasureIsNatural(n, b, p);
    if p.queue == [] {
      NothingLeft(n, b, p);
    } else {
      StepCounts(n, b, p);
      PopIsStep(n, b, p, i);
      DrainIsTheStorm(n, b, Step(n, b, p), Begun(p, i));
      StormStep(n, b, p, Actions(n, b, p.queue, p.delivered, i));
    }
  }

  lemma OneNumber(a: P.Action)
    ensures Collect([a], FrameNumber()) == if a.tag > 0 then [a.tag - 1] else []
  {
    assert [a][1..] == [];
  }

  lemma FramesLeftIsNatural(n: nat, b: nat, p: Storm)
    requires p.spent <= b
    ensures FramesLeft(n, b, p) >= 0
  {
    assert (b - p.spent) * n >= 0;
  }

  /** The storm on the pump: delivering its first broadcast runs exactly (n + 1) * (b + 1) actions and
      returns normally with an empty queue, and it delivers exactly n * (b + 1) frames, in the order
      of their numbers. So the forest is the one that the shared budget makes: the frames that
      re-flood are the first b to be delivered. */
  lemma StormOnThePump(n: nat, b: nat)
    requires n > 0
    ensures var o := P.Drain([BroadcastAction(n, b, 0)]);
            && !o.raised && o.left == [] && |o.ran| == (n + 1) * (b + 1)
            && Collect(o.ran, FrameNumber()) == From(0, n * (b + 1))
  {
    var p := Storm([Broadcast], 0, 0);
    assert [Broadcast][1..] == [];
    assert Broadcasts([Broadcast]) == 1 && Frames([Broadcast]) == 0;
    FirstCost(n, b);
    DrainIsTheStorm(n, b, p, 0);
    assert Actions(n, b, [Broadcast], 0, 0) == [BroadcastAction(n, b, 0)];
  }
}
