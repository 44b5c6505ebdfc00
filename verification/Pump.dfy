/**
 The delivery pump of hivescope/node.py.

 `_deliver` appends an action to a thread-local queue and, unless a drain is already running,
 pops and runs actions until the queue is empty. `_pumped_send` runs its send inline and then
 drains. An action is a finite tree: running it delivers its `spawned` actions in order and then
 either returns or raises.
 */
module Pump {

  datatype Action = Action(tag: nat, spawned: seq<Action>, raises: bool)

  // Number of actions in a forest: the termination measure of a drain.
  function Size(f: seq<Action>): nat
  {
    if f == [] then 0 else 1 + Size(f[0].spawned) + Size(f[1..])
  }

  // Everything one level below f, left to right.
  function Spawned(f: seq<Action>): seq<Action>
  {
    if f == [] then [] else f[0].spawned + Spawned(f[1..])
  }

  lemma {:induction false} SizeConcat(a: seq<Action>, b: seq<Action>)
    ensures Size(a + b) == Size(a) + Size(b)
  {
    if a == [] {
      assert a + b == b;
    } else {
      assert (a + b)[1..] == a[1..] + b;
      SizeConcat(a[1..], b);
    }
  }

  lemma {:induction false} SizeByLevels(f: seq<Action>)
    ensures Size(f) == |f| + Size(Spawned(f))
  {
    if f != [] {
      SizeByLevels(f[1..]);
      SizeConcat(f[0].spawned, Spawned(f[1..]));
    }
  }

  lemma {:induction false} SpawnedConcat(a: seq<Action>, b: seq<Action>)
    ensures Spawned(a + b) == Spawned(a) + Spawned(b)
  {
    if a == [] {
      assert a + b == b;
    } else {
      assert (a + b)[1..] == a[1..] + b;
      SpawnedConcat(a[1..], b);
    }
  }

  // Breadth-first order: the forest's roots, then all their children, and so on.
  function LevelOrder(f: seq<Action>): seq<Action>
    decreases Size(f)
  {
    SizeByLevels(f);
    if f == [] then [] else f + LevelOrder(Spawned(f))
  }

  // The run without a pump: every delivery is a nested call made on the spot.
  function Immediate(f: seq<Action>): seq<Action>
  {
    if f == [] then [] else [f[0]] + Immediate(f[0].spawned) + Immediate(f[1..])
  }

  // What a drain did: the actions it ran, the queue it left, and whether it ended in a raise.
  datatype Outcome = Outcome(ran: seq<Action>, left: seq<Action>, raised: bool)

  // The drain loop on a queue.
  function Drain(q: seq<Action>): Outcome
    decreases Size(q)
  {
    if q == [] then
      Outcome([], [], false)
    else
      var rest := q[1..] + q[0].spawned;
      SizeConcat(q[1..], q[0].spawned);
      if q[0].raises then
        Outcome([q[0]], rest, true)
      else
        var o := Drain(rest);
        Outcome([q[0]] + o.ran, o.left, o.raised)
  }

  lemma LevelOrderUnfolds(f: seq<Action>)
    ensures LevelOrder(f) == f + LevelOrder(Spawned(f))
  {
  }

  // Rotating the front of a level to the next one does not change breadth-first order.
  lemma {:induction false} LevelOrderRotates(front: seq<Action>, back: seq<Action>)
    ensures LevelOrder(front + back) == front + LevelOrder(back + Spawned(front))
    decreases Size(front + back)
  {
    var down, down2, back2 := Spawned(front), Spawned(Spawned(front)), Spawned(back);
    if |front + back| == 0 {
      assert front + back == front == back == down == [];
    } else {
      var deep := LevelOrder(back2 + down2);
      calc {
        LevelOrder(front + back);
        { LevelOrderUnfolds(front + back); SpawnedConcat(front, back); }
        front + back + LevelOrder(down + back2);
        { SizeByLevels(front + back); SpawnedConcat(front, back); LevelOrderRotates(down, back2); }
        front + back + (down + deep);
        { Regroup(front, back, down, deep); }
        front + (back + down + deep);
        { LevelOrderUnfolds(back + down); SpawnedConcat(back, down); }
        front + LevelOrder(back + down);
      }
    }
  }

  lemma Regroup<T>(a: seq<T>, b: seq<T>, c: seq<T>, d: seq<T>)
    ensures a + b + (c + d) == a + (b + c + d)
    ensures a + b + c == a + (b + c)
  {
  }

  // One pop of the drain loop, in breadth-first order.
  lemma LevelOrderPops(q: seq<Action>)
    requires q != []
    ensures LevelOrder(q) == [q[0]] + LevelOrder(q[1..] + q[0].spawned)
  {
    assert q == [q[0]] + q[1..];
    assert Spawned([q[0]]) == q[0].spawned by {
      assert [q[0]][1..] == [];
    }
    LevelOrderRotates([q[0]], q[1..]);
  }

  /** A drain runs breadth-first order from the front: what it ran, followed by the breadth-first
      order of what it left, is the breadth-first order of the queue. */
  lemma {:induction false} DrainIsLevelOrder(q: seq<Action>)
    ensures LevelOrder(q) == Drain(q).ran + LevelOrder(Drain(q).left)
    ensures !Drain(q).raised ==> Drain(q).left == [] && Drain(q).ran == LevelOrder(q)
    decreases Size(q)
  {
    if q != [] {
      var rest := q[1..] + q[0].spawned;
      SizeConcat(q[1..], q[0].spawned);
      LevelOrderPops(q);
      if !q[0].raises {
        DrainIsLevelOrder(rest);
        var o := Drain(rest);
        assert [q[0]] + (o.ran + LevelOrder(o.left)) == [q[0]] + o.ran + LevelOrder(o.left);
      }
    }
  }

  // Nothing before the last action that ran raised; the last one did if the drain raised.
  predicate StoppedAt(ran: seq<Action>, raised: bool)
  {
    && (forall i :: 0 <= i < |ran| - 1 ==> !ran[i].raises)
    && (raised ==> ran != [] && ran[|ran| - 1].raises)
  }

  lemma StoppedLater(a: Action, ran: seq<Action>, raised: bool)
    requires !a.raises && StoppedAt(ran, raised)
    ensures StoppedAt([a] + ran, raised)
  {
  }

  lemma InCons(x: Action, ys: seq<Action>)
    ensures forall a :: a in [x] + ys <==> a == x || a in ys
  {
  }

  /** A drain stops early exactly at the first action, in breadth-first order, that raises. */
  lemma {:induction false} DrainStopsAtTheFirstRaise(q: seq<Action>)
    ensures Drain(q).raised <==> exists a :: a in LevelOrder(q) && a.raises
    ensures StoppedAt(Drain(q).ran, Drain(q).raised)
    decreases Size(q)
  {
    if q != [] {
      var rest := q[1..] + q[0].spawned;
      SizeConcat(q[1..], q[0].spawned);
      LevelOrderPops(q);
      InCons(q[0], LevelOrder(rest));
      if q[0].raises {
        assert q[0] in LevelOrder(q);
      } else {
        DrainStopsAtTheFirstRaise(rest);
        StoppedLater(q[0], Drain(rest).ran, Drain(rest).raised);
      }
    }
  }

  lemma {:induction false} ImmediateConcat(a: seq<Action>, b: seq<Action>)
    ensures Immediate(a + b) == Immediate(a) + Immediate(b)
  {
    if a == [] {
      assert a + b == b;
    } else {
      assert (a + b)[1..] == a[1..] + b;
      ImmediateConcat(a[1..], b);
    }
  }

  lemma CountLevel(x: Action, rest: seq<Action>, a: seq<Action>, b: seq<Action>, c: seq<Action>)
    requires multiset(b) == multiset(rest) + multiset(c)
    ensures multiset([x] + a + b) == multiset([x] + rest) + multiset(a + c)
  {
  }

  lemma {:induction false} ImmediateByLevels(f: seq<Action>)
    ensures multiset(Immediate(f)) == multiset(f) + multiset(Immediate(Spawned(f)))
  {
    if f != [] {
      ImmediateByLevels(f[1..]);
      ImmediateConcat(f[0].spawned, Spawned(f[1..]));
      assert f == [f[0]] + f[1..];
      CountLevel(f[0], f[1..], Immediate(f[0].spawned), Immediate(f[1..]), Immediate(Spawned(f[1..])));
    }
  }

  /** Deferring loses nothing and repeats nothing: breadth-first order is a permutation of the
      run in which every delivery is an immediate call. */
  lemma {:induction false} DeferringPermutesTheImmediateRun(f: seq<Action>)
    ensures multiset(LevelOrder(f)) == multiset(Immediate(f))
    decreases Size(f)
  {
    if f != [] {
      SizeByLevels(f);
      DeferringPermutesTheImmediateRun(Spawned(f));
      ImmediateByLevels(f);
    }
  }

  lemma Shift<T>(head: seq<T>, ran: seq<T>, left: seq<T>, tail: seq<T>, a: seq<T>, b: seq<T>)
    requires ran + left == tail + a + b
    ensures head + ran + left == head + tail + (a + b)
  {
    assert head + ran + left == head + (ran + left);
    assert head + (tail + a + b) == head + tail + (a + b);
  }

  /** The history law of one drain: what ran, followed by what is still queued, is everything
      that was ever enqueued, in the order it was enqueued. Each action that ran took one from
      the measure. */
  lemma {:induction false} DrainHistory(q: seq<Action>)
    ensures Drain(q).ran + Drain(q).left == q + Spawned(Drain(q).ran)
    ensures Size(Drain(q).left) + |Drain(q).ran| == Size(q)
    decreases Size(q)
  {
    if q != [] {
      var head, tail := [q[0]], q[1..];
      var rest := tail + q[0].spawned;
      SizeConcat(tail, q[0].spawned);
      assert q == head + tail;
      assert Spawned(head) == q[0].spawned by {
        assert head[1..] == [];
      }
      if !q[0].raises {
        var o := Drain(rest);
        DrainHistory(rest);
        SpawnedConcat(head, o.ran);
        Shift(head, o.ran, o.left, tail, q[0].spawned, Spawned(o.ran));
      }
    }
  }

  /** After a raise the leftovers run before anything delivered later: the next drain either
      stops inside them or runs all of them first. */
  lemma LeftoversRunFirst(left: seq<Action>, newer: seq<Action>)
    ensures var ran := Drain(left + newer).ran;
            ran <= left || left <= ran
    ensures !Drain(left + newer).raised ==> left <= Drain(left + newer).ran
  {
    var o, all := Drain(left + newer), left + newer;
    DrainHistory(all);
    assert o.ran + o.left == left + (newer + Spawned(o.ran)) by {
      Regroup(left, newer, Spawned(o.ran), []);
    }
    BothPrefixes(o.ran, o.left, left, newer + Spawned(o.ran));
    if !o.raised {
      DrainIsLevelOrder(all);
      assert o.ran == o.ran + o.left;
    }
  }

  // Two prefixes of one sequence are comparable.
  lemma BothPrefixes<T>(a: seq<T>, b: seq<T>, c: seq<T>, d: seq<T>)
    ensures a + b == c + d ==> a <= c || c <= a
  {
    if a + b == c + d {
      var s := a + b;
      assert a == s[..|a|] && c == s[..|c|];
    }
  }

  // What is still to come of a drain whose last action raised or not, and what it did before.
  function Rest(q: seq<Action>, raised: bool): Outcome
  {
    if raised then Outcome([], q, true) else Drain(q)
  }

  function After(done: seq<Action>, o: Outcome): Outcome
  {
    Outcome(done + o.ran, o.left, o.raised)
  }

  // One pop of the drain loop, as the loop accumulates it.
  lemma DrainPops(done: seq<Action>, q: seq<Action>)
    requires q != []
    ensures After(done, Drain(q)) == After(done + [q[0]], Rest(q[1..] + q[0].spawned, q[0].raises))
  {
  }

  /** The pump itself. `ran` and `enqueued` are the history of the thread. */
  class DeliveryPump {
    var queue: seq<Action>
    var draining: bool
    ghost var ran: seq<Action>
    ghost var enqueued: seq<Action>

    // At every point: executed actions, then queued ones, are all enqueued actions in order.
    ghost predicate Valid()
      reads this
    {
      ran + queue == enqueued
    }

    constructor ()
      ensures Valid() && queue == [] && !draining && ran == []
    {
      queue, draining := [], false;
      ran, enqueued := [], [];
    }

    // `_deliver`.
    method Deliver(a: Action) returns (raised: bool)
      requires Valid()
      modifies this
      ensures Valid() && draining == old(draining)
      ensures old(draining) ==>
                queue == old(queue) + [a] && ran == old(ran) && !raised
      ensures !old(draining) ==>
                var o := Drain(old(queue) + [a]);
                ran == old(ran) + o.ran && queue == o.left && raised == o.raised
      ensures !old(draining) && !raised ==>
                queue == [] && ran == old(ran) + LevelOrder(old(queue) + [a])
      decreases if draining then 0 else 1, 0
    {
      queue, enqueued := queue + [a], enqueued + [a];
      raised := false;
      if draining {
        return;
      }
      DrainIsLevelOrder(queue);
      draining := true;
      raised := DrainQueue();
      draining := false;
    }

    // The `while queue: queue.popleft()()` loop of `_deliver` and `_pumped_send`.
    method DrainQueue() returns (raised: bool)
      requires Valid() && draining
      modifies this
      ensures Valid() && draining
      ensures var o := Drain(old(queue));
              ran == old(ran) + o.ran && queue == o.left && raised == o.raised
      decreases 0, 2
    {
      raised := false;
      ghost var done: seq<Action> := [];
      while queue != [] && !raised
        invariant Valid() && draining
        invariant ran == old(ran) + done
        invariant Drain(old(queue)) == After(done, Rest(queue, raised))
        decreases Size(queue), !raised
      {
        var next := queue[0];
        SizeConcat(queue[1..], next.spawned);
        DrainPops(done, queue);
        queue, ran := queue[1..], ran + [next];
        done := done + [next];
        raised := Run(next);
      }
    }

    // The body of an action: it delivers in order and then returns or raises.
    method Run(a: Action) returns (raised: bool)
      requires Valid() && draining
      modifies this
      ensures Valid() && draining
      ensures queue == old(queue) + a.spawned && ran == old(ran) && raised == a.raises
      decreases 0, 1
    {
      for i := 0 to |a.spawned|
        invariant Valid() && draining
        invariant queue == old(queue) + a.spawned[..i] && ran == old(ran)
      {
        var nested := Deliver(a.spawned[i]);
        assert a.spawned[..i + 1] == a.spawned[..i] + [a.spawned[i]];
      }
      assert a.spawned[..|a.spawned|] == a.spawned;
      raised := a.raises;
    }

    // `_pumped_send`: `send` is the connection's own send; its frames are `send.spawned`.
    // The send runs now even when earlier leftovers are queued; only its frames wait.
    method PumpedSend(send: Action) returns (raised: bool)
      requires Valid()
      modifies this
      ensures Valid() && draining == old(draining)
      ensures old(draining) || send.raises ==>
                queue == old(queue) + send.spawned && ran == old(ran) && raised == send.raises
      ensures !old(draining) && !send.raises ==>
                var o := Drain(old(queue) + send.spawned);
                ran == old(ran) + o.ran && queue == o.left && raised == o.raised
      ensures !old(draining) && !raised ==> queue == []
    {
      if draining {
        raised := Run(send);
        return;
      }
      draining := true;
      raised := Run(send);
      if !raised {
        DrainIsLevelOrder(queue);
        raised := DrainQueue();
      }
      draining := false;
    }
  }
}
