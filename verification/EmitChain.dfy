/**
 The stack of `bus.emit` wrappers that agent protocols put on a shared bus
 (hivescope/plugins/agent.py, `__post_init__` and `shutdown`). Each protocol wraps whatever `emit`
 it finds; a shutdown unwraps only while its own wrapper is the installed one.
 */
module EmitChain {
  import opened Options

  // A bus emission: a Message, or a string that deserializes to one or does not.
  datatype Emission = Object(message: string) | Text(raw: string, parsed: Option<string>)

  // A wrapper passes on the Message it parsed; anything else goes through untouched.
  function Normal(e: Emission): Emission
  {
    if e.Text? && e.parsed.Some? then Object(e.parsed.value) else e
  }

  function Recorded(e: Emission): seq<string>
  {
    if Normal(e).Object? then [Normal(e).message] else []
  }

  // head is the installed emit, prev[i] the one protocol i wrapped; None is the original.
  // owns[i] says that protocol i still holds its wrapper, stuck[i] that it was shut down while
  // something else was installed.
  datatype Bus = Bus(head: Option<nat>, prev: seq<Option<nat>>, owns: seq<bool>, stuck: seq<bool>,
                     injected: seq<seq<string>>, reached: seq<Emission>, log: seq<Sent>)

  // An emission with the wrappers that were in the chain at that moment.
  datatype Sent = Sent(emission: Emission, chain: seq<nat>)

  datatype Op = Create | Shutdown(i: nat) | Emit(e: Emission)

  predicate Older(prev: seq<Option<nat>>)
  {
    forall i :: 0 <= i < |prev| && prev[i].Some? ==> prev[i].value < i
  }

  // The wrappers an emission passes, outermost first.
  function Chain(head: Option<nat>, prev: seq<Option<nat>>): seq<nat>
    decreases if head.None? then 0 else head.value + 1
  {
    if head.None? || head.value >= |prev| then []
    else if prev[head.value].Some? && prev[head.value].value >= head.value then [head.value]
    else [head.value] + Chain(prev[head.value], prev)
  }

  // A wrapper records and calls the emit it wrapped.
  function Walk(injected: seq<seq<string>>, chain: seq<nat>, e: Emission): seq<seq<string>>
    decreases chain
  {
    if chain == [] || chain[0] >= |injected| then injected
    else Walk(injected[chain[0] := injected[chain[0]] + Recorded(e)], chain[1..], e)
  }

  function Apply(b: Bus, op: Op): Bus
  {
    match op
    case Create =>
      b.(head := Some(|b.prev|), prev := b.prev + [b.head], owns := b.owns + [true],
         stuck := b.stuck + [false], injected := b.injected + [[]])
    case Shutdown(i) =>
      if i >= |b.owns| || i >= |b.prev| || i >= |b.stuck| || !b.owns[i] then b
      else if b.head == Some(i) then b.(head := b.prev[i], owns := b.owns[i := false])
      else b.(owns := b.owns[i := false], stuck := b.stuck[i := true])
    case Emit(e) =>
      var chain := Chain(b.head, b.prev);
      b.(injected := Walk(b.injected, chain, e),
         reached := b.reached + [if chain == [] then e else Normal(e)],
         log := b.log + [Sent(e, chain)])
  }

  function Run(ops: seq<Op>): Bus
  {
    if ops == [] then Bus(None, [], [], [], [], [], [])
    else Apply(Run(ops[..|ops| - 1]), ops[|ops| - 1])
  }

  // ----- the invariant -----

  // What protocol i recorded: the messages emitted while its wrapper was in the chain.
  function Due(log: seq<Sent>, i: nat): seq<string>
  {
    if log == [] then [] else
      var last := log[|log| - 1];
      Due(log[..|log| - 1], i) + if i in last.chain then Recorded(last.emission) else []
  }

  predicate Sized(b: Bus)
  {
    && |b.owns| == |b.stuck| == |b.injected| == |b.prev| && Older(b.prev)
    && (b.head.Some? ==> b.head.value < |b.prev|)
  }

  predicate Inv(b: Bus)
  {
    && Sized(b)
    && (forall i :: 0 <= i < |b.prev| ==> (i in Chain(b.head, b.prev) <==> b.owns[i] || b.stuck[i]))
    && (forall i :: 0 <= i < |b.prev| ==> !(b.owns[i] && b.stuck[i]))
    && (forall i :: 0 <= i < |b.prev| ==> b.injected[i] == Due(b.log, i))
    && (forall i :: 0 <= i < |b.log| ==> forall c :: c in b.log[i].chain ==> c < |b.prev|)
    && |b.reached| == |b.log|
    && (forall i :: 0 <= i < |b.log| ==> Normal(b.reached[i]) == Normal(b.log[i].emission))
  }

  lemma {:induction false} ChainDescends(head: Option<nat>, prev: seq<Option<nat>>)
    requires Older(prev) && (head.Some? ==> head.value < |prev|)
    ensures forall c :: c in Chain(head, prev) ==> head.Some? && c <= head.value
    ensures forall i, j :: 0 <= i < j < |Chain(head, prev)| ==> Chain(head, prev)[j] < Chain(head, prev)[i]
    ensures Chain(head, prev) == [] <==> head.None?
    decreases if head.None? then 0 else head.value + 1
  {
    if head.Some? {
      var rest := Chain(prev[head.value], prev);
      ChainDescends(prev[head.value], prev);
      assert Chain(head, prev) == [head.value] + rest;
      assert forall j :: 0 <= j < |rest| ==> rest[j] in rest;
    }
  }

  // A later protocol does not change the chain below it.
  lemma {:induction false} ChainBelow(head: Option<nat>, prev: seq<Option<nat>>, more: Option<nat>)
    requires Older(prev) && (head.Some? ==> head.value < |prev|)
    ensures Chain(head, prev + [more]) == Chain(head, prev)
    decreases if head.None? then 0 else head.value + 1
  {
    if head.Some? {
      ChainBelow(prev[head.value], prev, more);
    }
  }

  lemma {:induction false} WalkRecords(injected: seq<seq<string>>, chain: seq<nat>, e: Emission)
    requires forall i :: 0 <= i < |chain| ==> chain[i] < |injected|
    requires forall i, j :: 0 <= i < j < |chain| ==> chain[j] < chain[i]
    ensures |Walk(injected, chain, e)| == |injected|
    ensures forall i :: 0 <= i < |injected| ==>
              Walk(injected, chain, e)[i] == injected[i] + if i in chain then Recorded(e) else []
    decreases chain
  {
    if chain != [] {
      var c := chain[0];
      WalkRecords(injected[c := injected[c] + Recorded(e)], chain[1..], e);
      assert c !in chain[1..];
      assert forall i :: i in chain <==> i == c || i in chain[1..];
    }
  }

  lemma EmitKeeps(b: Bus, e: Emission)
    requires Inv(b)
    ensures Inv(Apply(b, Emit(e)))
  {
    var chain, b' := Chain(b.head, b.prev), Apply(b, Emit(e));
    ChainDescends(b.head, b.prev);
    WalkRecords(b.injected, chain, e);
    forall i | 0 <= i < |b.prev| ensures b'.injected[i] == Due(b'.log, i) {
      assert b'.log[..|b'.log| - 1] == b.log;
    }
  }

  lemma {:induction false} DueOfNobody(log: seq<Sent>, i: nat)
    requires forall j :: 0 <= j < |log| ==> i !in log[j].chain
    ensures Due(log, i) == []
  {
    if log != [] {
      DueOfNobody(log[..|log| - 1], i);
    }
  }

  lemma CreateKeeps(b: Bus)
    requires Inv(b)
    ensures Inv(Apply(b, Create))
  {
    var b' := Apply(b, Create);
    ChainBelow(b.head, b.prev, b.head);
    ChainDescends(b.head, b.prev);
    assert Chain(b'.head, b'.prev) == [|b.prev|] + Chain(b.head, b.prev);
    DueOfNobody(b.log, |b.prev|);
  }

  lemma ShutdownKeeps(b: Bus, i: nat)
    requires Inv(b)
    ensures Inv(Apply(b, Shutdown(i)))
  {
    if i < |b.owns| && b.owns[i] && b.head == Some(i) {
      ChainDescends(b.head, b.prev);
      assert Chain(b.head, b.prev) == [i] + Chain(b.prev[i], b.prev);
      ChainDescends(b.prev[i], b.prev);
    }
  }

  lemma {:induction false} RunKeeps(ops: seq<Op>)
    ensures Inv(Run(ops))
  {
    if ops != [] {
      RunKeeps(ops[..|ops| - 1]);
      match ops[|ops| - 1]
      case Create => CreateKeeps(Run(ops[..|ops| - 1]));
      case Shutdown(i) => ShutdownKeeps(Run(ops[..|ops| - 1]), i);
      case Emit(e) => EmitKeeps(Run(ops[..|ops| - 1]), e);
    }
  }

  // ----- the promises -----

  function Emissions(ops: seq<Op>): seq<Emission>
  {
    if ops == [] then [] else
      Emissions(ops[..|ops| - 1]) + if ops[|ops| - 1].Emit? then [ops[|ops| - 1].e] else []
  }

  // ----- what one call does -----

  // The message an emission stands for, if any.
  function MessageOf(e: Emission): seq<string>
  {
    match e
    case Object(message) => [message]
    case Text(_, Some(message)) => [message]
    case Text(_, None) => []
  }

  // What the original emit gets: a wrapper in between passes on a Message for a text that parses.
  function Forwarded(e: Emission, wrapped: bool): Emission
  {
    match e
    case Object(message) => e
    case Text(_, Some(message)) => if wrapped then Object(message) else e
    case Text(_, None) => e
  }

  /** One emission: every protocol that is up, or was shut down under another, appends its message if it
      stands for one; no other protocol records anything; the original emit gets it once, parsed if it
      went through a wrapper. */
  lemma EmitRecordsItsMessage(b: Bus, e: Emission)
    requires Inv(b)
    ensures var b' := Apply(b, Emit(e));
            && |b'.injected| == |b.injected| && |b.owns| == |b.stuck| == |b.injected|
            && (forall i :: 0 <= i < |b.injected| ==>
                  b'.injected[i] == b.injected[i] + if b.owns[i] || b.stuck[i] then MessageOf(e) else [])
            && b'.reached == b.reached + [Forwarded(e, b.head.Some?)]
            && b'.owns == b.owns && b'.stuck == b.stuck && b'.head == b.head && b'.prev == b.prev
  {
    ChainDescends(b.head, b.prev);
    var chain := Chain(b.head, b.prev);
    assert forall i :: 0 <= i < |chain| ==> chain[i] in chain;
    WalkRecords(b.injected, chain, e);
    assert Recorded(e) == MessageOf(e);
    forall i | 0 <= i < |b.injected|
      ensures Apply(b, Emit(e)).injected[i] == b.injected[i] + if b.owns[i] || b.stuck[i] then MessageOf(e) else []
    {
      assert i in Chain(b.head, b.prev) <==> b.owns[i] || b.stuck[i];
    }
  }

  /** Creating a protocol puts its wrapper on the outside of the chain, with nothing recorded, and leaves
      the others as they are. */
  lemma CreateWraps(b: Bus)
    requires Inv(b)
    ensures var b', n := Apply(b, Create), |b.prev|;
            && Chain(b'.head, b'.prev) == [n] + Chain(b.head, b.prev)
            && b'.owns == b.owns + [true] && b'.stuck == b.stuck + [false] && b'.injected == b.injected + [[]]
            && b'.reached == b.reached
  {
    ChainBelow(b.head, b.prev, b.head);
  }

  /** Shutting down a protocol that is up takes its wrapper off when it is the outermost, and leaves the
      chain as it is when it is not. */
  lemma ShutdownUnwrapsOnlyTheOutermost(b: Bus, i: nat)
    requires Inv(b) && i < |b.owns| && b.owns[i]
    ensures var b', chain := Apply(b, Shutdown(i)), Chain(b.head, b.prev);
            && Chain(b'.head, b'.prev) == (if chain != [] && chain[0] == i then chain[1..] else chain)
            && b'.owns == b.owns[i := false]
            && b'.injected == b.injected && b'.reached == b.reached
  {
    ChainDescends(b.head, b.prev);
    if b.head == Some(i) {
      assert Chain(b.head, b.prev) == [i] + Chain(b.prev[i], b.prev);
    }
  }

  // ----- a whole run -----

  function Created(ops: seq<Op>): nat
  {
    if ops == [] then 0 else Created(ops[..|ops| - 1]) + if ops[|ops| - 1].Create? then 1 else 0
  }

  // Protocol i has been created, and not been shut down since.
  predicate IsUp(ops: seq<Op>, i: nat)
  {
    ops != [] &&
    var before, last := ops[..|ops| - 1], ops[|ops| - 1];
    if last.Create? && Created(before) == i then true
    else if last == Shutdown(i) then false
    else IsUp(before, i)
  }

  // The messages emitted while protocol i was up, or after it was shut down under another.
  function Seen(ops: seq<Op>, i: nat): seq<string>
  {
    if ops == [] then [] else
      var before, last := ops[..|ops| - 1], ops[|ops| - 1];
      Seen(before, i) +
      if last.Emit? && (IsUp(before, i) || IsStuck(before, i)) then MessageOf(last.e) else []
  }

  predicate IsStuck(ops: seq<Op>, i: nat)
  {
    i < |Run(ops).stuck| && Run(ops).stuck[i]
  }

  lemma {:induction false} OwnedWhileUp(ops: seq<Op>, i: nat)
    ensures |Run(ops).owns| == Created(ops)
    ensures IsUp(ops, i) <==> i < |Run(ops).owns| && Run(ops).owns[i]
  {
    if ops != [] {
      OwnedWhileUp(ops[..|ops| - 1], i);
      RunKeeps(ops[..|ops| - 1]);
    }
  }

  /** Over any run: a protocol's list is exactly the messages emitted while it was up or stuck. */
  lemma {:induction false} ProtocolsRecordWhatTheySee(ops: seq<Op>, i: nat)
    requires i < Created(ops)
    ensures i < |Run(ops).injected| && Run(ops).injected[i] == Seen(ops, i)
  {
    var before, last := ops[..|ops| - 1], ops[|ops| - 1];
    RunKeeps(before);
    RunKeeps(ops);
    OwnedWhileUp(ops, i);
    OwnedWhileUp(before, i);
    if i < Created(before) {
      ProtocolsRecordWhatTheySee(before, i);
      if last.Emit? {
        EmitRecordsItsMessage(Run(before), last.e);
      } else {
        assert Run(ops).injected[i] == Run(before).injected[i];
        assert Seen(before, i) + [] == Seen(before, i);
      }
    } else {
      NothingSeen(before, i);
      assert Run(ops).injected[i] == [];
    }
  }

  lemma {:induction false} NothingSeen(ops: seq<Op>, i: nat)
    requires i >= Created(ops)
    ensures Seen(ops, i) == [] && !IsUp(ops, i) && !IsStuck(ops, i)
  {
    RunKeeps(ops);
    OwnedWhileUp(ops, i);
    if ops != [] {
      NothingSeen(ops[..|ops| - 1], i);
    }
  }

  /** For any order of creating and shutting down protocols, every emission reaches the original
      `emit` exactly once and in order, as it was or parsed, and every protocol records exactly the
      messages emitted while it was up or shut down under another. */
  lemma EveryEmissionReachesTheBusOnce(ops: seq<Op>)
    ensures var b := Run(ops);
            && |b.reached| == |Emissions(ops)|
            && (forall i :: 0 <= i < |b.reached| ==>
                  || b.reached[i] == Forwarded(Emissions(ops)[i], false)
                  || b.reached[i] == Forwarded(Emissions(ops)[i], true))
            && |b.injected| == Created(ops)
            && (forall i :: 0 <= i < |b.injected| ==> b.injected[i] == Seen(ops, i))
  {
    RunKeeps(ops);
    ReachedAreEmissions(ops);
    OwnedWhileUp(ops, 0);
    forall i | 0 <= i < |Run(ops).injected| ensures Run(ops).injected[i] == Seen(ops, i) {
      ProtocolsRecordWhatTheySee(ops, i);
    }
  }

  lemma {:induction false} ReachedAreEmissions(ops: seq<Op>)
    ensures var r := Run(ops).reached;
            && |r| == |Emissions(ops)|
            && forall i :: 0 <= i < |r| ==>
                 r[i] == Forwarded(Emissions(ops)[i], false) || r[i] == Forwarded(Emissions(ops)[i], true)
  {
    if ops != [] {
      ReachedAreEmissions(ops[..|ops| - 1]);
      RunKeeps(ops[..|ops| - 1]);
      if ops[|ops| - 1].Emit? {
        EmitRecordsItsMessage(Run(ops[..|ops| - 1]), ops[|ops| - 1].e);
      }
    }
  }

  /** A wrapper is in the chain exactly while its protocol is up, or for ever once the protocol
      was shut down under another wrapper; the outermost wrapper is always the newest of those. */
  lemma WhoIsInTheChain(b: Bus, i: nat)
    requires Inv(b) && i < |b.prev|
    ensures i in Chain(b.head, b.prev) <==> b.owns[i] || b.stuck[i]
    ensures b.owns[i] || b.stuck[i] ==> b.head.Some? && i <= b.head.value
  {
    ChainDescends(b.head, b.prev);
  }

  /** When all protocols are shut down, the original `emit` is back if and only if each was
      outermost at its shutdown. */
  lemma OriginalIsRestoredIffNested(ops: seq<Op>)
    requires forall i :: 0 <= i < |Run(ops).owns| ==> !Run(ops).owns[i]
    ensures Run(ops).head.None? <==> forall i :: 0 <= i < |Run(ops).stuck| ==> !Run(ops).stuck[i]
  {
    RunKeeps(ops);
    var b := Run(ops);
    ChainDescends(b.head, b.prev);
    if b.head.Some? {
      assert b.head.value in Chain(b.head, b.prev);
    }
  }

  /** Shutting a protocol down twice is shutting it down once. */
  lemma ShutdownIsIdempotent(b: Bus, i: nat)
    requires Inv(b)
    ensures Apply(Apply(b, Shutdown(i)), Shutdown(i)) == Apply(b, Shutdown(i))
  {
  }

  // ----- the wrappers as they run -----

  class AgentBus {
    var head: Option<nat>
    var prev: seq<Option<nat>>
    var owns: seq<bool>
    var injected: seq<seq<string>>
    var reached: seq<Emission>
    ghost var stuck: seq<bool>
    ghost var log: seq<Sent>

    ghost function View(): Bus
      reads this
    {
      Bus(head, prev, owns, stuck, injected, reached, log)
    }

    constructor ()
      ensures View() == Run([])
    {
      head, prev, owns, injected, reached := None, [], [], [], [];
      stuck, log := [], [];
    }

    // `__post_init__`: wrap the emit that is installed now.
    method Create() returns (i: nat)
      requires Inv(View())
      modifies this
      ensures Inv(View()) && View() == Apply(old(View()), Op.Create) && i == |old(owns)|
    {
      CreateKeeps(View());
      i := |prev|;
      prev, owns, injected := prev + [head], owns + [true], injected + [[]];
      stuck := stuck + [false];
      head := Some(i);
    }

    // `shutdown`
    method Shutdown(i: nat)
      requires Inv(View())
      modifies this
      ensures Inv(View()) && View() == Apply(old(View()), Op.Shutdown(i))
    {
      ShutdownKeeps(View(), i);
      if i < |owns| && owns[i] {
        if head == Some(i) {
          head := prev[i];
        } else {
          stuck := stuck[i := true];
        }
        owns := owns[i := false];
      }
    }

    // `bus.emit(...)`
    method Emit(e: Emission)
      requires Inv(View())
      modifies this
      ensures Inv(View()) && View() == Apply(old(View()), Op.Emit(e))
    {
      EmitKeeps(View(), e);
      log := log + [Sent(e, Chain(head, prev))];
      EmitFrom(head, e);
    }

    // One wrapper: record what is a message, then call the wrapped emit with what was parsed.
    method EmitFrom(at: Option<nat>, e: Emission)
      requires Older(prev) && |injected| == |prev| && (at.Some? ==> at.value < |prev|)
      modifies this`injected, this`reached
      ensures injected == Walk(old(injected), Chain(at, prev), e)
      ensures reached == old(reached) + [if at.None? then e else Normal(e)]
      ensures |injected| == |prev|
      decreases if at.None? then 0 else at.value + 1
    {
      if at.None? {
        reached := reached + [e];
        return;
      }
      var msg := Normal(e);
      if msg.Object? {
        injected := injected[at.value := injected[at.value] + [msg.message]];
      }
      assert Chain(at, prev)[1..] == Chain(prev[at.value], prev);
      if !msg.Object? {
        assert old(injected)[at.value] + Recorded(e) == old(injected)[at.value];
      }
      assert injected == old(injected)[at.value := old(injected)[at.value] + Recorded(e)];
      WalkSame(injected, Chain(prev[at.value], prev), e);
      EmitFrom(prev[at.value], msg);
    }
  }

  lemma {:induction false} WalkSame(injected: seq<seq<string>>, chain: seq<nat>, e: Emission)
    ensures Walk(injected, chain, Normal(e)) == Walk(injected, chain, e)
    decreases chain
  {
    if chain != [] && chain[0] < |injected| {
      WalkSame(injected[chain[0] := injected[chain[0]] + Recorded(e)], chain[1..], e);
    }
  }
}
