/**
 hivescope/node.py as it is written: one object whose methods call each other and update its
 fields in place, with the connection's send lock taken and released around every wire-send.
 Each method is proved against the step machine of `Wire`, and no proof could go through if a
 handler ever ran, or a send ever started, under a lock that is held.
 */
module Harness {
  import opened Options
  import opened Lists
  import opened Wire
  import opened WireDrain
  import Lifecycle

  // Lock events in the order they happened; Running is the start of a queued action, that is of
  // any decode and any handler.
  datatype Event = Acquire(conn: nat) | Release(conn: nat) | Running

  // Taking a held lock again would block this thread for ever, and nothing may run from the queue
  // while any lock is held.
  predicate Allowed(held: set<nat>, e: Event)
  {
    match e
    case Acquire(k) => k !in held
    case Release(k) => k in held
    case Running => held == {}
  }

  function HeldAfter(held: set<nat>, e: Event): set<nat>
  {
    match e
    case Acquire(k) => held + {k}
    case Release(k) => held - {k}
    case Running => held
  }

  function Held(trace: seq<Event>): set<nat>
  {
    if trace == [] then {} else HeldAfter(Held(trace[..|trace| - 1]), trace[|trace| - 1])
  }

  predicate LockSafe(trace: seq<Event>)
  {
    trace == [] ||
    (LockSafe(trace[..|trace| - 1]) && Allowed(Held(trace[..|trace| - 1]), trace[|trace| - 1]))
  }

  lemma TracePush(trace: seq<Event>, e: Event)
    requires LockSafe(trace) && Allowed(Held(trace), e)
    ensures LockSafe(trace + [e]) && Held(trace + [e]) == HeldAfter(Held(trace), e)
  {
    var t' := trace + [e];
    assert t'[..|t'| - 1] == trace;
  }

  lemma {:induction false} SafePrefix(trace: seq<Event>, i: nat)
    requires LockSafe(trace) && i <= |trace|
    ensures LockSafe(trace[..i])
    decreases |trace| - i
  {
    if i < |trace| {
      SafePrefix(trace, i + 1);
      assert trace[..i + 1][..i] == trace[..i];
    } else {
      assert trace[..i] == trace;
    }
  }

  /** Whenever a queued action starts, every lock acquired before it has been released, and no
      lock is acquired while held: in no safe trace can a thread block on its own send lock. */
  lemma NoDeadlock(trace: seq<Event>, i: nat)
    requires LockSafe(trace) && i < |trace|
    ensures trace[i].Running? ==> Held(trace[..i]) == {}
    ensures trace[i].Acquire? ==> trace[i].conn !in Held(trace[..i])
  {
    SafePrefix(trace, i + 1);
    assert trace[..i + 1][..i] == trace[..i];
  }

  class Hive {
    var conns: seq<Conn>
    var sats: seq<Sat>
    var clients: seq<nat>
    var queue: seq<Task>
    var arrivals: seq<Arrival>
    var injected: seq<Injected>
    var draining: bool
    var locks: set<nat>
    // Connections that carry a satellite's transport at the moment, instead of the master's.
    var lent: map<nat, Option<Cipher>>
    ghost var trace: seq<Event>

    function State(): World
      reads this
    {
      World(conns, sats, clients, queue, arrivals, injected)
    }

    ghost predicate Valid()
      reads this
    {
      Shape(State()) && LockSafe(trace) && Held(trace) == locks && lent == map[]
    }

    // What every method keeps: called with no lock held outside a drain, it leaves the pump flag
    // and the locks as it found them.
    ghost predicate Entry()
      reads this
    {
      Valid() && (!draining ==> locks == {})
    }

    constructor (n: nat)
      ensures Entry() && State() == Start(n) && !draining && trace == []
    {
      conns, clients, queue, arrivals, injected := [], [], [], [], [];
      sats := seq(n, _ => NEW_SAT);
      draining, locks, lent, trace := false, {}, map[], [];
    }

    // `_deliver`
    method Deliver(t: Task) returns (raised: bool)
      requires Entry() && Shape(Enqueue(State(), t))
      modifies this
      ensures Entry() && draining == old(draining) && locks == old(locks)
      ensures old(draining) ==> State() == Enqueue(old(State()), t) && !raised && trace == old(trace)
      ensures !old(draining) ==> Res(State(), raised) == Drain(Enqueue(old(State()), t))
      decreases if draining then 0 else 1, 0
    {
      queue := queue + [t];
      raised := false;
      if draining {
        return;
      }
      draining := true;
      raised := DrainQueue();
      draining := false;
    }

    // while queue: queue.popleft()()
    method DrainQueue() returns (raised: bool)
      requires Valid() && draining && locks == {}
      modifies this
      ensures Valid() && draining && locks == {}
      ensures Res(State(), raised) == Drain(old(State()))
      decreases 0, 6
    {
      raised := false;
      while queue != [] && !raised
        invariant Valid() && draining && locks == {}
        invariant if raised then Drain(old(State())) == Res(State(), true)
                  else Drain(old(State())) == Drain(State())
        decreases Load(queue), |queue|, !raised
      {
        var t := queue[0];
        PopIsSound(State());
        PerformIsSound(Pop(State()), t);
        queue := queue[1..];
        TracePush(trace, Running);
        trace := trace + [Running];
        raised := Perform(t);
      }
    }

    // The body of a queued action. It needs every send lock to be free.
    method Perform(t: Task) returns (raised: bool)
      requires Valid() && draining && locks == {}
      modifies this
      ensures Valid() && draining && locks == {}
      ensures Res(State(), raised) == Wire.Perform(old(State()), t)
      decreases 0, 5
    {
      PerformIsSound(State(), t);
      raised := false;
      match t
      case Arrive(f) =>
        if f.sat < |sats| {
          raised := DecodeAndDispatch(f);
        }
      case Handle(s, m, sentAt, body) =>
        if s >= |sats| || sats[s].current.None? {
          arrivals := arrivals + [Arrival(s, None, m, sentAt, Now(State(), s))];
          return true;
        }
        HandleMessage(s, sats[s].current.value, m, sentAt);
        raised := Exec(body.cmds);
      case Shake(s, attempt) =>
        if s >= |sats| || sats[s].current.None? {
          return true;
        }
        ReceiveHandshake(sats[s].current.value, attempt);
      case StartHandshake(s) =>
        if s < |sats| {
          raised := Ask(s);
        }
      case WireUp(s) =>
        if s < |sats| {
          ConnectSatellite(s);
        }
      case Body(body) =>
        raised := Exec(body.cmds);
      case SendOn(k, parts) =>
        raised := PumpedSend(k, parts);
      case Broadcast(parts) =>
        SendToSnapshot(parts);
    }

    // `_recording_handle`, and `_recording_inject` if the policy lets the message through.
    method HandleMessage(s: nat, k: nat, m: Message, sentAt: nat)
      requires Valid()
      modifies this`arrivals, this`injected
      ensures Valid() && State() == Receive(old(State()), s, k, m, sentAt)
    {
      arrivals := arrivals + [Arrival(s, Some(k), m, sentAt, Now(State(), s))];
      if m.admitted {
        injected := injected + [Injected(s, k, m.msgType, m.mark)];
      }
    }

    // The closure of `send_to_all`: a loop over a copy of the client table.
    method SendToSnapshot(parts: seq<Part>)
      requires Valid() && draining && locks == {}
      modifies this
      ensures Valid() && draining && locks == {}
      ensures State() == FanOut(old(State()), old(clients), parts)
      decreases 0, 3
    {
      var peers := clients;
      for i := 0 to |peers|
        invariant Valid() && draining && locks == {}
        invariant FanOut(old(State()), peers, parts) == FanOut(State(), peers[i..], parts)
      {
        var raised := PumpedSend(peers[i], parts);
        assert peers[i..][1..] == peers[i + 1..];
      }
    }

    // `_pumped_send`: root a drain, but encode now.
    method PumpedSend(k: nat, parts: seq<Part>) returns (raised: bool)
      requires Entry() && k !in locks
      modifies this
      ensures Entry() && draining == old(draining) && locks == old(locks)
      ensures old(draining) ==> State() == PutParts(old(State()), k, parts) && !raised
      ensures !old(draining) ==> Res(State(), raised) == Top(old(State()), Direct(k, parts))
      decreases if draining then 0 else 1, 2
    {
      raised := false;
      PutPartsKeepsShape(State(), k, parts);
      if draining {
        OrigSend(k, parts);
        return;
      }
      draining := true;
      OrigSend(k, parts);
      raised := DrainQueue();
      draining := false;
    }

    // The connection's own send: take the lock, encode and write every frame, release the lock.
    method OrigSend(k: nat, parts: seq<Part>)
      requires Valid() && draining && k !in locks
      modifies this
      ensures Valid() && draining && locks == old(locks)
      ensures State() == PutParts(old(State()), k, parts)
      decreases 0, 1, 3
    {
      TracePush(trace, Acquire(k));
      locks, trace := locks + {k}, trace + [Acquire(k)];
      for i := 0 to |parts|
        invariant Valid() && draining && locks == old(locks) + {k}
        invariant PutParts(old(State()), k, parts) == PutParts(State(), k, parts[i..])
      {
        SendFrame(k, Plain(React(parts[i], k)));
        assert parts[i..][1..] == parts[i + 1..];
      }
      TracePush(trace, Release(k));
      locks, trace := locks - {k}, trace + [Release(k)];
    }

    // A one-frame send, as the greeting and the handshake reply are.
    method SendOne(k: nat, p: Payload)
      requires Valid() && draining && locks == {}
      modifies this
      ensures Valid() && draining && locks == {}
      ensures State() == Put(old(State()), k, p)
      decreases 0, 1, 3
    {
      TracePush(trace, Acquire(k));
      locks, trace := {k}, trace + [Acquire(k)];
      SendFrame(k, p);
      TracePush(trace, Release(k));
      locks, trace := {}, trace + [Release(k)];
    }

    // Encode with the current transport and hand the frame to `_recording_send_msg`.
    method SendFrame(k: nat, p: Payload)
      requires Valid() && draining && k in locks
      modifies this
      ensures Valid() && draining && locks == old(locks)
      ensures State() == Put(old(State()), k, p)
      decreases 0, 1, 2
    {
      PutKeepsShape(State(), k, p);
      if k >= |conns| {
        return;
      }
      var seal := SealOf(conns, k);
      conns := conns[k := Bump(conns[k])];
      ReceiveRaw(k, seal, p);
    }

    // `_recording_send_msg` and `_receive_raw`: record, bind the connection once, and enqueue the
    // decode. Only the pump's flag keeps the decode from running right here, under the lock.
    method ReceiveRaw(k: nat, seal: Seal, p: Payload)
      requires Valid() && draining && k < |conns|
      modifies this
      ensures Valid() && draining && locks == old(locks)
      ensures var w, s := old(State()), old(conns)[k].sat;
              var here := w.sats[s].current;
              var f := Frame(k, if here.Some? then here.value else k, s, seal, p);
              State() == w.(sats := w.sats[s := w.sats[s].(outs := w.sats[s].outs + [Out(f, here.None?)])],
                            queue := if here.Some? then w.queue + [Arrive(f)] else w.queue)
      decreases 0, 1, 1
    {
      var s := conns[k].sat;
      var connection := sats[s].current;
      var f := Frame(k, if connection.Some? then connection.value else k, s, seal, p);
      sats := sats[s := sats[s].(outs := sats[s].outs + [Out(f, connection.None?)])];
      if connection.None? {
        return;
      }
      var nested := Deliver(Arrive(f));
    }

    // `connection.decode`, with whatever transport the connection carries.
    method DecodeOn(k: nat, seal: Seal) returns (ok: bool)
      requires k in lent
      modifies this`lent
      ensures ok == Decodes(old(lent[k]), seal) && lent == old(lent)[k := AfterDecode(old(lent[k]), seal)]
    {
      ok := Decodes(lent[k], seal);
      lent := lent[k := AfterDecode(lent[k], seal)];
    }

    // Borrow the satellite's own transport for one decode, and give it back on both paths.
    method DecodeBorrowed(f: Frame) returns (ok: bool)
      requires Valid() && f.sat < |sats|
      modifies this`sats, this`lent
      ensures lent == map[] && sats == old(Record(State(), f)).sats
      ensures ok == Decodes(old(sats)[f.sat].cipher, f.seal)
    {
      var own, live, held := sats[f.sat].cipher, Live(State(), f), Holds(sats[f.sat].life, f.via);
      lent := lent[f.bound := own];
      ok := DecodeOn(f.bound, f.seal);
      var after := lent[f.bound];
      lent := lent - {f.bound};
      sats := sats[f.sat := sats[f.sat].(ins := sats[f.sat].ins + [In(f, own, live, held)], cipher := after)];
    }

    // `_decode_and_dispatch`: decode, record, then dispatch with the connection as it was.
    method DecodeAndDispatch(f: Frame) returns (raised: bool)
      requires Valid() && draining && locks == {} && f.sat < |sats|
      modifies this
      ensures Valid() && draining && locks == {}
      ensures Res(State(), raised) == Wire.DecodeAndDispatch(old(State()), f)
      decreases 0, 5, 0
    {
      DecodeIsSound(State(), f);
      raised := false;
      var ok := DecodeBorrowed(f);
      if !ok {
        return;
      }
      match f.payload
      case Hello =>
      case Offer =>
        raised := Ask(f.sat);
      case Reply =>
        raised := CompleteHandshake(f.sat, f.via);
      case Plain(react) =>
        raised := Exec(react);
    }

    // The satellite's handler of Noise message 2.
    method CompleteHandshake(s: nat, k: nat) returns (raised: bool)
      requires Valid() && s < |sats|
      modifies this`sats
      ensures Valid()
      ensures raised == (old(sats)[s].attempt != Some(k))
      ensures State() == if raised then old(State()) else Install(old(State()), s, k)
    {
      raised := sats[s].attempt != Some(k);
      if !raised {
        sats := sats[s := sats[s].(cipher := Some(Cipher(k, 0)), life := sats[s].life + [Installed(k)])];
      }
    }

    // The satellite's slave protocol sends Noise message 1 through `send`.
    method Ask(s: nat) returns (raised: bool)
      requires Valid() && draining && locks == {} && s < |sats|
      modifies this
      ensures Valid() && draining && locks == {}
      ensures Res(State(), raised) == Wire.Ask(old(State()), s)
      decreases 0, 3
    {
      AskIsSound(State(), s);
      var here := sats[s].current;
      if here.None? {
        return true;
      }
      sats := sats[s := sats[s].(attempt := here)];
      raised := Deliver(Shake(s, here.value));
    }

    // The master's handler of message 1: reply in clear first, install the transport second.
    method ReceiveHandshake(k: nat, attempt: nat)
      requires Valid() && draining && locks == {}
      modifies this
      ensures Valid() && draining && locks == {}
      ensures State() == if k == attempt && k < |old(conns)| && old(conns)[k].noise.None?
                         then Answer(old(State()), k) else old(State())
      decreases 0, 3
    {
      if k == attempt && k < |conns| && conns[k].noise.None? {
        SendOne(k, Reply);
        conns := conns[k := conns[k].(noise := Some(0))];
      }
    }

    // `connect_satellite`
    method ConnectSatellite(s: nat)
      requires Valid() && draining && locks == {} && s < |sats|
      modifies this
      ensures Valid() && draining && locks == {}
      ensures State() == Attach(old(State()), s)
      decreases 0, 3
    {
      var k := |conns|;
      conns := conns + [Conn(s, None)];
      sats := sats[s := Joined(sats[s], k)];
      clients := clients + [k];
      SendOne(k, Hello);
      SendOne(k, Offer);
    }

    // Closing, by either path.
    method Close(s: nat, path: Lifecycle.ClosePath)
      requires Entry()
      modifies this
      ensures Entry() && draining == old(draining) && locks == old(locks)
      ensures State() == CloseSat(old(State()), s)
      decreases if draining then 0 else 1, 3
    {
      if s < |sats| {
        CloseKeepsShape(State(), s);
        match path
        case Disconnect => DisconnectNow(s);
        case OnDisconnect => OnDisconnect(s);
      }
    }

    // A satellite's connection is its own.
    ghost predicate Owned()
      reads this
    {
      && (forall k :: 0 <= k < |conns| ==> conns[k].sat < |sats|)
      && (forall s :: 0 <= s < |sats| && sats[s].current.Some? ==>
            sats[s].current.value < |conns| && conns[sats[s].current.value].sat == s)
    }

    // SatelliteNode.disconnect
    method DisconnectNow(s: nat)
      requires Owned() && s < |sats|
      modifies this`clients, this`sats
      ensures Owned() && State() == CloseSat(old(State()), s)
    {
      var here := sats[s].current;
      if here.Some? {
        WithoutTwice(clients, here.value);
        HandleClientDisconnected(here.value);
      }
      ForgetSession(s);
    }

    // The master's `handle_client_disconnected`: remove the peer, then call the connection's
    // disconnect callback, which is its satellite's `_on_disconnect`.
    method HandleClientDisconnected(k: nat)
      requires Owned() && k < |conns|
      modifies this`clients, this`sats
      ensures Owned() && State() == CloseSat(old(State()).(clients := Without(old(clients), k)), conns[k].sat)
      decreases if sats[conns[k].sat].current.Some? then 1 else 0, 1
    {
      clients := Without(clients, k);
      OnDisconnect(conns[k].sat);
    }

    // SatelliteNode._on_disconnect: drop the references first, so that the re-entry stops here.
    method OnDisconnect(s: nat)
      requires Owned() && s < |sats|
      modifies this`clients, this`sats
      ensures Owned() && State() == CloseSat(old(State()), s)
      decreases if sats[s].current.Some? then 1 else 0, 0
    {
      var here := sats[s].current;
      sats := sats[s := sats[s].(current := None)];
      if here.Some? && here.value in clients {
        HandleClientDisconnected(here.value);
      } else if here.Some? {
        WithoutAbsent(clients, here.value);
      }
      ForgetSession(s);
    }

    // SatelliteNode._forget_session
    method ForgetSession(s: nat)
      requires Owned() && s < |sats|
      modifies this`sats
      ensures Owned() && sats == old(sats)[s := Forgotten(old(sats)[s], |conns|)]
    {
      sats := sats[s := Forgotten(sats[s], |conns|)];
    }

    // ----- the entry points, inside a drain or outside one -----

    method SendToSatellite(k: nat, parts: seq<Part>) returns (raised: bool)
      requires Entry()
      modifies this
      ensures Entry() && draining == old(draining) && locks == old(locks)
      ensures Res(State(), raised) == if old(draining) then Wire.Step(old(State()), ToSatellite(k, parts))
                                      else Top(old(State()), ToSatellite(k, parts))
      decreases if draining then 0 else 1, 3
    {
      if k !in clients {
        return true;
      }
      raised := Deliver(SendOn(k, parts));
    }

    method SendToAll(parts: seq<Part>) returns (raised: bool)
      requires Entry()
      modifies this
      ensures Entry() && draining == old(draining) && locks == old(locks)
      ensures Res(State(), raised) == if old(draining) then Wire.Step(old(State()), ToAll(parts))
                                      else Top(old(State()), ToAll(parts))
      decreases if draining then 0 else 1, 3
    {
      raised := Deliver(Broadcast(parts));
    }

    method EmitOnBus(body: Prog) returns (raised: bool)
      requires Entry()
      modifies this
      ensures Entry() && draining == old(draining) && locks == old(locks)
      ensures Res(State(), raised) == if old(draining) then Wire.Step(old(State()), OnBus(body))
                                      else Top(old(State()), OnBus(body))
      decreases if draining then 0 else 1, 3
    {
      raised := Deliver(Body(body));
    }

    // SatelliteNode.send: the guard reads the connection now, the queued action reads it later.
    method SatelliteSend(s: nat, gap: nat, msgType: string, admitted: bool, body: Prog) returns (raised: bool)
      requires Entry()
      modifies this
      ensures Entry() && draining == old(draining) && locks == old(locks)
      ensures var c := FromSatellite(s, gap, msgType, admitted, body);
              Res(State(), raised) == if old(draining) then Wire.Step(old(State()), c) else Top(old(State()), c)
      decreases if draining then 0 else 1, 3
    {
      if s >= |sats| || sats[s].current.None? {
        return true;
      }
      var m := Message(sats[s].lastMark + 1 + gap, msgType, admitted);
      SendUpIsSound(State(), s, m, body);
      sats := sats[s := sats[s].(lastMark := m.mark, sent := sats[s].sent + [m])];
      raised := Deliver(Handle(s, m, |sats[s].life|, body));
    }

    // SatelliteNode.connect
    method Connect(s: nat) returns (raised: bool)
      requires Entry()
      modifies this
      ensures Entry() && draining == old(draining) && locks == old(locks)
      ensures Res(State(), raised) == if old(draining) then Wire.Step(old(State()), Wire.Connect(s))
                                      else Top(old(State()), Wire.Connect(s))
      decreases if draining then 0 else 1, 3
    {
      raised := Deliver(WireUp(s));
      if raised || Established(State(), s) {
        return;
      }
      raised := Deliver(StartHandshake(s));
      if !raised && !Established(State(), s) {
        raised := true;
      }
    }

    // The PROPAGATE / BROADCAST loop of agent.handle_send, over the live client table. Inside a
    // drain the table cannot change under it; outside one the iterator raises when it did.
    method SendToEachClient(parts: seq<Part>) returns (raised: bool)
      requires Valid() && locks == {}
      modifies this
      ensures Valid() && locks == {} && draining == old(draining)
      ensures old(draining) ==>
                !raised && State() == FanOut(old(State()), old(clients), parts) && clients == old(clients)
      ensures !old(draining) ==> Res(State(), raised) == Loose(old(State()), old(clients), parts, old(clients))
      decreases if draining then 0 else 1, 3
    {
      var table := clients;
      raised := false;
      for i := 0 to |table|
        invariant Valid() && locks == {} && draining == old(draining) && !raised && clients == table
        invariant LoopOver(draining, old(State()), table, parts, table)
                  == LoopOver(draining, State(), table[i..], parts, table)
      {
        assert table[i..][1..] == table[i + 1..];
        LoopUnfolds(draining, State(), table[i..], parts, table);
        raised := PumpedSend(table[i], parts);
        if raised || clients != table {
          return true;
        }
      }
    }

    // agent.handle_send, on the bus.
    method HandleSend(kind: SendKind, peer: Option<nat>, parts: seq<Part>, onError: Prog) returns (raised: bool)
      requires Valid() && locks == {}
      modifies this
      ensures Valid() && locks == {} && draining == old(draining)
      ensures var c := Downstream(kind, peer, parts, onError);
              Res(State(), raised) == if old(draining) then Wire.Step(old(State()), c) else Top(old(State()), c)
      decreases if draining then 0 else 1, 4, onError, 2
    {
      raised := false;
      if kind.FanOutKind? {
        raised := SendToEachClient(parts);
      } else if kind.EscalateKind? || peer.None? {
      } else if peer.value in clients {
        raised := PumpedSend(peer.value, parts);
      } else {
        raised := Exec(onError.cmds);
      }
    }

    // agent.handle_internal_mycroft, on the bus.
    method HandleInternal(destination: seq<nat>, parts: seq<Part>) returns (raised: bool)
      requires Valid() && locks == {}
      modifies this
      ensures Valid() && locks == {} && draining == old(draining)
      ensures var c := Addressed(destination, parts);
              Res(State(), raised) == if old(draining) then Wire.Step(old(State()), c) else Top(old(State()), c)
      ensures old(draining) ==> clients == old(clients)
      decreases if draining then 0 else 1, 3, 1
    {
      FanOutKeepsShape(State(), Named(clients, destination), parts);
      raised := SendToNamed(destination, parts);
    }

    // Its loop over the live table.
    method SendToNamed(destination: seq<nat>, parts: seq<Part>) returns (raised: bool)
      requires Valid() && locks == {}
      modifies this
      ensures Valid() && locks == {} && draining == old(draining)
      ensures Res(State(), raised)
              == LoopOver(old(draining), old(State()), Named(old(clients), destination), parts, old(clients))
      decreases if draining then 0 else 1, 3, 0
    {
      var table := clients;
      raised := false;
      for i := 0 to |table|
        invariant Valid() && locks == {} && draining == old(draining) && !raised && clients == table
        invariant LoopOver(draining, old(State()), Named(table, destination), parts, table)
                  == LoopOver(draining, State(), Named(table[i..], destination), parts, table)
      {
        assert table[i..][1..] == table[i + 1..];
        NamedPops(table[i..], destination);
        if table[i] in destination {
          LoopUnfolds(draining, State(), [table[i]] + Named(table[i + 1..], destination), parts, table);
          raised := PumpedSend(table[i], parts);
          if raised || clients != table {
            return true;
          }
        }
      }
    }

    // ----- programs -----

    // One command of a handler or of a test, inside a drain or outside one.
    method Step(c: Cmd) returns (raised: bool)
      requires Valid() && locks == {}
      modifies this
      ensures Valid() && locks == {} && draining == old(draining)
      ensures Res(State(), raised) == if old(draining) then Wire.Step(old(State()), c) else Top(old(State()), c)
      decreases if draining then 0 else 1, 4, c, 0
    {
      raised := false;
      match c
      case Direct(k, parts) => raised := PumpedSend(k, parts);
      case ToSatellite(k, parts) => raised := SendToSatellite(k, parts);
      case ToAll(parts) => raised := SendToAll(parts);
      case OnBus(body) => raised := EmitOnBus(body);
      case Downstream(kind, peer, parts, onError) => raised := HandleSend(kind, peer, parts, onError);
      case Addressed(destination, parts) => raised := HandleInternal(destination, parts);
      case FromSatellite(s, gap, msgType, admitted, body) => raised := SatelliteSend(s, gap, msgType, admitted, body);
      case Connect(s) => raised := Connect(s);
      case Close(s, path) => Close(s, path);
      case Raise => raised := true;
    }

    method Exec(cmds: seq<Cmd>) returns (raised: bool)
      requires Valid() && locks == {}
      modifies this
      ensures Valid() && locks == {} && draining == old(draining)
      ensures Res(State(), raised) == if old(draining) then Wire.Exec(old(State()), cmds)
                                      else TopExec(old(State()), cmds)
      decreases if draining then 0 else 1, 4, cmds, 1
    {
      raised := false;
      for i := 0 to |cmds|
        invariant Valid() && locks == {} && draining == old(draining) && !raised
        invariant draining ==> Wire.Exec(old(State()), cmds) == Wire.Exec(State(), cmds[i..])
        invariant !draining ==> TopExec(old(State()), cmds) == TopExec(State(), cmds[i..])
      {
        assert cmds[i..][1..] == cmds[i + 1..];
        raised := Step(cmds[i]);
        if raised {
          return;
        }
      }
    }

    /** A whole test: any list of calls, raises caught. It reaches the history that the theorems
        about runs speak of; no queued action ever started while any lock was held, and no lock was
        ever taken while held, so the thread cannot have blocked on a send lock. */
    method Play(n: nat, calls: seq<Cmd>)
      requires Entry() && !draining && State() == Start(n)
      modifies this
      ensures Entry() && !draining && locks == {} && State() == History(n, calls)
      ensures forall i :: 0 <= i < |trace| && trace[i].Running? ==> Held(trace[..i]) == {}
      ensures forall i :: 0 <= i < |trace| && trace[i].Acquire? ==> trace[i].conn !in Held(trace[..i])
      ensures Held(trace) == {}
    {
      for i := 0 to |calls|
        invariant Entry() && !draining && State() == History(n, calls[..i])
      {
        assert calls[..i + 1][..i] == calls[..i];
        var raised := Step(calls[i]);
      }
      assert calls[..|calls|] == calls;
      forall i | 0 <= i < |trace|
        ensures trace[i].Running? ==> Held(trace[..i]) == {}
        ensures trace[i].Acquire? ==> trace[i].conn !in Held(trace[..i])
      {
        NoDeadlock(trace, i);
      }
    }
  }

  // What is left of a loop that sends to ks, over the live table, inside a drain or outside one.
  function LoopOver(draining: bool, w: World, ks: seq<nat>, parts: seq<Part>, table: seq<nat>): Res
    requires Shape(w)
  {
    if draining then Res(FanOut(w, ks, parts), false) else Loose(w, ks, parts, table)
  }

  // One send of the loop.
  lemma LoopUnfolds(draining: bool, w: World, ks: seq<nat>, parts: seq<Part>, table: seq<nat>)
    requires Shape(w) && ks != []
    ensures PutParts(w, ks[0], parts).clients == w.clients && Shape(PutParts(w, ks[0], parts))
    ensures Shape(Rooted(w, ks[0], parts).w)
    ensures draining ==>
              LoopOver(true, w, ks, parts, table) == LoopOver(true, PutParts(w, ks[0], parts), ks[1..], parts, table)
    ensures !draining ==>
              var r := Rooted(w, ks[0], parts);
              LoopOver(false, w, ks, parts, table)
              == if r.raised || r.w.clients != table then Res(r.w, true)
                 else LoopOver(false, r.w, ks[1..], parts, table)
  {
    PutPartsKeepsShape(w, ks[0], parts);
    DrainKeepsShape(PutParts(w, ks[0], parts));
  }

  lemma NamedPops(clients: seq<nat>, destination: seq<nat>)
    requires clients != []
    ensures clients[0] in destination ==>
              Named(clients, destination) == [clients[0]] + Named(clients[1..], destination)
    ensures clients[0] !in destination ==> Named(clients, destination) == Named(clients[1..], destination)
  {
  }
}
