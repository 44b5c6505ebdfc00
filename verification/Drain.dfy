/**
 The drain of the wire's queue (hivescope/node.py): it always ends, it keeps worlds well formed,
 and it gives meaning to calls made outside any drain.
 */
module WireDrain {
  import opened Options
  import opened Lists
  import opened Wire

  // ----- how much each step can add to the queue -----

  lemma {:induction false} LoadConcat(a: seq<Task>, b: seq<Task>)
    ensures Load(a + b) == Load(a) + Load(b)
  {
    if a == [] {
      assert a + b == b;
    } else {
      assert (a + b)[1..] == a[1..] + b;
      LoadConcat(a[1..], b);
    }
  }

  lemma LoadEnqueue(w: World, t: Task)
    ensures Load(Enqueue(w, t).queue) == Load(w.queue) + TaskWork(t)
  {
    LoadConcat(w.queue, [t]);
  }

  lemma LoadPut(w: World, k: nat, p: Payload)
    ensures Load(Put(w, k, p).queue) <= Load(w.queue) + PayloadWork(p)
  {
    var q, q' := w.queue, Put(w, k, p).queue;
    if q' != q {
      assert q' == q + [q'[|q|]];
      LoadConcat(q, [q'[|q|]]);
    }
  }

  // What a message can set off at the receiver on connection k.
  function PartsLoad(parts: seq<Part>, k: nat): nat
  {
    if parts == [] then 0 else Work(React(parts[0], k)) + PartsLoad(parts[1..], k)
  }

  lemma {:induction false} LoadPutParts(w: World, k: nat, parts: seq<Part>)
    ensures Load(PutParts(w, k, parts).queue) <= Load(w.queue) + PartsLoad(parts, k)
    decreases parts
  {
    if parts != [] {
      LoadPut(w, k, Plain(React(parts[0], k)));
      LoadPutParts(Put(w, k, Plain(React(parts[0], k))), k, parts[1..]);
    }
  }

  function FanLoad(ks: seq<nat>, parts: seq<Part>): nat
  {
    if ks == [] then 0 else PartsLoad(parts, ks[0]) + FanLoad(ks[1..], parts)
  }

  lemma {:induction false} LoadFanOut(w: World, ks: seq<nat>, parts: seq<Part>)
    ensures Load(FanOut(w, ks, parts).queue) <= Load(w.queue) + FanLoad(ks, parts)
    decreases ks
  {
    if ks != [] {
      LoadPutParts(w, ks[0], parts);
      LoadFanOut(PutParts(w, ks[0], parts), ks[1..], parts);
    }
  }

  function ReactLoad(ks: seq<nat>, p: Part): nat
  {
    if ks == [] then 0 else Work(React(p, ks[0])) + ReactLoad(ks[1..], p)
  }

  function Muted(p: Part, k: nat): Part
  {
    if k < |p.react| then Part(p.react[k := Prog([])]) else p
  }

  lemma {:induction false} MutedWork(react: seq<Prog>, k: nat)
    requires k < |react|
    ensures ReactWork(react[k := Prog([])]) + Work(react[k].cmds) == ReactWork(react)
  {
    var react' := react[k := Prog([])];
    if k == 0 {
      assert react'[1..] == react[1..];
    } else {
      assert react'[1..] == react[1..][k - 1 := Prog([])];
      MutedWork(react[1..], k - 1);
    }
  }

  lemma {:induction false} MutedElsewhere(ks: seq<nat>, p: Part, k: nat)
    requires k !in ks
    ensures ReactLoad(ks, Muted(p, k)) == ReactLoad(ks, p)
  {
    if ks != [] {
      assert ks[0] != k;
      MutedElsewhere(ks[1..], p, k);
    }
  }

  // Distinct recipients use each reaction of a part at most once.
  lemma {:induction false} ReactLoadBound(ks: seq<nat>, p: Part)
    requires Distinct(ks)
    ensures ReactLoad(ks, p) <= ReactWork(p.react)
    decreases |ks|
  {
    if ks != [] {
      var k := ks[0];
      MutedElsewhere(ks[1..], p, k);
      ReactLoadBound(ks[1..], Muted(p, k));
      if k < |p.react| {
        MutedWork(p.react, k);
      }
    }
  }

  lemma {:induction false} FanLoadSplits(ks: seq<nat>, parts: seq<Part>)
    requires parts != []
    ensures FanLoad(ks, parts) == ReactLoad(ks, parts[0]) + FanLoad(ks, parts[1..])
  {
    if ks != [] {
      FanLoadSplits(ks[1..], parts);
    }
  }

  lemma {:induction false} FanLoadBound(ks: seq<nat>, parts: seq<Part>)
    requires Distinct(ks)
    ensures FanLoad(ks, parts) <= PartsWork(parts)
    decreases |parts|
  {
    if parts == [] {
      FanLoadOfNothing(ks);
    } else {
      FanLoadSplits(ks, parts);
      ReactLoadBound(ks, parts[0]);
      FanLoadBound(ks, parts[1..]);
    }
  }

  lemma {:induction false} FanLoadOfNothing(ks: seq<nat>)
    ensures FanLoad(ks, []) == 0
  {
    if ks != [] {
      FanLoadOfNothing(ks[1..]);
    }
  }

  lemma LoadOne(w: World, k: nat, parts: seq<Part>)
    ensures Load(PutParts(w, k, parts).queue) <= Load(w.queue) + PartsWork(parts)
  {
    LoadPutParts(w, k, parts);
    FanLoadBound([k], parts);
    assert FanLoad([k], parts) == PartsLoad(parts, k) by {
      assert [k][1..] == [];
    }
  }

  lemma LoadMany(w: World, ks: seq<nat>, parts: seq<Part>)
    requires Distinct(ks)
    ensures Load(FanOut(w, ks, parts).queue) <= Load(w.queue) + PartsWork(parts)
  {
    LoadFanOut(w, ks, parts);
    FanLoadBound(ks, parts);
  }

  // ----- well-formedness is kept by every step -----

  lemma PutKeepsShape(w: World, k: nat, p: Payload)
    requires Shape(w)
    ensures Shape(Put(w, k, p))
    ensures |Put(w, k, p).conns| == |w.conns| && |Put(w, k, p).sats| == |w.sats|
    ensures Put(w, k, p).clients == w.clients
  {
  }

  lemma {:induction false} PutPartsKeepsShape(w: World, k: nat, parts: seq<Part>)
    requires Shape(w)
    ensures Shape(PutParts(w, k, parts))
    ensures PutParts(w, k, parts).clients == w.clients
    decreases parts
  {
    if parts != [] {
      var p := Plain(React(parts[0], k));
      PutKeepsShape(w, k, p);
      PutPartsKeepsShape(Put(w, k, p), k, parts[1..]);
    }
  }

  lemma {:induction false} FanOutKeepsShape(w: World, ks: seq<nat>, parts: seq<Part>)
    requires Shape(w)
    ensures Shape(FanOut(w, ks, parts))
    ensures FanOut(w, ks, parts).clients == w.clients
    decreases ks
  {
    if ks != [] {
      PutPartsKeepsShape(w, ks[0], parts);
      FanOutKeepsShape(PutParts(w, ks[0], parts), ks[1..], parts);
    }
  }

  lemma {:induction false} NamedIsSublist(clients: seq<nat>, destination: seq<nat>)
    ensures forall c :: c in Named(clients, destination) <==> c in clients && c in destination
    ensures Distinct(clients) ==> Distinct(Named(clients, destination))
  {
    if clients != [] {
      NamedIsSublist(clients[1..], destination);
      assert forall c :: c in clients <==> c == clients[0] || c in clients[1..];
      if Distinct(clients) {
        assert clients[0] !in clients[1..];
        assert Distinct(clients[1..]);
      }
    }
  }

  lemma CloseKeepsShape(w: World, s: nat)
    requires Shape(w)
    ensures Shape(CloseSat(w, s))
  {
    if s < |w.sats| && w.sats[s].current.Some? {
      WithoutIsSublist(w.clients, w.sats[s].current.value);
      var c' := CloseSat(w, s).clients;
      forall i | 0 <= i < |c'| ensures c'[i] < |w.conns| {
        assert c'[i] in c' && c'[i] in w.clients;
      }
    }
  }

  // w' is well formed and its queue grew by at most `extra`.
  predicate Grew(w: World, w': World, extra: nat)
  {
    Shape(w') && Load(w'.queue) <= Load(w.queue) + extra
  }

  lemma SendIsSound(w: World, k: nat, parts: seq<Part>)
    requires Shape(w)
    ensures Grew(w, PutParts(w, k, parts), PartsWork(parts))
  {
    PutPartsKeepsShape(w, k, parts);
    LoadOne(w, k, parts);
  }

  lemma FanOutIsSound(w: World, ks: seq<nat>, parts: seq<Part>)
    requires Shape(w) && Distinct(ks)
    ensures Grew(w, FanOut(w, ks, parts), PartsWork(parts))
  {
    FanOutKeepsShape(w, ks, parts);
    LoadMany(w, ks, parts);
  }

  lemma EnqueueIsSound(w: World, t: Task)
    requires Shape(w) && !t.Arrive? && (t.Shake? ==> t.attempt < |w.conns|)
    ensures Grew(w, Enqueue(w, t), TaskWork(t))
  {
    LoadEnqueue(w, t);
  }

  lemma SendUpIsSound(w: World, s: nat, m: Message, body: Prog)
    requires Shape(w) && s < |w.sats|
    ensures Grew(w, SendUp(w, s, m, body), Work(body.cmds))
  {
    var w1 := w.(sats := w.sats[s := w.sats[s].(lastMark := m.mark, sent := w.sats[s].sent + [m])]);
    assert Shape(w1);
    EnqueueIsSound(w1, Handle(s, m, |w.sats[s].life|, body));
  }

  lemma DownstreamIsSound(w: World, kind: SendKind, peer: Option<nat>, parts: seq<Part>, onError: Prog)
    requires Shape(w) && Grew(w, Exec(w, onError.cmds).w, Work(onError.cmds))
    ensures Grew(w, Step(w, Downstream(kind, peer, parts, onError)).w, PartsWork(parts) + Work(onError.cmds))
  {
    if kind.FanOutKind? {
      FanOutIsSound(w, w.clients, parts);
    } else if kind.TargetedKind? && peer.Some? && peer.value in w.clients {
      SendIsSound(w, peer.value, parts);
    }
  }

  lemma AddressedIsSound(w: World, destination: seq<nat>, parts: seq<Part>)
    requires Shape(w)
    ensures Grew(w, Step(w, Addressed(destination, parts)).w, PartsWork(parts))
  {
    NamedIsSublist(w.clients, destination);
    FanOutIsSound(w, Named(w.clients, destination), parts);
  }

  lemma FromSatelliteIsSound(w: World, s: nat, gap: nat, msgType: string, admitted: bool, body: Prog)
    requires Shape(w)
    ensures Grew(w, Step(w, FromSatellite(s, gap, msgType, admitted, body)).w, Work(body.cmds))
  {
    if s < |w.sats| && w.sats[s].current.Some? {
      var m := Message(w.sats[s].lastMark + 1 + gap, msgType, admitted);
      SendUpIsSound(w, s, m, body);
    }
  }

  lemma GrewTwice(w: World, w1: World, w2: World, a: nat, b: nat)
    requires Grew(w, w1, a) && Grew(w1, w2, b)
    ensures Grew(w, w2, a + b) && Grew(w, w1, a + b)
  {
  }

  lemma ConnectIsSound(w: World, s: nat)
    requires Shape(w)
    ensures Grew(w, Step(w, Connect(s)).w, 5)
  {
    var w1 := Enqueue(w, WireUp(s));
    EnqueueIsSound(w, WireUp(s));
    EnqueueIsSound(w1, StartHandshake(s));
    GrewTwice(w, w1, Enqueue(w1, StartHandshake(s)), 3, 2);
    ConnectQueues(w, s);
  }

  lemma ConnectQueues(w: World, s: nat)
    ensures var w1 := Enqueue(w, WireUp(s));
            Step(w, Connect(s)).w == if Established(w, s) then w1 else Enqueue(w1, StartHandshake(s))
  {
  }

  // A step inside a drain stays well formed and adds no more than it is worth.
  lemma {:induction false} StepIsSound(w: World, c: Cmd)
    requires Shape(w)
    ensures Grew(w, Step(w, c).w, CmdWork(c))
    decreases c
  {
    match c
    case Direct(k, parts) => SendIsSound(w, k, parts);
    case ToSatellite(k, parts) => EnqueueIsSound(w, SendOn(k, parts));
    case ToAll(parts) => EnqueueIsSound(w, Broadcast(parts));
    case OnBus(body) => EnqueueIsSound(w, Body(body));
    case Downstream(kind, peer, parts, onError) =>
      ExecIsSound(w, onError.cmds);
      DownstreamIsSound(w, kind, peer, parts, onError);
    case Addressed(destination, parts) => AddressedIsSound(w, destination, parts);
    case FromSatellite(s, gap, msgType, admitted, body) => FromSatelliteIsSound(w, s, gap, msgType, admitted, body);
    case Connect(s) => ConnectIsSound(w, s);
    case Close(s, _) => CloseKeepsShape(w, s);
    case Raise =>
  }

  lemma {:induction false} ExecIsSound(w: World, cmds: seq<Cmd>)
    requires Shape(w)
    ensures Shape(Exec(w, cmds).w)
    ensures Load(Exec(w, cmds).w.queue) <= Load(w.queue) + Work(cmds)
    ensures cmds != [] ==> Load(Exec(w, cmds).w.queue) < Load(w.queue) + Work(cmds)
    ensures cmds == [] ==> Exec(w, cmds).w == w
    decreases cmds
  {
    if cmds != [] {
      StepIsSound(w, cmds[0]);
      var r := Step(w, cmds[0]);
      if !r.raised {
        ExecIsSound(r.w, cmds[1..]);
      }
    }
  }

  lemma AskIsSound(w: World, s: nat)
    requires Shape(w) && s < |w.sats|
    ensures Shape(Ask(w, s).w)
    ensures Load(Ask(w, s).w.queue) <= Load(w.queue) + 1
  {
    if w.sats[s].current.Some? {
      var w1 := w.(sats := w.sats[s := w.sats[s].(attempt := w.sats[s].current)]);
      LoadEnqueue(w1, Shake(s, w.sats[s].current.value));
    }
  }

  lemma AttachIsSound(w: World, s: nat)
    requires Shape(w) && s < |w.sats|
    ensures Shape(Attach(w, s))
    ensures Load(Attach(w, s).queue) <= Load(w.queue) + 2
  {
    var k := |w.conns|;
    var w1 := w.(conns := w.conns + [Conn(s, None)],
                 sats := w.sats[s := Joined(w.sats[s], k)],
                 clients := w.clients + [k]);
    assert Shape(w1);
    PutKeepsShape(w1, k, Hello);
    PutKeepsShape(Put(w1, k, Hello), k, Offer);
    LoadPut(w1, k, Hello);
    LoadPut(Put(w1, k, Hello), k, Offer);
  }

  lemma DecodeIsSound(w: World, f: Frame)
    requires Shape(w) && f.sat < |w.sats|
    ensures Shape(DecodeAndDispatch(w, f).w)
    ensures var w' := DecodeAndDispatch(w, f).w;
            Load(w'.queue) < Load(w.queue) + PayloadWork(f.payload) || w'.queue == w.queue
  {
    var w1 := Record(w, f);
    assert Shape(w1);
    if Decodes(w.sats[f.sat].cipher, f.seal) {
      match f.payload
      case Hello =>
      case Offer => AskIsSound(w1, f.sat);
      case Reply =>
      case Plain(react) => ExecIsSound(w1, react);
    }
  }

  // w' is well formed, and its queue got strictly less than `worth`, or nothing at all.
  predicate Paid(w: World, w': World, worth: nat)
  {
    Shape(w') && (Load(w'.queue) < Load(w.queue) + worth || w'.queue == w.queue)
  }

  lemma HandleIsSound(w: World, s: nat, m: Message, sentAt: nat, body: Prog)
    requires Shape(w)
    ensures Paid(w, Perform(w, Handle(s, m, sentAt, body)).w, Work(body.cmds))
  {
    if s < |w.sats| && w.sats[s].current.Some? {
      var w1 := Receive(w, s, w.sats[s].current.value, m, sentAt);
      assert Shape(w1) && w1.queue == w.queue;
      ExecIsSound(w1, body.cmds);
    }
  }

  lemma ShakeIsSound(w: World, s: nat, attempt: nat)
    requires Shape(w)
    ensures Paid(w, Perform(w, Shake(s, attempt)).w, 1)
  {
    if s < |w.sats| && w.sats[s].current.Some? {
      PutKeepsShape(w, w.sats[s].current.value, Reply);
      LoadPut(w, w.sats[s].current.value, Reply);
    }
  }

  lemma BodyIsSound(w: World, body: Prog)
    requires Shape(w)
    ensures Paid(w, Perform(w, Body(body)).w, Work(body.cmds))
  {
    ExecIsSound(w, body.cmds);
  }

  lemma ArriveIsSound(w: World, f: Frame)
    requires Shape(w)
    ensures Paid(w, Perform(w, Arrive(f)).w, PayloadWork(f.payload))
  {
    if f.sat < |w.sats| {
      DecodeIsSound(w, f);
    }
  }

  lemma GreetIsSound(w: World, s: nat)
    requires Shape(w)
    ensures Paid(w, Perform(w, WireUp(s)).w, 3)
    ensures Paid(w, Perform(w, StartHandshake(s)).w, 2)
  {
    if s < |w.sats| {
      AttachIsSound(w, s);
      AskIsSound(w, s);
    }
  }

  // A popped action puts back strictly less than it took out, or nothing at all.
  lemma PerformIsSound(w: World, t: Task)
    requires Shape(w)
    ensures Paid(w, Perform(w, t).w, TaskWork(t))
  {
    match t
    case Arrive(f) => ArriveIsSound(w, f);
    case Handle(s, m, sentAt, body) => HandleIsSound(w, s, m, sentAt, body);
    case Shake(s, attempt) => ShakeIsSound(w, s, attempt);
    case StartHandshake(s) => GreetIsSound(w, s);
    case WireUp(s) => GreetIsSound(w, s);
    case Body(body) => BodyIsSound(w, body);
    case SendOn(k, parts) => SendIsSound(w, k, parts);
    case Broadcast(parts) => FanOutIsSound(w, w.clients, parts);
  }

  lemma PopIsSound(w: World)
    requires Shape(w) && w.queue != []
    ensures Shape(Pop(w)) && Load(w.queue) == TaskWork(w.queue[0]) + Load(Pop(w).queue)
  {
  }

  // ----- the drain, and calls made outside any drain -----

  function Drain(w: World): Res
    requires Shape(w)
    decreases Load(w.queue), |w.queue|
  {
    if w.queue == [] then Res(w, false) else
      PopIsSound(w);
      PerformIsSound(Pop(w), w.queue[0]);
      var r := Perform(Pop(w), w.queue[0]);
      if r.raised then r else Drain(r.w)
  }

  lemma {:induction false} DrainKeepsShape(w: World)
    requires Shape(w)
    ensures Shape(Drain(w).w)
    ensures !Drain(w).raised ==> Drain(w).w.queue == []
    decreases Load(w.queue), |w.queue|
  {
    if w.queue != [] {
      PopIsSound(w);
      PerformIsSound(Pop(w), w.queue[0]);
      var r := Perform(Pop(w), w.queue[0]);
      if !r.raised {
        DrainKeepsShape(r.w);
      }
    }
  }

  // One pop of the drain.
  lemma DrainStep(w: World)
    requires Shape(w) && w.queue != []
    ensures Shape(Perform(Pop(w), w.queue[0]).w)
    ensures Drain(w) == var r := Perform(Pop(w), w.queue[0]); if r.raised then r else Drain(r.w)
  {
    PopIsSound(w);
    PerformIsSound(Pop(w), w.queue[0]);
  }

  // A wire-send made outside any drain: it is followed by a drain of its own.
  function Rooted(w: World, k: nat, parts: seq<Part>): Res
    requires Shape(w)
  {
    PutPartsKeepsShape(w, k, parts);
    Drain(PutParts(w, k, parts))
  }

  // A loop over the live client table `table`, outside any drain, with `ks` still to be sent to.
  // Each send is a drain of its own, and the iterator raises as soon as the table was changed.
  function Loose(w: World, ks: seq<nat>, parts: seq<Part>, table: seq<nat>): (r: Res)
    requires Shape(w)
    ensures Shape(r.w)
    decreases ks
  {
    if ks == [] then Res(w, false) else
      PutPartsKeepsShape(w, ks[0], parts);
      DrainKeepsShape(PutParts(w, ks[0], parts));
      var r := Rooted(w, ks[0], parts);
      if r.raised then r
      else if r.w.clients != table then Res(r.w, true)
      else Loose(r.w, ks[1..], parts, table)
  }

  // One call from outside any drain. Downstream and Addressed are events that a test emits on the
  // bus directly; OnBus emits through `emit_on_bus`.
  function Top(w: World, c: Cmd): (r: Res)
    requires Shape(w)
    ensures Shape(r.w)
    decreases c, 0
  {
    match c
    case Direct(k, parts) =>
      PutPartsKeepsShape(w, k, parts);
      DrainKeepsShape(PutParts(w, k, parts));
      Rooted(w, k, parts)
    case Close(s, _) => CloseKeepsShape(w, s); Res(CloseSat(w, s), false)
    case Connect(s) => ConnectNow(w, s)
    case Downstream(kind, peer, parts, onError) =>
      if kind.FanOutKind? then Loose(w, w.clients, parts, w.clients)
      else if kind.EscalateKind? || peer.None? then Res(w, false)
      else if peer.value in w.clients then
        PutPartsKeepsShape(w, peer.value, parts);
        DrainKeepsShape(PutParts(w, peer.value, parts));
        Rooted(w, peer.value, parts)
      else TopExec(w, onError.cmds)
    case Addressed(destination, parts) => Loose(w, Named(w.clients, destination), parts, w.clients)
    case _ =>
      StepIsSound(w, c);
      var r := Step(w, c);
      if r.raised then r else
        DrainKeepsShape(r.w);
        Drain(r.w)
  }

  // An emit on an idle bus.
  lemma IdleEmit(w: World, body: Prog)
    requires Shape(w) && w.queue == []
    ensures Shape(Exec(w, body.cmds).w)
    ensures Top(w, OnBus(body)) == var r := Exec(w, body.cmds); if r.raised then r else Drain(r.w)
  {
    var w0 := Enqueue(w, Body(body));
    EnqueueIsSound(w, Body(body));
    ExecIsSound(w, body.cmds);
    assert w0.queue == [Body(body)] && Pop(w0) == w;
    DrainStep(w0);
  }

  function ConnectNow(w: World, s: nat): (r: Res)
    requires Shape(w)
    ensures Shape(r.w)
  {
    EnqueueIsSound(w, WireUp(s));
    DrainKeepsShape(Enqueue(w, WireUp(s)));
    StartUnlessSet(Drain(Enqueue(w, WireUp(s))), s)
  }

  // The rest of `connect`: start the handshake unless one was completed, and insist on it.
  function StartUnlessSet(r: Res, s: nat): (r': Res)
    requires Shape(r.w)
    ensures Shape(r'.w)
  {
    if r.raised || Established(r.w, s) then r else
      EnqueueIsSound(r.w, StartHandshake(s));
      DrainKeepsShape(Enqueue(r.w, StartHandshake(s)));
      var r2 := Drain(Enqueue(r.w, StartHandshake(s)));
      if r2.raised then r2 else Res(r2.w, !Established(r2.w, s))
  }

  // The commands of a handler that runs outside any drain.
  function TopExec(w: World, cmds: seq<Cmd>): (r: Res)
    requires Shape(w)
    ensures Shape(r.w)
    decreases cmds, 0
  {
    if cmds == [] then Res(w, false) else
      var r := Top(w, cmds[0]);
      if r.raised then r else TopExec(r.w, cmds[1..])
  }

  // n satellites, none of them ever connected.
  function Start(n: nat): (w: World)
    ensures Shape(w)
  {
    World([], seq(n, _ => NEW_SAT), [], [], [], [])
  }

  // Any list of calls; a call that raises is caught and the next one is made.
  function Onward(w: World, calls: seq<Cmd>): (w': World)
    requires Shape(w)
    ensures Shape(w')
    decreases |calls|
  {
    if calls == [] then w else Top(Onward(w, Init(calls)), Last(calls)).w
  }

  lemma {:induction false} OnwardConcat(w: World, calls: seq<Cmd>, later: seq<Cmd>)
    requires Shape(w)
    ensures Onward(w, calls + later) == Onward(Onward(w, calls), later)
    decreases |later|
  {
    if later == [] {
      assert calls + later == calls;
    } else {
      assert Init(calls + later) == calls + Init(later) && Last(calls + later) == Last(later);
      OnwardConcat(w, calls, Init(later));
    }
  }

  // The world after any list of calls made from the start.
  function History(n: nat, calls: seq<Cmd>): (w: World)
    ensures Shape(w)
  {
    Onward(Start(n), calls)
  }
}
