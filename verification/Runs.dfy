/**
 The promises of hivescope/node.py about whole runs: any number of satellites, any finite list of
 calls, each of which may set off any finite program of handlers and may raise.
 */
module WireRuns {
  import opened Options
  import opened Lists
  import opened Wire
  import opened WireDrain
  import opened WireSteps
  import opened WireSessions
  import opened WireUpstream
  import Lifecycle

  /** In every run, a frame that reaches its satellite while the session that encoded it is the
      open one is decoded as it was encoded (a clear frame with no transport, a sealed frame with
      that session's transport at exactly the send nonce) if and only if the satellite does not hold
      the transport of another session. */
  lemma SessionFramesDecode(n: nat, calls: seq<Cmd>, s: nat, i: nat)
    requires s < |History(n, calls).sats| && i < |History(n, calls).sats[s].ins|
    requires History(n, calls).sats[s].ins[i].live
    ensures var r := History(n, calls).sats[s].ins[i];
            match r.frame.seal
            case Clear => r.borrowed.None? <==> Own(r.borrowed, r.frame.via)
            case Sealed(session, nonce) =>
              r.borrowed == Some(Cipher(session, nonce)) <==> Own(r.borrowed, r.frame.via)
  {
    SessionsHold(n, calls);
    assert Settled(History(n, calls).sats[s], |History(n, calls).conns|);
  }

  /** The two ends of an open session agree about its phase and nonce when the pump is idle if and
      only if the satellite does not hold the transport of another session; and each nonce below the
      send counter left exactly once, in order. */
  lemma EndsAgreeWhenIdle(n: nat, calls: seq<Cmd>, k: nat)
    requires k < |History(n, calls).conns|
    ensures var w := History(n, calls);
            var conn, sat := w.conns[k], w.sats[w.conns[k].sat];
            && NoncesInOrder(conn.noise, sat.outs, k)
            && (Open(w, k) && w.queue == [] ==>
                  (sat.cipher == (if conn.noise.None? then None else Some(Cipher(k, conn.noise.value)))
                   <==> Own(sat.cipher, k)))
  {
    SessionsHold(n, calls);
    var w := History(n, calls);
    assert Wired(w, k);
    if Open(w, k) && w.queue == [] {
      assert Ends(w, k) && Collect(w.queue, FrameVia(k)) == [];
    }
  }

  lemma {:induction false} KeptPlusDropped(outs: seq<Out>)
    ensures |Collect(outs, KeptFrame())| + |Collect(outs, DroppedFrame())| == |outs|
  {
    if outs != [] {
      KeptPlusDropped(outs[1..]);
      assert |KeptFrame()(outs[0])| + |DroppedFrame()(outs[0])| == 1;
    }
  }

  lemma {:induction false} OneEach(ins: seq<In>)
    ensures |Collect(ins, InFrame())| == |ins|
    ensures forall i :: 0 <= i < |ins| ==> Collect(ins, InFrame())[i] == ins[i].frame
  {
    if ins != [] {
      OneEach(ins[1..]);
      assert InFrame()(ins[0]) == [ins[0].frame];
    }
  }

  /** Frame conservation, for each satellite and whatever its handlers raised: frames recorded
      out at the master are those dropped for lack of a connection, those still queued, and
      those recorded in (decode errors included); and the inbound records are, in send order,
      the first of the frames that were not dropped. */
  lemma FramesAreConserved(n: nat, calls: seq<Cmd>, s: nat)
    requires s < |History(n, calls).sats|
    ensures var w := History(n, calls);
            var sat := w.sats[s];
            && |sat.outs| == |Collect(sat.outs, DroppedFrame())| + |Collect(w.queue, FrameTo(s))| + |sat.ins|
            && |sat.ins| <= |Collect(sat.outs, KeptFrame())|
            && (forall i :: 0 <= i < |sat.ins| ==> sat.ins[i].frame == Collect(sat.outs, KeptFrame())[i])
  {
    SessionsHold(n, calls);
    var w := History(n, calls);
    assert Conserved(w.sats[s], w.queue, s);
    KeptPlusDropped(w.sats[s].outs);
    OneEach(w.sats[s].ins);
  }

  // The frames of connection k among those not dropped, and among the inbound records.
  function KeptVia(k: nat): Out -> seq<Frame>
  {
    (o: Out) => if !o.dropped && o.frame.via == k then [o.frame] else []
  }

  function InVia(k: nat): In -> seq<Frame>
  {
    (r: In) => if r.frame.via == k then [r.frame] else []
  }

  function OfConnection(k: nat): Frame -> seq<Frame>
  {
    (f: Frame) => if f.via == k then [f] else []
  }

  lemma OneOfConnection(k: nat, f: Frame)
    ensures Collect([f], OfConnection(k)) == if f.via == k then [f] else []
    ensures Collect<Frame, Frame>([], OfConnection(k)) == []
  {
    assert [f][1..] == [];
  }

  lemma KeptOfConnection(outs: seq<Out>, k: nat)
    ensures Collect(Collect(outs, KeptFrame()), OfConnection(k)) == Collect(outs, KeptVia(k))
  {
    forall o | o in outs ensures Collect(KeptFrame()(o), OfConnection(k)) == KeptVia(k)(o) {
      OneOfConnection(k, o.frame);
    }
    CollectTwice(outs, KeptFrame(), OfConnection(k), KeptVia(k));
  }

  lemma InOfConnection(ins: seq<In>, k: nat)
    ensures Collect(Collect(ins, InFrame()), OfConnection(k)) == Collect(ins, InVia(k))
  {
    forall r | r in ins ensures Collect(InFrame()(r), OfConnection(k)) == InVia(k)(r) {
      OneOfConnection(k, r.frame);
    }
    CollectTwice(ins, InFrame(), OfConnection(k), InVia(k));
  }

  lemma QueuedOfConnection(w: World, k: nat)
    requires Shape(w) && Wired(w, k)
    ensures Collect(Collect(w.queue, FrameTo(w.conns[k].sat)), OfConnection(k)) == Collect(w.queue, FrameVia(k))
  {
    var s := w.conns[k].sat;
    forall t | t in w.queue ensures Collect(FrameTo(s)(t), OfConnection(k)) == FrameVia(k)(t) {
      if t.Arrive? {
        assert FrameFits(w.conns, |w.sats|, t.frame);
        OneOfConnection(k, t.frame);
      }
    }
    CollectTwice(w.queue, FrameTo(s), OfConnection(k), FrameVia(k));
  }

  /** The same for each connection alone: its frames that were not dropped are, in send order,
      those recorded at its satellite followed by those still queued. */
  lemma ConnectionFramesAreConserved(n: nat, calls: seq<Cmd>, k: nat)
    requires k < |History(n, calls).conns|
    ensures var w := History(n, calls);
            var sat := w.sats[w.conns[k].sat];
            Collect(sat.outs, KeptVia(k)) == Collect(sat.ins, InVia(k)) + Collect(w.queue, FrameVia(k))
  {
    SessionsHold(n, calls);
    var w := History(n, calls);
    var s := w.conns[k].sat;
    var sat := w.sats[s];
    assert Conserved(sat, w.queue, s);
    KeptOfConnection(sat.outs, k);
    InOfConnection(sat.ins, k);
    QueuedOfConnection(w, k);
    CollectConcat(Collect(sat.ins, InFrame()), Collect(w.queue, FrameTo(s)), OfConnection(k));
  }

  // The marks of one satellite's injections that a test selects by connection and type.
  function MarksOn(s: nat, conn: nat, msgType: string): Injected -> seq<nat>
  {
    (r: Injected) => if r.sat == s && r.conn == conn && r.msgType == msgType then [r.mark] else []
  }

  // Sequence marks of satellite s on the bus.
  function MarkFrom(s: nat): Injected -> seq<nat>
  {
    (r: Injected) => if r.sat == s then [r.mark] else []
  }

  lemma {:induction false} SelectionIncreases(injected: seq<Injected>, s: nat, conn: nat, msgType: string)
    requires Increasing(Collect(injected, MarkFrom(s)))
    ensures Increasing(Collect(injected, MarksOn(s, conn, msgType)))
    ensures forall m :: m in Collect(injected, MarksOn(s, conn, msgType)) ==> m in Collect(injected, MarkFrom(s))
  {
    if injected != [] {
      IncreasingSplit(MarkFrom(s)(injected[0]), Collect(injected[1..], MarkFrom(s)));
      SelectionIncreases(injected[1..], s, conn, msgType);
      var chosen := Collect(injected[1..], MarksOn(s, conn, msgType));
      if MarksOn(s, conn, msgType)(injected[0]) != [] {
        assert MarkFrom(s)(injected[0]) == [injected[0].mark];
        assert injected[0].mark in MarkFrom(s)(injected[0]);
        IncreasingCons(injected[0].mark, chosen);
      } else {
        assert Collect(injected, MarksOn(s, conn, msgType)) == chosen;
      }
    }
  }

  // Marks of s in order of sending; those on the bus are some of them.
  lemma {:induction false} BusMarksIncrease(arrivals: seq<Arrival>, s: nat)
    requires Increasing(Collect(Collect(arrivals, TakenFrom(s)), MarkOf()))
    ensures Increasing(Collect(Collect(arrivals, OnTheBus()), MarkFrom(s)))
    ensures forall m :: m in Collect(Collect(arrivals, OnTheBus()), MarkFrom(s)) ==>
              m in Collect(Collect(arrivals, TakenFrom(s)), MarkOf())
  {
    if arrivals != [] {
      var a := arrivals[0];
      var taken, bus := Collect(arrivals[1..], TakenFrom(s)), Collect(arrivals[1..], OnTheBus());
      CollectConcat(TakenFrom(s)(a), taken, MarkOf());
      CollectConcat(OnTheBus()(a), bus, MarkFrom(s));
      IncreasingSplit(Collect(TakenFrom(s)(a), MarkOf()), Collect(taken, MarkOf()));
      BusMarksIncrease(arrivals[1..], s);
      OneArrival(a, s);
      if a.sat == s && a.conn.Some? && a.message.admitted {
        assert a.message.mark in Collect(TakenFrom(s)(a), MarkOf());
        IncreasingCons(a.message.mark, Collect(bus, MarkFrom(s)));
      } else {
        assert Collect(Collect(arrivals, OnTheBus()), MarkFrom(s)) == Collect(bus, MarkFrom(s));
      }
    }
  }

  lemma OneArrival(a: Arrival, s: nat)
    ensures Collect(TakenFrom(s)(a), MarkOf()) == if a.sat == s then [a.message.mark] else []
    ensures Collect(OnTheBus()(a), MarkFrom(s))
            == if a.sat == s && a.conn.Some? && a.message.admitted then [a.message.mark] else []
  {
    assert [a.message][1..] == [];
    if a.conn.Some? && a.message.admitted {
      assert OnTheBus()(a)[1..] == [];
    }
  }

  lemma {:induction false} MarksOfSent(sent: seq<Message>)
    ensures |Collect(sent, MarkOf())| == |sent|
    ensures forall i :: 0 <= i < |sent| ==> Collect(sent, MarkOf())[i] == sent[i].mark
  {
    if sent != [] {
      MarksOfSent(sent[1..]);
      assert MarkOf()(sent[0]) == [sent[0].mark];
    }
  }

  /** What a satellite sends with strictly increasing marks is injected in that order, whichever
      connection and type a test looks at, and whatever else ran in between: sent is taken then
      queued, and injected is what was admitted of that taken on a connection. */
  lemma InjectionsFollowSendOrder(n: nat, calls: seq<Cmd>, s: nat, conn: nat, msgType: string)
    requires s < |History(n, calls).sats|
    ensures var w := History(n, calls);
            && w.sats[s].sent == Collect(w.arrivals, TakenFrom(s)) + Collect(w.queue, PendingFrom(s))
            && Collect(w.injected, InjectedFrom(s)) == Collect(w.arrivals, BusOf(s))
    ensures Increasing(Collect(History(n, calls).injected, MarkFrom(s)))
    ensures Increasing(Collect(History(n, calls).injected, MarksOn(s, conn, msgType)))
  {
    var w := History(n, calls);
    MessagesAreConserved(n, calls, s);
    var taken, queued := Collect(w.arrivals, TakenFrom(s)), Collect(w.queue, PendingFrom(s));
    MarksOfSent(w.sats[s].sent);
    CollectConcat(taken, queued, MarkOf());
    IncreasingSplit(Collect(taken, MarkOf()), Collect(queued, MarkOf()));
    BusMarksIncrease(w.arrivals, s);
    BusIsInjected(w.arrivals, s);
    SelectionIncreases(w.injected, s, conn, msgType);
  }

  // ----- connecting -----

  // The idle harness right after `connect_satellite` ran for satellite s.
  lemma GreetingQueued(w: World, s: nat)
    requires Shape(w) && w.queue == [] && s < |w.sats|
    ensures var k := |w.conns|;
            var w1 := Attach(w, s);
            && Shape(w1) && Drain(Enqueue(w, WireUp(s))) == Drain(w1)
            && w1.queue == [Arrive(Frame(k, k, s, Clear, Hello)), Arrive(Frame(k, k, s, Clear, Offer))]
            && |w1.sats| == |w.sats| && w1.clients == w.clients + [k]
            && w1.sats[s].current == Some(k) && w1.sats[s].cipher == w.sats[s].cipher
            && |w1.conns| == k + 1 && w1.conns[k] == Conn(s, None)
  {
    var w0 := Enqueue(w, WireUp(s));
    DrainStep(w0);
    assert w0.queue == [WireUp(s)];
    assert Pop(w0) == w;
    assert Perform(w, WireUp(s)).w == Attach(w, s);
  }

  // Satellite s is on connection k, in clear, with the given calls queued.
  predicate Handshaking(w: World, s: nat, k: nat, q: seq<Task>)
  {
    && Shape(w) && s < |w.sats| && k < |w.conns| && w.conns[k].sat == s && w.conns[k].noise.None?
    && w.sats[s].current == Some(k) && w.sats[s].cipher.None? && w.queue == q
  }

  predicate SameTables(w: World, w': World, k: nat)
    requires k < |w.conns|
  {
    |w'.conns| == |w.conns| && |w'.sats| == |w.sats| && w'.clients == w.clients
  }

  // The two frames of the greeting lead to Noise message 1.
  lemma GreetingAsks(w: World, s: nat, k: nat)
    requires Handshaking(w, s, k, [Arrive(Frame(k, k, s, Clear, Hello)), Arrive(Frame(k, k, s, Clear, Offer))])
    ensures exists w' :: Handshaking(w', s, k, [Shake(s, k)]) && SameTables(w, w', k)
                         && w'.sats[s].attempt == Some(k) && Drain(w) == Drain(w')
  {
    DrainStep(w);
    var w1 := Perform(Pop(w), w.queue[0]).w;
    assert Handshaking(w1, s, k, [Arrive(Frame(k, k, s, Clear, Offer))]);
    DrainStep(w1);
    var w2 := Perform(Pop(w1), w1.queue[0]).w;
    assert Handshaking(w2, s, k, [Shake(s, k)]) && SameTables(w, w2, k);
  }

  // Message 1 is answered by message 2, and both ends install their transports.
  lemma ShakeCompletes(w: World, s: nat, k: nat)
    requires Handshaking(w, s, k, [Shake(s, k)]) && w.sats[s].attempt == Some(k)
    ensures var r := Drain(w);
            && !r.raised && Shape(r.w) && r.w.queue == [] && SameTables(w, r.w, k)
            && r.w.conns[k].noise == Some(0) && r.w.conns[k].sat == s
            && r.w.sats[s].cipher == Some(Cipher(k, 0)) && r.w.sats[s].current == Some(k)
  {
    DrainStep(w);
    assert Pop(w).queue == [];
    var w1 := Answer(Pop(w), k);
    assert Perform(Pop(w), w.queue[0]) == Res(w1, false);
    var reply := Frame(k, k, s, Clear, Reply);
    assert w1.queue == [Arrive(reply)];
    DrainStep(w1);
    var w2 := Record(Pop(w1), reply);
    assert Perform(Pop(w1), w1.queue[0]) == Dispatch(w2, reply);
    assert Dispatch(w2, reply).w.queue == [];
  }

  // The greeting of an idle harness, when the satellite holds no transport.
  lemma GreetingAnswered(w: World, s: nat, k: nat)
    requires Handshaking(w, s, k, [Arrive(Frame(k, k, s, Clear, Hello)), Arrive(Frame(k, k, s, Clear, Offer))])
    ensures var r := Drain(w);
            && !r.raised && Shape(r.w) && r.w.queue == [] && SameTables(w, r.w, k)
            && r.w.conns[k].noise == Some(0) && r.w.conns[k].sat == s
            && r.w.sats[s].cipher == Some(Cipher(k, 0)) && r.w.sats[s].current == Some(k)
  {
    GreetingAsks(w, s, k);
    var w' :| Handshaking(w', s, k, [Shake(s, k)]) && SameTables(w, w', k)
              && w'.sats[s].attempt == Some(k) && Drain(w) == Drain(w');
    ShakeCompletes(w', s, k);
  }

  // A satellite that still holds a transport rejects both frames of the greeting.
  lemma GreetingRejected(w: World, s: nat, k: nat)
    requires Shape(w) && s < |w.sats| && k < |w.conns| && w.conns[k].sat == s && w.conns[k].noise.None?
    requires w.sats[s].current == Some(k) && w.sats[s].cipher.Some?
    requires w.queue == [Arrive(Frame(k, k, s, Clear, Hello)), Arrive(Frame(k, k, s, Clear, Offer))]
    ensures var r := Drain(w);
            && !r.raised && Shape(r.w) && r.w.queue == []
            && SameTables(w, r.w, k) && r.w.conns[k].noise.None? && r.w.sats[s].cipher == w.sats[s].cipher
  {
    var offer := Frame(k, k, s, Clear, Offer);
    DrainStep(w);
    var w1 := Perform(Pop(w), w.queue[0]).w;
    assert w1.queue == [Arrive(offer)];
    DrainStep(w1);
    var w2 := Perform(Pop(w1), w1.queue[0]).w;
    assert w2.queue == [];
  }

  // r came of a connect that opened connection |w.conns|, negotiated only if there was no transport.
  predicate Negotiates(w: World, s: nat, r: Res)
    requires s < |w.sats|
  {
    var k := |w.conns|;
    && !r.raised && r.w.queue == [] && |r.w.conns| == k + 1 && s < |r.w.sats|
    && (r.w.conns[k].noise.Some? <==> w.sats[s].cipher.None?)
    && (w.sats[s].cipher.None? ==>
          && Open(r.w, k) && r.w.conns[k].noise == Some(0)
          && r.w.sats[s].cipher == Some(Cipher(k, 0)) && k in r.w.clients)
    && (w.sats[s].cipher.Some? ==> r.w.sats[s].cipher == w.sats[s].cipher)
  }

  // The drain of the greeting settles it.
  lemma GreetingSettles(w: World, s: nat)
    requires Shape(w) && w.queue == [] && s < |w.sats|
    ensures var r := Drain(Enqueue(w, WireUp(s)));
            Shape(r.w) && !r.raised && Established(r.w, s) && Negotiates(w, s, r)
  {
    GreetingQueued(w, s);
    if w.sats[s].cipher.None? {
      GreetingAnswered(Attach(w, s), s, |w.conns|);
    } else {
      GreetingRejected(Attach(w, s), s, |w.conns|);
    }
  }

  // With the handshake event set, no second handshake is started.
  lemma NoSecondHandshake(r: Res, s: nat)
    requires Shape(r.w) && !r.raised && Established(r.w, s)
    ensures StartUnlessSet(r, s) == r
  {
  }

  lemma ConnectUnfolds(w: World, s: nat)
    requires Shape(w)
    ensures Shape(Drain(Enqueue(w, WireUp(s))).w)
    ensures Top(w, Connect(s)) == StartUnlessSet(Drain(Enqueue(w, WireUp(s))), s)
  {
    EnqueueIsSound(w, WireUp(s));
    DrainKeepsShape(Enqueue(w, WireUp(s)));
  }

  lemma ConnectReturns(w: World, s: nat, r: Res)
    requires Shape(w) && Drain(Enqueue(w, WireUp(s))) == r && !r.raised && Established(r.w, s)
    ensures Top(w, Connect(s)) == r
  {
    ConnectUnfolds(w, s);
    NoSecondHandshake(r, s);
  }

  /** `connect` called on an idle harness returns normally, and it leaves a negotiated session
      exactly when the satellite held no transport before the call. Otherwise the handshake
      event of the old session makes it return with the new connection never opened, so a
      satellite must be closed before it is connected again. */
  lemma ConnectNegotiatesIffForgotten(w: World, s: nat)
    requires Shape(w) && w.queue == [] && s < |w.sats|
    ensures Negotiates(w, s, Top(w, Connect(s)))
  {
    GreetingSettles(w, s);
    ConnectReturns(w, s, Drain(Enqueue(w, WireUp(s))));
  }

  /** A close first always helps: from any idle state, close and connect give a fresh session. */
  lemma CloseThenConnect(w: World, s: nat, path: Lifecycle.ClosePath)
    requires Shape(w) && w.queue == [] && s < |w.sats|
    ensures var w1 := Top(w, Close(s, path)).w;
            && Shape(w1) && s < |w1.sats| && |w1.conns| == |w.conns| && w1.sats[s].cipher.None?
            && Negotiates(w1, s, Top(w1, Connect(s)))
  {
    var w1 := CloseSat(w, s);
    CloseKeepsShape(w, s);
    assert Top(w, Close(s, path)).w == w1 && w1.queue == [] && w1.sats[s].cipher.None?;
    ConnectNegotiatesIffForgotten(w1, s);
  }

  // What a handler leaves that sends one frame and then closes its satellite.
  lemma SendThenClose(w: World, s: nat, k: nat, path: Lifecycle.ClosePath)
    requires Shape(w)
    ensures Exec(w, [Direct(k, [Part([])]), Close(s, path)]) == Res(CloseSat(Put(w, k, Plain([])), s), false)
    ensures Shape(CloseSat(Put(w, k, Plain([])), s))
  {
    var cmds, part := [Direct(k, [Part([])]), Close(s, path)], Part([]);
    var w1 := Put(w, k, Plain([]));
    assert [part][1..] == [];
    assert PutParts(w, k, [part]) == w1;
    assert cmds[1..] == [Close(s, path)] && [Close(s, path)][1..] == [];
    assert Exec(w1, [Close(s, path)]) == Res(CloseSat(w1, s), false);
    PutKeepsShape(w, k, Plain([]));
    CloseKeepsShape(w1, s);
  }

  /** "No close inside" is needed: a handler that sends a frame and then closes the satellite
      makes the frame arrive with no transport to borrow, and it fails to decode. */
  lemma CloseOvertakesFrame(w: World, s: nat, k: nat, path: Lifecycle.ClosePath)
    requires Shape(w) && w.queue == [] && Open(w, k) && w.conns[k].sat == s && w.conns[k].noise.Some?
    ensures var r := Top(w, OnBus(Prog([Direct(k, [Part([])]), Close(s, path)])));
            && !r.raised && s < |r.w.sats| && |r.w.sats[s].ins| == |w.sats[s].ins| + 1
            && var last := r.w.sats[s].ins[|w.sats[s].ins|];
               !last.live && last.frame.via == k && !Decodes(last.borrowed, last.frame.seal)
  {
    IdleEmit(w, Prog([Direct(k, [Part([])]), Close(s, path)]));
    SendThenClose(w, s, k, path);
    ClosedFrameIsLost(w, CloseSat(Put(w, k, Plain([])), s), s, k);
  }

  lemma ClosedFrameIsLost(w: World, w2: World, s: nat, k: nat)
    requires w.queue == [] && Open(w, k) && w.conns[k].sat == s && w.conns[k].noise.Some?
    requires w2 == CloseSat(Put(w, k, Plain([])), s) && Shape(w2)
    ensures var r := Drain(w2);
            && !r.raised && s < |r.w.sats| && |r.w.sats[s].ins| == |w.sats[s].ins| + 1
            && var last := r.w.sats[s].ins[|w.sats[s].ins|];
               !last.live && last.frame.via == k && !Decodes(last.borrowed, last.frame.seal)
  {
    PutChanges(w, k, Plain([]));
    var f := FrameOf(w, k, Plain([]));
    assert w2.queue == [Arrive(f)];
    DrainStep(w2);
    assert Perform(Pop(w2), Arrive(f)) == Res(Record(Pop(w2), f), false);
    assert Record(Pop(w2), f).queue == [];
  }

  // ----- fan-out -----

  // How many frames of connection k are queued.
  function QueuedVia(w: World, k: nat): nat
  {
    |Collect(w.queue, FrameVia(k))|
  }

  // What the queued frames of connection k carry, and what one message is for the peer on it.
  function PayloadVia(k: nat): Task -> seq<Payload>
  {
    (t: Task) => if t.Arrive? && t.frame.via == k then [t.frame.payload] else []
  }

  function Said(parts: seq<Part>, k: nat): seq<Payload>
  {
    seq(|parts|, i requires 0 <= i < |parts| => Plain(React(parts[i], k)))
  }

  // What is queued for connection c in w' is what was in w and, if c is reached, the message: each
  // part once, in order.
  predicate Hears(w: World, w': World, parts: seq<Part>, c: nat, reached: bool)
  {
    && QueuedVia(w', c) == QueuedVia(w, c) + (if reached then |parts| else 0)
    && Collect(w'.queue, PayloadVia(c)) == Collect(w.queue, PayloadVia(c)) + if reached then Said(parts, c) else []
  }

  predicate Reachable(w: World, k: nat)
  {
    Wired(w, k) && w.sats[w.conns[k].sat].current.Some?
  }

  // Only connection counters, send records and the queue's tail differ.
  predicate OnlyQueued(w: World, w': World)
  {
    && w'.clients == w.clients && w'.injected == w.injected
    && |w'.conns| == |w.conns| && |w'.sats| == |w.sats|
    && w.queue <= w'.queue
    && (forall i :: |w.queue| <= i < |w'.queue| ==> w'.queue[i].Arrive?)
    && (forall k :: 0 <= k < |w.conns| ==> w'.conns[k].sat == w.conns[k].sat)
    && (forall s :: 0 <= s < |w.sats| ==> w'.sats[s].current == w.sats[s].current)
  }

  lemma PutReaches(w: World, k: nat, p: Payload, c: nat)
    ensures OnlyQueued(w, Put(w, k, p))
    ensures QueuedVia(Put(w, k, p), c) == QueuedVia(w, c) + if c == k && Reachable(w, k) then 1 else 0
    ensures Collect(Put(w, k, p).queue, PayloadVia(c))
            == Collect(w.queue, PayloadVia(c)) + if c == k && Reachable(w, k) then [p] else []
    ensures Reachable(Put(w, k, p), c) == Reachable(w, c)
  {
    if Wired(w, k) {
      CollectPush(w.queue, Arrive(FrameOf(w, k, p)), FrameVia(c));
      CollectPush(w.queue, Arrive(FrameOf(w, k, p)), PayloadVia(c));
    }
  }

  lemma SaidFirst(parts: seq<Part>, k: nat, before: seq<Payload>)
    requires parts != []
    ensures before + [Plain(React(parts[0], k))] + Said(parts[1..], k) == before + Said(parts, k)
  {
  }

  lemma {:induction false} PutPartsReaches(w: World, k: nat, parts: seq<Part>, c: nat)
    ensures OnlyQueued(w, PutParts(w, k, parts))
    ensures Hears(w, PutParts(w, k, parts), parts, c, c == k && Reachable(w, k))
    ensures Reachable(PutParts(w, k, parts), c) == Reachable(w, c)
    decreases parts
  {
    if parts != [] {
      var p := Plain(React(parts[0], k));
      PutReaches(w, k, p, c);
      PutReaches(w, k, p, k);
      PutPartsReaches(Put(w, k, p), k, parts[1..], c);
      SaidFirst(parts, k, Collect(w.queue, PayloadVia(c)));
    }
  }

  lemma HearsNothing(w: World, parts: seq<Part>, c: nat)
    ensures Hears(w, w, parts, c, false)
  {
  }

  // One of two lists of recipients reaches c, or neither does.
  lemma HearsOnce(w: World, w1: World, w2: World, parts: seq<Part>, c: nat, first: bool, second: bool)
    requires Hears(w, w1, parts, c, first) && Hears(w1, w2, parts, c, second) && !(first && second)
    ensures Hears(w, w2, parts, c, first || second)
  {
  }

  /** A fan-out inside a drain leaves the client table as it was, runs nothing, and enqueues the
      frames of the message once and in order for each listed connection that is up, and for no
      other. */
  lemma {:induction false} FanOutReachesEach(w: World, ks: seq<nat>, parts: seq<Part>, c: nat)
    requires Distinct(ks)
    ensures OnlyQueued(w, FanOut(w, ks, parts))
    ensures Hears(w, FanOut(w, ks, parts), parts, c, c in ks && Reachable(w, c))
    ensures Reachable(FanOut(w, ks, parts), c) == Reachable(w, c)
    decreases ks
  {
    if ks == [] {
      HearsNothing(w, parts, c);
    } else {
      var w1 := PutParts(w, ks[0], parts);
      PutPartsReaches(w, ks[0], parts, c);
      assert Distinct(ks[1..]);
      FanOutReachesEach(w1, ks[1..], parts, c);
      assert c in ks <==> c == ks[0] || c in ks[1..];
      assert ks[0] !in ks[1..];
      HearsOnce(w, w1, FanOut(w, ks, parts), parts, c, c == ks[0] && Reachable(w, c), c in ks[1..] && Reachable(w, c));
    }
  }

  // Who a downstream request is for.
  predicate Addressee(w: World, cmd: Cmd, c: nat)
    requires cmd.Downstream? || cmd.Addressed?
  {
    match cmd
    case Downstream(kind, peer, _, _) =>
      c in w.clients && (kind.FanOutKind? || (kind.TargetedKind? && peer == Some(c)))
    case Addressed(destination, _) => c in w.clients && c in destination
  }

  predicate FindsItsPeer(w: World, cmd: Cmd)
  {
    cmd.Downstream? && cmd.kind.TargetedKind? && cmd.peer.Some? ==> cmd.peer.value in w.clients
  }

  /** The agent's downstream routing, run inside a drain: PROPAGATE and BROADCAST reach every
      connected peer, a targeted request its peer alone, ESCALATE nobody, and a bus message the
      connected peers its destination names, once each however often it names them. */
  lemma DownstreamReachesItsAddressees(w: World, cmd: Cmd, c: nat)
    requires Shape(w) && (cmd.Downstream? || cmd.Addressed?) && FindsItsPeer(w, cmd)
    ensures !Step(w, cmd).raised && OnlyQueued(w, Step(w, cmd).w)
    ensures Hears(w, Step(w, cmd).w, cmd.parts, c, Addressee(w, cmd, c) && Reachable(w, c))
  {
    match cmd
    case Downstream(kind, peer, parts, _) =>
      if kind.FanOutKind? {
        FanOutReachesEach(w, w.clients, parts, c);
      } else if kind.TargetedKind? && peer.Some? {
        PutPartsReaches(w, peer.value, parts, c);
      } else {
        HearsNothing(w, parts, c);
      }
    case Addressed(destination, parts) =>
      NamedIsSublist(w.clients, destination);
      FanOutReachesEach(w, Named(w.clients, destination), parts, c);
  }

  /** `send_to_all` enqueued inside a drain reaches the peers connected when its turn comes. */
  lemma SendToAllReachesEveryPeer(w: World, parts: seq<Part>, c: nat)
    requires Shape(w)
    ensures var r := Perform(w, Broadcast(parts));
            && !r.raised && OnlyQueued(w, r.w) && Hears(w, r.w, parts, c, c in w.clients && Reachable(w, c))
  {
    FanOutReachesEach(w, w.clients, parts, c);
  }

  /** `send_to_satellite` enqueued inside a drain reaches the one peer it names, if it is still
      connected when its turn comes, and nobody else. */
  lemma SendToOneReachesThatPeer(w: World, k: nat, parts: seq<Part>, c: nat)
    requires Shape(w)
    ensures var r := Perform(w, SendOn(k, parts));
            && !r.raised && OnlyQueued(w, r.w) && Hears(w, r.w, parts, c, c == k && Reachable(w, c))
  {
    PutPartsReaches(w, k, parts, c);
  }
}
