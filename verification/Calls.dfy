/**
 What one call does that is made on an idle harness (hivescope/node.py): whose handlers run, on what
 records, and what leaves the master. The theorems about runs say what all calls keep; these say
 that each of them does its work.
 */
module WireCalls {
  import opened Options
  import opened Lists
  import opened Wire
  import opened WireDrain
  import opened WireSteps
  import opened WireSessions
  import opened WireRuns

  // ----- what has left on a connection -----

  function LeftVia(k: nat): Out -> seq<Payload>
  {
    (o: Out) => if o.frame.via == k then [o.frame.payload] else []
  }

  // What the master's recorder saw leave on connection k, in order.
  function Left(w: World, k: nat): seq<Payload>
    requires Wired(w, k)
  {
    Collect(w.sats[w.conns[k].sat].outs, LeftVia(k))
  }

  lemma PutLeaves(w: World, k: nat, p: Payload, c: nat)
    requires Wired(w, c)
    ensures Wired(Put(w, k, p), c) && Left(Put(w, k, p), c) == Left(w, c) + if c == k then [p] else []
  {
    if Wired(w, k) {
      PutChanges(w, k, p);
      var s := w.conns[k].sat;
      CollectPush(w.sats[s].outs, Out(FrameOf(w, k, p), w.sats[s].current.None?), LeftVia(c));
    }
  }

  lemma {:induction false} PutPartsLeave(w: World, k: nat, parts: seq<Part>)
    requires Wired(w, k)
    ensures Wired(PutParts(w, k, parts), k) && Left(PutParts(w, k, parts), k) == Left(w, k) + Said(parts, k)
    decreases parts
  {
    if parts != [] {
      var p := Plain(React(parts[0], k));
      PutLeaves(w, k, p, k);
      PutPartsLeave(Put(w, k, p), k, parts[1..]);
      SaidFirst(parts, k, Left(w, k));
    }
  }

  // What has left on connection k begins with `before`.
  function LeftFirst(k: nat, before: seq<Payload>): World -> bool
  {
    (w: World) => Wired(w, k) && before <= Left(w, k)
  }

  lemma LeftPut(w: World, c: nat, p: Payload, k: nat, before: seq<Payload>)
    requires LeftFirst(k, before)(w)
    ensures LeftFirst(k, before)(Put(w, c, p))
  {
    PutLeaves(w, c, p, k);
  }

  lemma LeftStays(w: World, w': World, k: nat, before: seq<Payload>)
    requires LeftFirst(k, before)(w) && SameRecords(w, w')
    ensures LeftFirst(k, before)(w')
  {
  }

  lemma LeftMove(w: World, m: Move, k: nat, before: seq<Payload>)
    requires Shape(w) && LeftFirst(k, before)(w) && Enabled(w, m)
    ensures LeftFirst(k, before)(Apply(w, m))
  {
    match m
    case Sending(c, react) => LeftPut(w, c, Plain(react), k, before);
    case Attaching(s) => LeftAttach(w, s, k, before);
    case Answering => LeftAnswered(w, k, before);
    case Decoding => LeftDecoded(w, k, before);
    case Closing(s) => LeftClosed(w, s, k, before);
    case _ => LeftStays(w, Apply(w, m), k, before);
  }

  lemma LeftAttach(w: World, s: nat, k: nat, before: seq<Payload>)
    requires Shape(w) && LeftFirst(k, before)(w) && s < |w.sats|
    ensures LeftFirst(k, before)(Attach(w, s))
  {
    AttachedKeepsShape(w, s);
    LeftStays(w, Attached(w, s), k, before);
    LeftPut(Attached(w, s), |w.conns|, Hello, k, before);
    LeftPut(Put(Attached(w, s), |w.conns|, Hello), |w.conns|, Offer, k, before);
  }

  lemma LeftAnswered(w: World, k: nat, before: seq<Payload>)
    requires Shape(w) && LeftFirst(k, before)(w) && Enabled(w, Answering)
    ensures LeftFirst(k, before)(Apply(w, Answering))
  {
    PopIsSound(w);
    LeftStays(w, Pop(w), k, before);
    LeftPut(Pop(w), w.queue[0].attempt, Reply, k, before);
    AnswerChanges(Pop(w), w.queue[0].attempt);
    LeftStays(Put(Pop(w), w.queue[0].attempt, Reply), Apply(w, Answering), k, before);
  }

  lemma LeftClosed(w: World, s: nat, k: nat, before: seq<Payload>)
    requires LeftFirst(k, before)(w)
    ensures LeftFirst(k, before)(CloseSat(w, s))
  {
  }

  lemma LeftDecoded(w: World, k: nat, before: seq<Payload>)
    requires LeftFirst(k, before)(w) && Enabled(w, Decoding)
    ensures LeftFirst(k, before)(Apply(w, Decoding))
  {
    DecodedChanges(Pop(w), w.queue[0].frame);
  }

  // A drain takes back nothing that has left.
  lemma DrainTakesNothingBack(w: World, k: nat, before: seq<Payload>)
    requires Shape(w) && LeftFirst(k, before)(w)
    ensures LeftFirst(k, before)(Drain(w).w)
  {
    assert Kept(LeftFirst(k, before), None) by {
      forall w, m | Shape(w) && LeftFirst(k, before)(w) && Enabled(w, m) && SparesMove(m, None)
        ensures LeftFirst(k, before)(Apply(w, m))
      {
        LeftMove(w, m, k, before);
      }
    }
    FreelyGood(w, LeftFirst(k, before));
    DrainGoes(w, LeftFirst(k, before), None);
  }

  // ----- downstream -----

  lemma OnePop(w: World, t: Task)
    requires Shape(w) && w.queue == [] && Shape(Enqueue(w, t))
    ensures Shape(Perform(w, t).w)
    ensures Drain(Enqueue(w, t)) == var r := Perform(w, t); if r.raised then r else Drain(r.w)
  {
    var w0 := Enqueue(w, t);
    assert w0.queue == [t] && Pop(w0) == w;
    DrainStep(w0);
  }

  lemma ToSatelliteDrains(w: World, k: nat, parts: seq<Part>)
    requires Shape(w) && w.queue == [] && k in w.clients
    ensures Shape(PutParts(w, k, parts)) && Top(w, ToSatellite(k, parts)) == Drain(PutParts(w, k, parts))
  {
    EnqueueIsSound(w, SendOn(k, parts));
    OnePop(w, SendOn(k, parts));
    PutPartsKeepsShape(w, k, parts);
  }

  // What was sent before a drain has left after it.
  lemma SentHasLeft(w: World, k: nat, parts: seq<Part>)
    requires Shape(PutParts(w, k, parts)) && Wired(w, k)
    ensures var r := Drain(PutParts(w, k, parts)); Wired(r.w, k) && Left(w, k) + Said(parts, k) <= Left(r.w, k)
  {
    PutPartsLeave(w, k, parts);
    DrainTakesNothingBack(PutParts(w, k, parts), k, Left(w, k) + Said(parts, k));
  }

  /** `send_to_satellite` on an idle harness: an unknown peer makes it raise and nothing else happens;
      otherwise the frames of the message leave on that connection, in order, and are all there is in
      the queue when the drain starts, the frames to nobody else. */
  lemma SendToOneOnIdle(w: World, k: nat, parts: seq<Part>, c: nat)
    requires Shape(w) && w.queue == []
    ensures k !in w.clients ==> Top(w, ToSatellite(k, parts)) == Res(w, true)
    ensures k in w.clients ==>
              exists w1 :: Shape(w1) && Top(w, ToSatellite(k, parts)) == Drain(w1) && OnlyQueued(w, w1)
                           && Hears(w, w1, parts, c, c == k && Reachable(w, c))
    ensures k in w.clients ==>
              var r := Top(w, ToSatellite(k, parts));
              Wired(w, k) && Wired(r.w, k) && Left(w, k) + Said(parts, k) <= Left(r.w, k)
  {
    if k in w.clients {
      ToSatelliteDrains(w, k, parts);
      PutPartsReaches(w, k, parts, c);
      SentHasLeft(w, k, parts);
    }
  }

  /** A connection's own send outside any drain: its frames leave on that connection, in order, and are all
      there is in the queue when the drain that follows it starts. */
  lemma DirectOnIdle(w: World, k: nat, parts: seq<Part>, c: nat)
    requires Shape(w) && w.queue == []
    ensures exists w1 :: Shape(w1) && Top(w, Direct(k, parts)) == Drain(w1) && OnlyQueued(w, w1)
                         && Hears(w, w1, parts, c, c == k && Reachable(w, c))
    ensures Wired(w, k) ==>
              var r := Top(w, Direct(k, parts)); Wired(r.w, k) && Left(w, k) + Said(parts, k) <= Left(r.w, k)
  {
    RootedIsADrain(w, k, parts);
    PutPartsReaches(w, k, parts, c);
    if Wired(w, k) {
      SentHasLeft(w, k, parts);
    }
  }

  lemma RootedIsADrain(w: World, k: nat, parts: seq<Part>)
    requires Shape(w)
    ensures Shape(PutParts(w, k, parts)) && Top(w, Direct(k, parts)) == Drain(PutParts(w, k, parts))
  {
    PutPartsKeepsShape(w, k, parts);
  }

  /** The agent's targeted requests outside any drain: one for a listed peer is that peer's connection's
      send, and ESCALATE, or a request that names no peer, does nothing. */
  lemma TargetedRequestUnrooted(w: World, cmd: Cmd)
    requires Shape(w) && cmd.Downstream? && !cmd.kind.FanOutKind?
    ensures cmd.kind.EscalateKind? || cmd.peer.None? ==> Top(w, cmd) == Res(w, false)
    ensures cmd.kind.TargetedKind? && cmd.peer.Some? && cmd.peer.value in w.clients ==>
              Top(w, cmd) == Top(w, Direct(cmd.peer.value, cmd.parts))
  {
  }

  /** `send_to_all` on an idle harness: the frames of the message for every connected peer, in order and
      once each, are all there is in the queue when the drain starts. */
  lemma SendToAllOnIdle(w: World, parts: seq<Part>, c: nat)
    requires Shape(w) && w.queue == []
    ensures exists w1 :: Shape(w1) && Top(w, ToAll(parts)) == Drain(w1) && OnlyQueued(w, w1)
                         && Hears(w, w1, parts, c, c in w.clients && Reachable(w, c))
  {
    EnqueueIsSound(w, Broadcast(parts));
    OnePop(w, Broadcast(parts));
    FanOutKeepsShape(w, w.clients, parts);
    SendToAllReachesEveryPeer(w, parts, c);
  }

  /** A targeted request for a peer that is not listed: nothing of its message is sent, whatever that
      is, and the error emit's handlers run instead, inside a drain... */
  lemma UnknownPeerGetsTheError(w: World, peer: nat, parts: seq<Part>, onError: Prog)
    requires peer !in w.clients
    ensures Step(w, Downstream(TargetedKind, Some(peer), parts, onError)) == Exec(w, onError.cmds)
    ensures onError.cmds == [] ==> Step(w, Downstream(TargetedKind, Some(peer), parts, onError)) == Res(w, false)
  {
  }

  /** ... and outside one. */
  lemma UnknownPeerGetsTheErrorUnrooted(w: World, peer: nat, parts: seq<Part>, onError: Prog)
    requires Shape(w) && peer !in w.clients
    ensures Top(w, Downstream(TargetedKind, Some(peer), parts, onError)) == TopExec(w, onError.cmds)
    ensures onError.cmds == [] ==> Top(w, Downstream(TargetedKind, Some(peer), parts, onError)) == Res(w, false)
  {
  }

  // No call of the list raises.
  predicate Quiet(w: World, calls: seq<Cmd>)
    requires Shape(w)
  {
    calls == [] || (Quiet(w, Init(calls)) && !Top(Onward(w, Init(calls)), Last(calls)).raised)
  }

  lemma {:induction false} TopExecConcat(w: World, a: seq<Cmd>, b: seq<Cmd>)
    requires Shape(w)
    ensures TopExec(w, a + b) == var r := TopExec(w, a); if r.raised then r else TopExec(r.w, b)
    decreases a
  {
    if a == [] {
      assert a + b == b;
    } else {
      assert (a + b)[1..] == a[1..] + b;
      TopExecConcat(Top(w, a[0]).w, a[1..], b);
    }
  }

  lemma TopExecOne(w: World, c: Cmd)
    requires Shape(w)
    ensures TopExec(w, [c]) == Top(w, c)
  {
    assert [c][1..] == [];
    assert TopExec(w, [c]) == var r := Top(w, c); if r.raised then r else TopExec(r.w, []);
  }

  /** A handler that runs outside any drain is the list of its commands as calls, if none raises; */
  lemma {:induction false} QuietHandler(w: World, cmds: seq<Cmd>)
    requires Shape(w) && Quiet(w, cmds)
    ensures TopExec(w, cmds) == Res(Onward(w, cmds), false)
    decreases |cmds|
  {
    if cmds != [] {
      QuietHandler(w, Init(cmds));
      assert cmds == Init(cmds) + [Last(cmds)];
      TopExecConcat(w, Init(cmds), [Last(cmds)]);
      TopExecOne(Onward(w, Init(cmds)), Last(cmds));
    }
  }

  /** otherwise it is the calls up to the first that raises, and ends as that one does. */
  lemma RaisingHandler(w: World, a: seq<Cmd>, c: Cmd, b: seq<Cmd>)
    requires Shape(w) && Quiet(w, a) && Top(Onward(w, a), c).raised
    ensures TopExec(w, a + ([c] + b)) == Top(Onward(w, a), c)
  {
    QuietHandler(w, a);
    TopExecConcat(w, a, [c] + b);
    TopExecConcat(Onward(w, a), [c], b);
    TopExecOne(Onward(w, a), c);
  }

  // One of the two is the case.
  lemma {:induction false} FirstRaise(w: World, cmds: seq<Cmd>) returns (n: nat)
    requires Shape(w) && !Quiet(w, cmds)
    ensures n < |cmds| && Quiet(w, cmds[..n]) && Top(Onward(w, cmds[..n]), cmds[n]).raised
    decreases |cmds|
  {
    if Quiet(w, Init(cmds)) {
      n := |cmds| - 1;
    } else {
      n := FirstRaise(w, Init(cmds));
      assert Init(cmds)[..n] == cmds[..n];
    }
  }

  // ----- upstream -----

  // The records once satellite s has sent m and the master has taken it.
  function Taken(w: World, s: nat, m: Message): World
    requires Connected(w, s)
  {
    var sat := w.sats[s];
    w.(sats := w.sats[s := sat.(lastMark := m.mark, sent := sat.sent + [m])],
       arrivals := w.arrivals + [Arrival(s, sat.current, m, |sat.life|, |sat.life|)],
       injected := w.injected + if m.admitted then [Injected(s, sat.current.value, m.msgType, m.mark)] else [])
  }

  lemma TakenIsReceived(w: World, s: nat, m: Message, body: Prog)
    requires Connected(w, s) && w.queue == []
    ensures var w1 := SendUp(w, s, m, body);
            w1.queue == [Handle(s, m, |w.sats[s].life|, body)]
            && Receive(Pop(w1), s, w.sats[s].current.value, m, |w.sats[s].life|) == Taken(w, s, m)
  {
  }

  /** A satellite's `send` on an idle harness: without a connection it raises and nothing else happens.
      Otherwise the message is recorded as sent and as taken, and is on the bus if it is admitted;
      then the master's handlers of it run, and then what they set off. */
  lemma SatelliteSendOnIdle(w: World, s: nat, gap: nat, msgType: string, admitted: bool, body: Prog)
    requires Shape(w) && w.queue == []
    ensures !Connected(w, s) ==> Top(w, FromSatellite(s, gap, msgType, admitted, body)) == Res(w, true)
    ensures Connected(w, s) ==>
              var w1 := Taken(w, s, Message(w.sats[s].lastMark + 1 + gap, msgType, admitted));
              var r := Exec(w1, body.cmds);
              && Shape(r.w)
              && Top(w, FromSatellite(s, gap, msgType, admitted, body)) == if r.raised then r else Drain(r.w)
  {
    if Connected(w, s) {
      var m := Message(w.sats[s].lastMark + 1 + gap, msgType, admitted);
      var w1 := SendUp(w, s, m, body);
      SendUpIsSound(w, s, m, body);
      TakenIsReceived(w, s, m, body);
      assert Shape(Taken(w, s, m));
      ExecIsSound(Taken(w, s, m), body.cmds);
      DrainStep(w1);
    }
  }

  /** So a raise of the master's handlers reaches the sender, with the message taken. */
  lemma HandlersRaiseReachesTheSender(w: World, s: nat, gap: nat, msgType: string, admitted: bool, rest: seq<Cmd>)
    requires Shape(w) && w.queue == [] && Connected(w, s)
    ensures var m := Message(w.sats[s].lastMark + 1 + gap, msgType, admitted);
            Top(w, FromSatellite(s, gap, msgType, admitted, Prog([Raise] + rest))) == Res(Taken(w, s, m), true)
  {
    SatelliteSendOnIdle(w, s, gap, msgType, admitted, Prog([Raise] + rest));
    RaiseEndsIt(Taken(w, s, Message(w.sats[s].lastMark + 1 + gap, msgType, admitted)), rest);
  }

  lemma RaiseEndsIt(w: World, rest: seq<Cmd>)
    ensures Exec(w, [Raise] + rest) == Res(w, true)
  {
    assert ([Raise] + rest)[0] == Raise;
  }

  /** And a reply of theirs leaves on its connection, whatever it sets off. */
  lemma RepliesLeave(w: World, s: nat, gap: nat, msgType: string, admitted: bool, k: nat, parts: seq<Part>)
    requires Shape(w) && w.queue == [] && Connected(w, s) && Wired(w, k)
    ensures var r := Top(w, FromSatellite(s, gap, msgType, admitted, Prog([Direct(k, parts)])));
            Wired(r.w, k) && Left(w, k) + Said(parts, k) <= Left(r.w, k)
  {
    var m := Message(w.sats[s].lastMark + 1 + gap, msgType, admitted);
    var w1 := Taken(w, s, m);
    SatelliteSendOnIdle(w, s, gap, msgType, admitted, Prog([Direct(k, parts)]));
    assert [Direct(k, parts)][1..] == [];
    assert Exec(w1, [Direct(k, parts)]) == Res(PutParts(w1, k, parts), false);
    assert Left(w1, k) == Left(w, k);
    SentHasLeft(w1, k, parts);
  }

  // ----- receiving -----

  /** A frame that does not decode is recorded, and nothing of it runs. */
  lemma DecodeErrorRunsNothing(w: World, f: Frame)
    requires f.sat < |w.sats| && !Decodes(w.sats[f.sat].cipher, f.seal)
    ensures var r, sat := Perform(w, Arrive(f)), w.sats[f.sat];
            && !r.raised && r.w.queue == w.queue && r.w.conns == w.conns && r.w.clients == w.clients
            && |r.w.sats| == |w.sats| && r.w.sats[f.sat] == sat.(ins := r.w.sats[f.sat].ins)
            && |r.w.sats[f.sat].ins| == |sat.ins| + 1 && Last(r.w.sats[f.sat].ins).frame == f
  {
  }

  /** Noise message 2 of another attempt raises and installs nothing; that of this attempt installs its
      session's transport at nonce 0. */
  lemma MessageTwoInstallsIffAsked(w: World, f: Frame)
    requires f.sat < |w.sats| && f.payload.Reply? && f.seal.Clear? && w.sats[f.sat].cipher.None?
    ensures var r := Perform(w, Arrive(f));
            && f.sat < |r.w.sats|
            && (r.raised <==> w.sats[f.sat].attempt != Some(f.via))
            && r.w.sats[f.sat].cipher == if r.raised then None else Some(Cipher(f.via, 0))
  {
  }

  /** Without a connection neither Noise message 1 nor its handler can do anything but raise; and message
      1 for another connection, or for one that has its transport, changes nothing. */
  lemma MessageOneNeedsItsConnection(w: World, s: nat, attempt: nat)
    requires s < |w.sats|
    ensures w.sats[s].current.None? ==>
              Perform(w, StartHandshake(s)) == Res(w, true) && Perform(w, Shake(s, attempt)) == Res(w, true)
    ensures w.sats[s].current.Some? && !Answers(w, s, attempt) ==> Perform(w, Shake(s, attempt)) == Res(w, false)
  {
  }

  // ----- connecting -----

  /** `connect` returns normally only if the satellite holds a transport, whatever was queued before. */
  lemma ConnectReturnsOnlyEstablished(w: World, s: nat)
    requires Shape(w)
    ensures !Top(w, Connect(s)).raised ==> Established(Top(w, Connect(s)).w, s)
  {
    ConnectUnfolds(w, s);
  }

  // The satellite's own message 1, and the handshake it leads to.
  lemma AskedHandshake(w: World, s: nat, k: nat)
    requires Handshaking(w, s, k, [StartHandshake(s)])
    ensures var r := Drain(w);
            && !r.raised && Shape(r.w) && r.w.queue == [] && SameTables(w, r.w, k)
            && r.w.conns[k].noise == Some(0) && r.w.conns[k].sat == s
            && r.w.sats[s].cipher == Some(Cipher(k, 0)) && r.w.sats[s].current == Some(k)
  {
    DrainStep(w);
    assert Pop(w).queue == [];
    var w1 := Ask(Pop(w), s).w;
    assert Perform(Pop(w), w.queue[0]) == Res(w1, false);
    assert Handshaking(w1, s, k, [Shake(s, k)]) && w1.sats[s].attempt == Some(k);
    ShakeCompletes(w1, s, k);
  }

  /** The second half of `connect`: on a connection in clear, with no transport and nothing queued, it
      starts the handshake itself, and that completes. */
  lemma ConnectStartsTheHandshake(w: World, s: nat, k: nat)
    requires Handshaking(w, s, k, [])
    ensures var r := StartUnlessSet(Res(w, false), s);
            && !r.raised && r.w.queue == [] && |r.w.conns| == |w.conns| && |r.w.sats| == |w.sats|
            && r.w.conns[k].noise == Some(0) && r.w.sats[s].cipher == Some(Cipher(k, 0))
  {
    var w1 := Enqueue(w, StartHandshake(s));
    EnqueueIsSound(w, StartHandshake(s));
    assert w1.queue == [StartHandshake(s)];
    AskedHandshake(w1, s, k);
  }

  // One more call handled on the way to a session: the satellite's greeting or its own start.
  lemma StartPops(w: World, s: nat, k: nat, q: seq<Task>) returns (w': World)
    requires Handshaking(w, s, k, [StartHandshake(s)] + q)
    ensures Handshaking(w', s, k, q + [Shake(s, k)]) && SameTables(w, w', k) && Drain(w) == Drain(w')
    ensures w'.sats[s].attempt == Some(k)
  {
    DrainStep(w);
    assert w.queue[1..] == q;
    w' := Perform(Pop(w), w.queue[0]).w;
  }

  lemma HelloPops(w: World, s: nat, k: nat, q: seq<Task>) returns (w': World)
    requires Handshaking(w, s, k, [Arrive(Frame(k, k, s, Clear, Hello))] + q)
    ensures Handshaking(w', s, k, q) && SameTables(w, w', k) && Drain(w) == Drain(w')
  {
    DrainStep(w);
    assert w.queue[1..] == q;
    w' := Perform(Pop(w), w.queue[0]).w;
  }

  lemma OfferPops(w: World, s: nat, k: nat, q: seq<Task>) returns (w': World)
    requires Handshaking(w, s, k, [Arrive(Frame(k, k, s, Clear, Offer))] + q)
    ensures Handshaking(w', s, k, q + [Shake(s, k)]) && SameTables(w, w', k) && Drain(w) == Drain(w')
    ensures w'.sats[s].attempt == Some(k)
  {
    DrainStep(w);
    assert w.queue[1..] == q;
    w' := Perform(Pop(w), w.queue[0]).w;
  }

  // Message 1 twice: the second finds the transport installed and changes nothing.
  lemma TwoShakes(w: World, s: nat, k: nat)
    requires Handshaking(w, s, k, [Shake(s, k), Shake(s, k)]) && w.sats[s].attempt == Some(k)
    ensures var r := Drain(w);
            && !r.raised && Shape(r.w) && r.w.queue == [] && SameTables(w, r.w, k)
            && r.w.conns[k].noise == Some(0) && r.w.conns[k].sat == s
            && r.w.sats[s].cipher == Some(Cipher(k, 0)) && r.w.sats[s].current == Some(k)
  {
    var w1 := Answer(Pop(w), k);
    DrainStep(w);
    FirstShake(w, s, k);
    DrainStep(w1);
    assert Perform(Pop(w1), w1.queue[0]) == Res(Pop(w1), false);
    LastReply(Pop(w1), s, k);
  }

  lemma FirstShake(w: World, s: nat, k: nat)
    requires Handshaking(w, s, k, [Shake(s, k), Shake(s, k)]) && w.sats[s].attempt == Some(k)
    ensures var w1 := Answer(Pop(w), k);
            && Perform(Pop(w), w.queue[0]) == Res(w1, false) && SameTables(w, w1, k)
            && w1.queue == [Shake(s, k), Arrive(Frame(k, k, s, Clear, Reply))]
            && w1.conns[k] == Conn(s, Some(0)) && w1.sats[s].cipher.None? && w1.sats[s].current == Some(k)
            && w1.sats[s].attempt == Some(k)
  {
    PopIsSound(w);
    assert Pop(w).queue == [Shake(s, k)];
    AnswerChanges(Pop(w), k);
    PutChanges(Pop(w), k, Reply);
  }

  lemma LastReply(w: World, s: nat, k: nat)
    requires Shape(w) && s < |w.sats| && k < |w.conns| && w.conns[k].sat == s && w.sats[s].cipher.None?
    requires w.sats[s].attempt == Some(k) && w.queue == [Arrive(Frame(k, k, s, Clear, Reply))]
    ensures var r := Drain(w);
            && !r.raised && Shape(r.w) && r.w.queue == [] && SameTables(w, r.w, k) && r.w.conns == w.conns
            && r.w.sats[s].cipher == Some(Cipher(k, 0)) && r.w.sats[s].current == w.sats[s].current
  {
    var reply := Frame(k, k, s, Clear, Reply);
    DrainStep(w);
    var w2 := Record(Pop(w), reply);
    assert Perform(Pop(w), w.queue[0]) == Dispatch(w2, reply);
    assert Dispatch(w2, reply).w.queue == [];
  }

  // Noise message 1 twice, from the satellite's own start and from the offer.
  lemma StartedAndGreeted(w: World, s: nat, k: nat)
    requires var hello, offer := Frame(k, k, s, Clear, Hello), Frame(k, k, s, Clear, Offer);
             Handshaking(w, s, k, [StartHandshake(s), Arrive(hello), Arrive(offer)])
    ensures var r := Drain(w);
            && !r.raised && Shape(r.w) && r.w.queue == [] && SameTables(w, r.w, k)
            && r.w.conns[k].noise == Some(0) && r.w.conns[k].sat == s
            && r.w.sats[s].cipher == Some(Cipher(k, 0)) && r.w.sats[s].current == Some(k)
  {
    var hello, offer := Arrive(Frame(k, k, s, Clear, Hello)), Arrive(Frame(k, k, s, Clear, Offer));
    assert [StartHandshake(s), hello, offer] == [StartHandshake(s)] + [hello, offer];
    var w2 := StartPops(w, s, k, [hello, offer]);
    assert [hello, offer] + [Shake(s, k)] == [hello] + [offer, Shake(s, k)];
    var w3 := HelloPops(w2, s, k, [offer, Shake(s, k)]);
    assert [offer, Shake(s, k)] == [offer] + [Shake(s, k)];
    var w4 := OfferPops(w3, s, k, [Shake(s, k)]);
    assert [Shake(s, k)] + [Shake(s, k)] == [Shake(s, k), Shake(s, k)];
    TwoShakes(w4, s, k);
  }

  // What the drain of a greeting has to leave for a connect to have negotiated.
  lemma NegotiatedBy(w: World, w1: World, s: nat, r: Res)
    requires var k := |w.conns|;
             && s < |w.sats| == |w1.sats| && w.sats[s].cipher.None? && |w1.conns| == k + 1
             && w1.clients == w.clients + [k] && SameTables(w1, r.w, k)
             && !r.raised && r.w.queue == [] && r.w.conns[k].noise == Some(0) && r.w.conns[k].sat == s
             && r.w.sats[s].cipher == Some(Cipher(k, 0)) && r.w.sats[s].current == Some(k)
    ensures Negotiates(w, s, r)
  {
    assert w1.clients[|w.clients|] == |w.conns|;
  }

  lemma AttachedInClear(w: World, s: nat)
    requires Shape(w) && s < |w.sats| && w.sats[s].cipher.None? && w.queue == [StartHandshake(s)]
    ensures var k := |w.conns|;
            Handshaking(Attach(w, s), s, k, [StartHandshake(s), Arrive(Frame(k, k, s, Clear, Hello)),
                                             Arrive(Frame(k, k, s, Clear, Offer))])
  {
    AttachIsSound(w, s);
    AttachQueues(w, s);
  }

  lemma DeferredGreeting(w: World, s: nat)
    requires Shape(w) && s < |w.sats| && w.sats[s].cipher.None? && w.queue == [WireUp(s), StartHandshake(s)]
    ensures var k, w1 := |w.conns|, Attach(Pop(w), s);
            && Handshaking(w1, s, k, [StartHandshake(s), Arrive(Frame(k, k, s, Clear, Hello)),
                                      Arrive(Frame(k, k, s, Clear, Offer))])
            && |w1.conns| == k + 1 && |w1.sats| == |w.sats| && w1.clients == w.clients + [k]
            && Drain(w) == Drain(w1)
  {
    DrainStep(w);
    PopIsSound(w);
    assert Pop(w).queue == [StartHandshake(s)];
    AttachedInClear(Pop(w), s);
    AttachQueues(Pop(w), s);
  }

  // The drain that finds a deferred connect of satellite s.
  lemma DeferredConnect(w: World, s: nat)
    requires Shape(w) && s < |w.sats| && w.sats[s].cipher.None? && w.queue == [WireUp(s), StartHandshake(s)]
    ensures Negotiates(w, s, Drain(w))
  {
    var w1 := Attach(Pop(w), s);
    DeferredGreeting(w, s);
    StartedAndGreeted(w1, s, |w.conns|);
    NegotiatedBy(w, w1, s, Drain(w1));
  }

  lemma AttachQueues(w: World, s: nat)
    requires Shape(w) && s < |w.sats|
    ensures var k, w1 := |w.conns|, Attach(w, s);
            && w1.queue == w.queue + [Arrive(Frame(k, k, s, Clear, Hello)), Arrive(Frame(k, k, s, Clear, Offer))]
            && |w1.sats| == |w.sats| && w1.clients == w.clients + [k]
            && w1.sats[s].current == Some(k) && w1.sats[s].cipher == w.sats[s].cipher
            && |w1.conns| == k + 1 && w1.conns[k] == Conn(s, None)
  {
  }

  lemma ConnectDefers(w: World, s: nat)
    requires Shape(w) && w.queue == [] && s < |w.sats| && w.sats[s].cipher.None?
    ensures var w1 := Enqueue(Enqueue(w, WireUp(s)), StartHandshake(s));
            && Shape(w1) && w1.queue == [WireUp(s), StartHandshake(s)]
            && Top(w, OnBus(Prog([Connect(s)]))) == Res(w1, true)
  {
    IdleEmit(w, Prog([Connect(s)]));
    ExecConnect(w, s);
  }

  lemma ExecConnect(w: World, s: nat)
    ensures var w1 := Enqueue(w, WireUp(s));
            Exec(w, [Connect(s)])
            == if Established(w, s) then Res(w1, false) else Res(Enqueue(w1, StartHandshake(s)), true)
  {
    assert [Connect(s)][1..] == [];
    ConnectQueues(w, s);
  }

  lemma ConnectFindsATransport(w: World, s: nat)
    requires Shape(w) && w.queue == [] && s < |w.sats| && w.sats[s].cipher.Some?
    ensures Shape(Enqueue(w, WireUp(s)))
    ensures Top(w, OnBus(Prog([Connect(s)]))) == Drain(Enqueue(w, WireUp(s)))
  {
    EnqueueIsSound(w, WireUp(s));
    IdleEmit(w, Prog([Connect(s)]));
    ExecConnect(w, s);
  }

  lemma SameConnect(w: World, w1: World, s: nat, r: Res)
    requires s < |w.sats| && w1.conns == w.conns && w1.sats == w.sats && Negotiates(w1, s, r)
    ensures Negotiates(w, s, r)
  {
  }

  /** `connect` called from inside a drain, when no transport is held: its deliveries only enqueue, so it
      raises; but the next drain finds them and completes the session. When a transport is held it
      returns normally, and no session comes of it. */
  lemma ConnectInADrain(w: World, s: nat)
    requires Shape(w) && w.queue == [] && s < |w.sats|
    ensures var r := Top(w, OnBus(Prog([Connect(s)])));
            && (w.sats[s].cipher.None? ==> r.raised && Shape(r.w) && Negotiates(w, s, Drain(r.w)))
            && (w.sats[s].cipher.Some? ==> Negotiates(w, s, r))
  {
    if w.sats[s].cipher.None? {
      var w1 := Enqueue(Enqueue(w, WireUp(s)), StartHandshake(s));
      ConnectDefers(w, s);
      DeferredConnect(w1, s);
      SameConnect(w, w1, s, Drain(w1));
    } else {
      ConnectFindsATransport(w, s);
      GreetingSettles(w, s);
    }
  }
}
