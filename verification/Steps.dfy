/**
 The elementary steps of the in-process wire (hivescope/node.py), and an induction principle: what
 every elementary step keeps, every handler program, every drain and every history keeps. When a
 satellite is `spared`, only programs that never close it are considered.
 */
module WireSteps {
  import opened Options
  import opened Lists
  import opened Wire
  import opened WireDrain

  datatype Move =
    | Sending(conn: nat, react: seq<Cmd>)             // one frame encoded and handed over
    | Queueing(task: Task)                            // an entry point enqueues its work
    | SendingUp(sat: nat, message: Message, body: Prog)
    | Asking(sat: nat)                                // Noise message 1
    | Closing(sat: nat)
    | Attaching(sat: nat)                             // connection stored, greeting sent
    | Popping                                         // an action leaves the queue, its body to follow
    | Losing                                          // ... a message without a connection
    | Receiving                                       // ... a message handled by the master
    | Answering                                       // ... message 1, answered by message 2
    | Decoding                                        // ... a frame, decoded and recorded

  predicate Enabled(w: World, m: Move)
  {
    match m
    case Sending(_, _) => true
    case Queueing(t) => !t.Arrive? && !t.Handle? && !t.Shake?
    case SendingUp(s, message, _) => s < |w.sats| && w.sats[s].current.Some? && message.mark > w.sats[s].lastMark
    case Asking(s) => s < |w.sats| && w.sats[s].current.Some?
    case Closing(_) => true
    case Attaching(s) => s < |w.sats|
    case Popping => w.queue != [] && !w.queue[0].Arrive? && !w.queue[0].Handle?
    case Losing => w.queue != [] && w.queue[0].Handle? && !Connected(w, w.queue[0].sat)
    case Receiving => w.queue != [] && w.queue[0].Handle? && Connected(w, w.queue[0].sat)
    case Answering => w.queue != [] && w.queue[0].Shake? && Answers(w, w.queue[0].sat, w.queue[0].attempt)
    case Decoding => w.queue != [] && w.queue[0].Arrive? && w.queue[0].frame.sat < |w.sats|
  }

  predicate Connected(w: World, s: nat)
  {
    s < |w.sats| && w.sats[s].current.Some?
  }

  // Message 1 of satellite s is for the connection it is on, and that one is still in clear.
  predicate Answers(w: World, s: nat, attempt: nat)
  {
    Connected(w, s) && w.sats[s].current == Some(attempt) && attempt < |w.conns| && w.conns[attempt].noise.None?
  }

  predicate Completes(w: World, f: Frame)
    requires f.sat < |w.sats|
  {
    f.payload.Reply? && Decodes(w.sats[f.sat].cipher, f.seal) && w.sats[f.sat].attempt == Some(f.via)
  }

  function Decoded(w: World, f: Frame): World
    requires f.sat < |w.sats|
  {
    if Completes(w, f) then Install(Record(w, f), f.sat, f.via) else Record(w, f)
  }

  function Apply(w: World, m: Move): World
    requires Enabled(w, m)
  {
    match m
    case Sending(k, react) => Put(w, k, Plain(react))
    case Queueing(t) => Enqueue(w, t)
    case SendingUp(s, message, body) => SendUp(w, s, message, body)
    case Asking(s) => Ask(w, s).w
    case Closing(s) => CloseSat(w, s)
    case Attaching(s) => Attach(w, s)
    case Popping => Pop(w)
    case Losing => Lose(Pop(w), w.queue[0].sat, w.queue[0].message, w.queue[0].sentAt)
    case Receiving =>
      Receive(Pop(w), w.queue[0].sat, w.sats[w.queue[0].sat].current.value, w.queue[0].message, w.queue[0].sentAt)
    case Answering => Answer(Pop(w), w.queue[0].attempt)
    case Decoding => Decoded(Pop(w), w.queue[0].frame)
  }

  // ----- what is so of every command of a program, nested programs included -----

  predicate Everywhere(c: Cmd, ok: Cmd -> bool)
  {
    ok(c) && Inside(c, ok)
  }

  // The programs inside a command.
  predicate Inside(c: Cmd, ok: Cmd -> bool)
    decreases c, 0
  {
    match c
    case Direct(_, parts) => PartsEverywhere(parts, ok)
    case ToSatellite(_, parts) => PartsEverywhere(parts, ok)
    case ToAll(parts) => PartsEverywhere(parts, ok)
    case OnBus(body) => AllEverywhere(body.cmds, ok)
    case Downstream(_, _, parts, onError) => PartsEverywhere(parts, ok) && AllEverywhere(onError.cmds, ok)
    case Addressed(_, parts) => PartsEverywhere(parts, ok)
    case FromSatellite(_, _, _, _, body) => AllEverywhere(body.cmds, ok)
    case _ => true
  }

  predicate AllEverywhere(cmds: seq<Cmd>, ok: Cmd -> bool)
    decreases cmds, 1
  {
    cmds == [] || (ok(cmds[0]) && Inside(cmds[0], ok) && AllEverywhere(cmds[1..], ok))
  }

  predicate PartsEverywhere(parts: seq<Part>, ok: Cmd -> bool)
    decreases parts, 0
  {
    parts == [] || (ReactsEverywhere(parts[0].react, ok) && PartsEverywhere(parts[1..], ok))
  }

  predicate ReactsEverywhere(react: seq<Prog>, ok: Cmd -> bool)
    decreases react, 0
  {
    react == [] || (AllEverywhere(react[0].cmds, ok) && ReactsEverywhere(react[1..], ok))
  }

  predicate TaskEverywhere(t: Task, ok: Cmd -> bool)
  {
    match t
    case Arrive(f) => f.payload.Plain? ==> AllEverywhere(f.payload.react, ok)
    case Handle(_, _, _, body) => AllEverywhere(body.cmds, ok)
    case Body(body) => AllEverywhere(body.cmds, ok)
    case SendOn(_, parts) => PartsEverywhere(parts, ok)
    case Broadcast(parts) => PartsEverywhere(parts, ok)
    case _ => true
  }

  lemma {:induction false} ReactionEverywhere(react: seq<Prog>, k: nat, ok: Cmd -> bool)
    requires ReactsEverywhere(react, ok)
    ensures k < |react| ==> AllEverywhere(react[k].cmds, ok)
    decreases react
  {
    if 0 < k < |react| {
      ReactionEverywhere(react[1..], k - 1, ok);
    }
  }

  // What is so of every command is so everywhere.
  lemma {:induction false} AlwaysEverywhere(c: Cmd, ok: Cmd -> bool)
    requires forall d :: ok(d)
    ensures Everywhere(c, ok)
    decreases c, 0
  {
    match c
    case Direct(_, parts) => PartsAlways(parts, ok);
    case ToSatellite(_, parts) => PartsAlways(parts, ok);
    case ToAll(parts) => PartsAlways(parts, ok);
    case OnBus(body) => AllAlways(body.cmds, ok);
    case Downstream(_, _, parts, onError) => PartsAlways(parts, ok); AllAlways(onError.cmds, ok);
    case Addressed(_, parts) => PartsAlways(parts, ok);
    case FromSatellite(_, _, _, _, body) => AllAlways(body.cmds, ok);
    case _ =>
  }

  lemma {:induction false} AllAlways(cmds: seq<Cmd>, ok: Cmd -> bool)
    requires forall d :: ok(d)
    ensures AllEverywhere(cmds, ok)
    decreases cmds, 1
  {
    if cmds != [] {
      AlwaysEverywhere(cmds[0], ok);
      AllAlways(cmds[1..], ok);
    }
  }

  lemma {:induction false} PartsAlways(parts: seq<Part>, ok: Cmd -> bool)
    requires forall d :: ok(d)
    ensures PartsEverywhere(parts, ok)
    decreases parts, 0
  {
    if parts != [] {
      ReactsAlways(parts[0].react, ok);
      PartsAlways(parts[1..], ok);
    }
  }

  lemma {:induction false} ReactsAlways(react: seq<Prog>, ok: Cmd -> bool)
    requires forall d :: ok(d)
    ensures ReactsEverywhere(react, ok)
    decreases react, 0
  {
    if react != [] {
      AllAlways(react[0].cmds, ok);
      ReactsAlways(react[1..], ok);
    }
  }

  // ----- programs that never close a given satellite -----

  function Sparing(spared: Option<nat>): Cmd -> bool
  {
    (c: Cmd) => c.Close? ==> spared != Some(c.sat)
  }

  predicate Spares(c: Cmd, spared: Option<nat>)
  {
    Everywhere(c, Sparing(spared))
  }

  predicate SparesAll(cmds: seq<Cmd>, spared: Option<nat>)
  {
    AllEverywhere(cmds, Sparing(spared))
  }

  predicate SparesParts(parts: seq<Part>, spared: Option<nat>)
  {
    PartsEverywhere(parts, Sparing(spared))
  }

  predicate SparesTask(t: Task, spared: Option<nat>)
  {
    TaskEverywhere(t, Sparing(spared))
  }

  predicate SparesQueue(q: seq<Task>, spared: Option<nat>)
  {
    forall i :: 0 <= i < |q| ==> SparesTask(q[i], spared)
  }

  predicate SparesMove(m: Move, spared: Option<nat>)
  {
    match m
    case Sending(_, react) => SparesAll(react, spared)
    case Queueing(t) => SparesTask(t, spared)
    case SendingUp(_, _, body) => SparesAll(body.cmds, spared)
    case Closing(s) => spared != Some(s)
    case _ => true
  }

  // ----- the induction principle -----

  // Every elementary step keeps I.
  ghost predicate Kept(I: World -> bool, spared: Option<nat>)
  {
    forall w, m :: Shape(w) && I(w) && Enabled(w, m) && SparesMove(m, spared) ==> I(Apply(w, m))
  }

  ghost predicate Good(w: World, I: World -> bool, spared: Option<nat>)
  {
    Shape(w) && I(w) && SparesQueue(w.queue, spared)
  }

  // One elementary step.
  lemma Moves(w: World, m: Move, I: World -> bool, spared: Option<nat>)
    requires Kept(I, spared) && Good(w, I, spared) && Enabled(w, m) && SparesMove(m, spared)
    requires Shape(Apply(w, m)) && SparesQueue(Apply(w, m).queue, spared)
    ensures Good(Apply(w, m), I, spared)
  {
  }

  lemma SendGoes(w: World, k: nat, react: seq<Cmd>, I: World -> bool, spared: Option<nat>)
    requires Kept(I, spared) && Good(w, I, spared) && SparesAll(react, spared)
    ensures Good(Put(w, k, Plain(react)), I, spared)
  {
    PutKeepsShape(w, k, Plain(react));
    Moves(w, Sending(k, react), I, spared);
  }

  lemma {:induction false} PartsGo(w: World, k: nat, parts: seq<Part>, I: World -> bool, spared: Option<nat>)
    requires Kept(I, spared) && Good(w, I, spared) && SparesParts(parts, spared)
    ensures Good(PutParts(w, k, parts), I, spared)
    decreases parts
  {
    if parts != [] {
      ReactionEverywhere(parts[0].react, k, Sparing(spared));
      SendGoes(w, k, React(parts[0], k), I, spared);
      PartsGo(Put(w, k, Plain(React(parts[0], k))), k, parts[1..], I, spared);
    }
  }

  lemma {:induction false} FanGoes(w: World, ks: seq<nat>, parts: seq<Part>, I: World -> bool, spared: Option<nat>)
    requires Kept(I, spared) && Good(w, I, spared) && SparesParts(parts, spared)
    ensures Good(FanOut(w, ks, parts), I, spared)
    decreases ks
  {
    if ks != [] {
      PartsGo(w, ks[0], parts, I, spared);
      FanGoes(PutParts(w, ks[0], parts), ks[1..], parts, I, spared);
    }
  }

  lemma QueueGoes(w: World, t: Task, I: World -> bool, spared: Option<nat>)
    requires Kept(I, spared) && Good(w, I, spared) && !t.Arrive? && !t.Handle? && !t.Shake? && SparesTask(t, spared)
    ensures Good(Enqueue(w, t), I, spared)
  {
    EnqueueIsSound(w, t);
    Moves(w, Queueing(t), I, spared);
  }

  lemma CloseGoes(w: World, s: nat, I: World -> bool, spared: Option<nat>)
    requires Kept(I, spared) && Good(w, I, spared) && spared != Some(s)
    ensures Good(CloseSat(w, s), I, spared)
  {
    CloseKeepsShape(w, s);
    Moves(w, Closing(s), I, spared);
  }

  lemma SendUpGoes(w: World, s: nat, m: Message, body: Prog, I: World -> bool, spared: Option<nat>)
    requires Kept(I, spared) && Good(w, I, spared) && SparesAll(body.cmds, spared)
    requires Connected(w, s) && m.mark > w.sats[s].lastMark
    ensures Good(SendUp(w, s, m, body), I, spared)
  {
    SendUpIsSound(w, s, m, body);
    Moves(w, SendingUp(s, m, body), I, spared);
  }

  lemma AskGoes(w: World, s: nat, I: World -> bool, spared: Option<nat>)
    requires Kept(I, spared) && Good(w, I, spared) && s < |w.sats|
    ensures Good(Ask(w, s).w, I, spared)
  {
    if w.sats[s].current.Some? {
      AskIsSound(w, s);
      Moves(w, Asking(s), I, spared);
    }
  }

  lemma AttachGoes(w: World, s: nat, I: World -> bool, spared: Option<nat>)
    requires Kept(I, spared) && Good(w, I, spared) && s < |w.sats|
    ensures Good(Attach(w, s), I, spared)
  {
    AttachIsSound(w, s);
    Moves(w, Attaching(s), I, spared);
  }

  lemma ConnectGoes(w: World, s: nat, I: World -> bool, spared: Option<nat>)
    requires Kept(I, spared) && Good(w, I, spared)
    ensures Good(Step(w, Connect(s)).w, I, spared)
  {
    QueueGoes(w, WireUp(s), I, spared);
    QueueGoes(Enqueue(w, WireUp(s)), StartHandshake(s), I, spared);
  }

  lemma DownstreamGoes(w: World, kind: SendKind, peer: Option<nat>, parts: seq<Part>, onError: Prog,
                       I: World -> bool, spared: Option<nat>)
    requires Kept(I, spared) && Good(w, I, spared) && SparesParts(parts, spared)
    requires Good(Exec(w, onError.cmds).w, I, spared)
    ensures Good(Step(w, Downstream(kind, peer, parts, onError)).w, I, spared)
  {
    if kind.FanOutKind? {
      FanGoes(w, w.clients, parts, I, spared);
    } else if kind.TargetedKind? && peer.Some? && peer.value in w.clients {
      PartsGo(w, peer.value, parts, I, spared);
    }
  }

  lemma FromSatelliteGoes(w: World, s: nat, gap: nat, msgType: string, admitted: bool, body: Prog,
                          I: World -> bool, spared: Option<nat>)
    requires Kept(I, spared) && Good(w, I, spared) && SparesAll(body.cmds, spared)
    ensures Good(Step(w, FromSatellite(s, gap, msgType, admitted, body)).w, I, spared)
  {
    if Connected(w, s) {
      SendUpGoes(w, s, Message(w.sats[s].lastMark + 1 + gap, msgType, admitted), body, I, spared);
    }
  }

  /** Every command of a handler keeps what every elementary step keeps. */
  lemma {:induction false} StepGoes(w: World, c: Cmd, I: World -> bool, spared: Option<nat>)
    requires Kept(I, spared) && Good(w, I, spared) && Spares(c, spared)
    ensures Good(Step(w, c).w, I, spared)
    decreases c
  {
    match c
    case Direct(k, parts) => PartsGo(w, k, parts, I, spared);
    case ToSatellite(k, parts) => QueueGoes(w, SendOn(k, parts), I, spared);
    case ToAll(parts) => QueueGoes(w, Broadcast(parts), I, spared);
    case OnBus(body) => QueueGoes(w, Body(body), I, spared);
    case Downstream(kind, peer, parts, onError) =>
      ExecGoes(w, onError.cmds, I, spared);
      DownstreamGoes(w, kind, peer, parts, onError, I, spared);
    case Addressed(destination, parts) => FanGoes(w, Named(w.clients, destination), parts, I, spared);
    case FromSatellite(s, gap, msgType, admitted, body) =>
      FromSatelliteGoes(w, s, gap, msgType, admitted, body, I, spared);
    case Connect(s) => ConnectGoes(w, s, I, spared);
    case Close(s, _) => CloseGoes(w, s, I, spared);
    case Raise =>
  }

  lemma {:induction false} ExecGoes(w: World, cmds: seq<Cmd>, I: World -> bool, spared: Option<nat>)
    requires Kept(I, spared) && Good(w, I, spared) && SparesAll(cmds, spared)
    ensures Good(Exec(w, cmds).w, I, spared)
    decreases cmds
  {
    if cmds != [] {
      StepGoes(w, cmds[0], I, spared);
      var r := Step(w, cmds[0]);
      if !r.raised {
        ExecGoes(r.w, cmds[1..], I, spared);
      }
    }
  }

  lemma PopGoes(w: World, I: World -> bool, spared: Option<nat>)
    requires Kept(I, spared) && Good(w, I, spared) && w.queue != [] && !w.queue[0].Arrive? && !w.queue[0].Handle?
    ensures Good(Pop(w), I, spared)
  {
    PopIsSound(w);
    Moves(w, Popping, I, spared);
  }

  lemma HandleGoes(w: World, I: World -> bool, spared: Option<nat>)
    requires Kept(I, spared) && Good(w, I, spared) && w.queue != [] && w.queue[0].Handle?
    ensures Good(Perform(Pop(w), w.queue[0]).w, I, spared)
  {
    var t := w.queue[0];
    PopIsSound(w);
    if Connected(w, t.sat) {
      assert Shape(Apply(w, Receiving));
      Moves(w, Receiving, I, spared);
      ExecGoes(Apply(w, Receiving), t.body.cmds, I, spared);
    } else {
      assert Shape(Apply(w, Losing));
      Moves(w, Losing, I, spared);
    }
  }

  lemma ShakeGoes(w: World, I: World -> bool, spared: Option<nat>)
    requires Kept(I, spared) && Good(w, I, spared) && w.queue != [] && w.queue[0].Shake?
    ensures Good(Perform(Pop(w), w.queue[0]).w, I, spared)
  {
    var t := w.queue[0];
    PopIsSound(w);
    if Answers(w, t.sat, t.attempt) {
      ShakeIsSound(Pop(w), t.sat, t.attempt);
      assert Perform(Pop(w), t).w == Apply(w, Answering);
      Moves(w, Answering, I, spared);
    } else {
      PopGoes(w, I, spared);
    }
  }

  lemma DecodedIsSound(w: World, f: Frame)
    requires Shape(w) && f.sat < |w.sats|
    ensures Shape(Decoded(w, f)) && Decoded(w, f).queue == w.queue
  {
    assert Shape(Record(w, f));
  }

  lemma ArriveGoes(w: World, I: World -> bool, spared: Option<nat>)
    requires Kept(I, spared) && Good(w, I, spared) && w.queue != [] && w.queue[0].Arrive?
    ensures Good(Perform(Pop(w), w.queue[0]).w, I, spared)
  {
    var f, w1 := w.queue[0].frame, Pop(w);
    PopIsSound(w);
    DecodedIsSound(w1, f);
    Moves(w, Decoding, I, spared);
    var w2 := Decoded(w1, f);
    assert SparesTask(w.queue[0], spared);
    if Decodes(w.sats[f.sat].cipher, f.seal) {
      match f.payload
      case Hello =>
      case Offer => AskGoes(w2, f.sat, I, spared);
      case Reply =>
      case Plain(react) => ExecGoes(w2, react, I, spared);
    }
  }

  /** So does every action that the pump pops, raised or not. */
  lemma PerformGoes(w: World, I: World -> bool, spared: Option<nat>)
    requires Kept(I, spared) && Good(w, I, spared) && w.queue != []
    ensures Good(Perform(Pop(w), w.queue[0]).w, I, spared)
  {
    var t, w1 := w.queue[0], Pop(w);
    assert SparesTask(t, spared);
    if t.Arrive? {
      ArriveGoes(w, I, spared);
    } else if t.Handle? {
      HandleGoes(w, I, spared);
    } else if t.Shake? {
      ShakeGoes(w, I, spared);
    } else {
      PopGoes(w, I, spared);
      match t
      case StartHandshake(s) =>
        if s < |w.sats| {
          AskGoes(w1, s, I, spared);
        }
      case WireUp(s) =>
        if s < |w.sats| {
          AttachGoes(w1, s, I, spared);
        }
      case Body(body) => ExecGoes(w1, body.cmds, I, spared);
      case SendOn(k, parts) => PartsGo(w1, k, parts, I, spared);
      case Broadcast(parts) => FanGoes(w1, w1.clients, parts, I, spared);
      case _ =>
    }
  }

  lemma {:induction false} DrainGoes(w: World, I: World -> bool, spared: Option<nat>)
    requires Kept(I, spared) && Good(w, I, spared)
    ensures Good(Drain(w).w, I, spared)
    decreases Load(w.queue), |w.queue|
  {
    if w.queue != [] {
      PopIsSound(w);
      PerformIsSound(Pop(w), w.queue[0]);
      PerformGoes(w, I, spared);
      var r := Perform(Pop(w), w.queue[0]);
      if !r.raised {
        DrainGoes(r.w, I, spared);
      }
    }
  }

  lemma RootedGoes(w: World, k: nat, parts: seq<Part>, I: World -> bool, spared: Option<nat>)
    requires Kept(I, spared) && Good(w, I, spared) && SparesParts(parts, spared)
    ensures Good(Rooted(w, k, parts).w, I, spared)
  {
    PartsGo(w, k, parts, I, spared);
    DrainGoes(PutParts(w, k, parts), I, spared);
  }

  lemma {:induction false} LooseGoes(w: World, ks: seq<nat>, parts: seq<Part>, table: seq<nat>,
                                     I: World -> bool, spared: Option<nat>)
    requires Kept(I, spared) && Good(w, I, spared) && SparesParts(parts, spared)
    ensures Good(Loose(w, ks, parts, table).w, I, spared)
    decreases ks
  {
    if ks != [] {
      RootedGoes(w, ks[0], parts, I, spared);
      var r := Rooted(w, ks[0], parts);
      if !r.raised && r.w.clients == table {
        LooseGoes(r.w, ks[1..], parts, table, I, spared);
      }
    }
  }

  lemma ConnectNowGoes(w: World, s: nat, I: World -> bool, spared: Option<nat>)
    requires Kept(I, spared) && Good(w, I, spared)
    ensures Good(ConnectNow(w, s).w, I, spared)
  {
    QueueGoes(w, WireUp(s), I, spared);
    DrainGoes(Enqueue(w, WireUp(s)), I, spared);
    var r := Drain(Enqueue(w, WireUp(s)));
    if !r.raised && !Established(r.w, s) {
      QueueGoes(r.w, StartHandshake(s), I, spared);
      DrainGoes(Enqueue(r.w, StartHandshake(s)), I, spared);
    }
  }

  /** And every call made from outside, inside a drain of its own or unrooted. */
  lemma {:induction false} TopGoes(w: World, c: Cmd, I: World -> bool, spared: Option<nat>)
    requires Kept(I, spared) && Good(w, I, spared) && Spares(c, spared)
    ensures Good(Top(w, c).w, I, spared)
    decreases c, 0
  {
    match c
    case Direct(k, parts) => RootedGoes(w, k, parts, I, spared);
    case Close(s, _) => CloseGoes(w, s, I, spared);
    case Connect(s) => ConnectNowGoes(w, s, I, spared);
    case Downstream(kind, peer, parts, onError) =>
      if kind.FanOutKind? {
        LooseGoes(w, w.clients, parts, w.clients, I, spared);
      } else if kind.EscalateKind? || peer.None? {
      } else if peer.value in w.clients {
        RootedGoes(w, peer.value, parts, I, spared);
      } else {
        TopExecGoes(w, onError.cmds, I, spared);
      }
    case Addressed(destination, parts) => LooseGoes(w, Named(w.clients, destination), parts, w.clients, I, spared);
    case _ =>
      StepGoes(w, c, I, spared);
      var r := Step(w, c);
      if !r.raised {
        DrainGoes(r.w, I, spared);
      }
  }

  lemma {:induction false} TopExecGoes(w: World, cmds: seq<Cmd>, I: World -> bool, spared: Option<nat>)
    requires Kept(I, spared) && Good(w, I, spared) && SparesAll(cmds, spared)
    ensures Good(TopExec(w, cmds).w, I, spared)
    decreases cmds, 0
  {
    if cmds != [] {
      TopGoes(w, cmds[0], I, spared);
      var r := Top(w, cmds[0]);
      if !r.raised {
        TopExecGoes(r.w, cmds[1..], I, spared);
      }
    }
  }

  predicate SparesCalls(calls: seq<Cmd>, spared: Option<nat>)
  {
    forall i :: 0 <= i < |calls| ==> Spares(calls[i], spared)
  }

  /** So does any list of calls, from wherever it starts. */
  lemma {:induction false} OnwardGoes(w: World, calls: seq<Cmd>, I: World -> bool, spared: Option<nat>)
    requires Kept(I, spared) && Good(w, I, spared) && SparesCalls(calls, spared)
    ensures Good(Onward(w, calls), I, spared)
    decreases |calls|
  {
    if calls != [] {
      assert forall i :: 0 <= i < |Init(calls)| ==> Init(calls)[i] == calls[i];
      OnwardGoes(w, Init(calls), I, spared);
      TopGoes(Onward(w, Init(calls)), Last(calls), I, spared);
    }
  }

  /** The induction principle: what every elementary step keeps holds in every history. */
  lemma HistoryGoes(n: nat, calls: seq<Cmd>, I: World -> bool, spared: Option<nat>)
    requires Kept(I, spared) && I(Start(n)) && SparesCalls(calls, spared)
    ensures Good(History(n, calls), I, spared)
  {
    OnwardGoes(Start(n), calls, I, spared);
  }

  // With nobody to spare, a well-formed world in which I holds is good.
  lemma FreelyGood(w: World, I: World -> bool)
    requires Shape(w) && I(w)
    ensures Good(w, I, None)
  {
    forall i | 0 <= i < |w.queue| ensures SparesTask(w.queue[i], None) {
      match w.queue[i]
      case Arrive(f) =>
        if f.payload.Plain? {
          AllAlways(f.payload.react, Sparing(None));
        }
      case Handle(_, _, _, body) => AllAlways(body.cmds, Sparing(None));
      case Body(body) => AllAlways(body.cmds, Sparing(None));
      case SendOn(_, parts) => PartsAlways(parts, Sparing(None));
      case Broadcast(parts) => PartsAlways(parts, Sparing(None));
      case _ =>
    }
  }

  /** With nobody to spare there is nothing to ask of the calls. */
  lemma EveryHistoryGoes(n: nat, calls: seq<Cmd>, I: World -> bool)
    requires Kept(I, None) && I(Start(n))
    ensures I(History(n, calls))
  {
    forall i | 0 <= i < |calls| ensures Spares(calls[i], None) {
      AlwaysEverywhere(calls[i], Sparing(None));
    }
    HistoryGoes(n, calls, I, None);
  }
}
