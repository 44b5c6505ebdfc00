/**
 The way up (hivescope/node.py): what a satellite sends is handled by the master in the order it
 was sent, each message once, and a message is lost if and only if its satellite was closed, and
 not connected again, between its sending and its turn.
 */
module WireUpstream {
  import opened Options
  import opened Lists
  import opened Wire
  import opened WireDrain
  import opened WireSteps
  import opened WireSessions
  import Lifecycle

  // The messages of satellite s that were taken from the queue, and those still in it.
  function TakenFrom(s: nat): Arrival -> seq<Message>
  {
    (a: Arrival) => if a.sat == s then [a.message] else []
  }

  function PendingFrom(s: nat): Task -> seq<Message>
  {
    (t: Task) => if t.Handle? && t.sat == s then [t.message] else []
  }

  // What an arrival puts on the master's bus.
  function OnTheBus(): Arrival -> seq<Injected>
  {
    (a: Arrival) =>
      if a.conn.Some? && a.message.admitted
      then [Injected(a.sat, a.conn.value, a.message.msgType, a.message.mark)] else []
  }

  function MarkOf(): Message -> seq<nat>
  {
    (m: Message) => [m.mark]
  }

  // Everything s sent was taken or is queued, in the order of sending, with increasing marks.
  predicate Delivered(sat: Sat, arrivals: seq<Arrival>, q: seq<Task>, s: nat)
  {
    && sat.sent == Collect(arrivals, TakenFrom(s)) + Collect(q, PendingFrom(s))
    && Marked(sat.sent, sat.lastMark)
  }

  predicate Marked(sent: seq<Message>, lastMark: nat)
  {
    && (forall i, j :: 0 <= i < j < |sent| ==> sent[i].mark < sent[j].mark)
    && (forall i :: 0 <= i < |sent| ==> sent[i].mark <= lastMark)
  }

  predicate Upward(w: World)
  {
    && (forall s :: 0 <= s < |w.sats| ==> Delivered(w.sats[s], w.arrivals, w.queue, s))
    && w.injected == Collect(w.arrivals, OnTheBus())
  }

  // ----- each move -----

  // No satellite's own record changes, nor the master's.
  predicate SameSending(w: World, w': World)
  {
    && w'.arrivals == w.arrivals && w'.injected == w.injected && |w'.sats| == |w.sats|
    && forall s :: 0 <= s < |w.sats| ==> w'.sats[s].sent == w.sats[s].sent && w'.sats[s].lastMark == w.sats[s].lastMark
  }

  lemma UpwardQueued(w: World, w': World, t: Task)
    requires Upward(w) && SameSending(w, w') && !t.Handle? && w'.queue == w.queue + [t]
    ensures Upward(w')
  {
    forall s | 0 <= s < |w'.sats| ensures Delivered(w'.sats[s], w'.arrivals, w'.queue, s) {
      assert Delivered(w.sats[s], w.arrivals, w.queue, s);
      CollectPush(w.queue, t, PendingFrom(s));
    }
  }

  lemma UpwardStays(w: World, w': World)
    requires Upward(w) && SameSending(w, w') && w'.queue == w.queue
    ensures Upward(w')
  {
    forall s | 0 <= s < |w'.sats| ensures Delivered(w'.sats[s], w'.arrivals, w'.queue, s) {
      assert Delivered(w.sats[s], w.arrivals, w.queue, s);
    }
  }

  lemma UpwardPopped(w: World, w': World)
    requires Upward(w) && SameSending(w, w') && w.queue != [] && !w.queue[0].Handle? && w'.queue == w.queue[1..]
    ensures Upward(w')
  {
    forall s | 0 <= s < |w'.sats| ensures Delivered(w'.sats[s], w'.arrivals, w'.queue, s) {
      assert Delivered(w.sats[s], w.arrivals, w.queue, s);
      CollectPop(w.queue, PendingFrom(s));
    }
  }

  lemma UpwardPut(w: World, k: nat, p: Payload)
    requires Upward(w)
    ensures Upward(Put(w, k, p))
  {
    if Wired(w, k) {
      PutChanges(w, k, p);
      var w' := Put(w, k, p);
      if w'.queue == w.queue {
        UpwardStays(w, w');
      } else {
        UpwardQueued(w, w', Arrive(FrameOf(w, k, p)));
      }
    }
  }

  lemma SentLast(sat: Sat, arrivals: seq<Arrival>, q: seq<Task>, s: nat, m: Message, sentAt: nat, body: Prog)
    requires Delivered(sat, arrivals, q, s) && m.mark > sat.lastMark
    ensures Delivered(sat.(lastMark := m.mark, sent := sat.sent + [m]), arrivals, q + [Handle(s, m, sentAt, body)], s)
  {
    CollectPush(q, Handle(s, m, sentAt, body), PendingFrom(s));
    Moved(Collect(arrivals, TakenFrom(s)), Collect(q, PendingFrom(s)), [m]);
  }

  lemma UpwardSent(w: World, s: nat, m: Message, body: Prog)
    requires Upward(w) && s < |w.sats| && m.mark > w.sats[s].lastMark
    ensures Upward(SendUp(w, s, m, body))
  {
    var w' := SendUp(w, s, m, body);
    forall r | 0 <= r < |w'.sats| ensures Delivered(w'.sats[r], w'.arrivals, w'.queue, r) {
      assert Delivered(w.sats[r], w.arrivals, w.queue, r);
      if r == s {
        SentLast(w.sats[s], w.arrivals, w.queue, s, m, Now(w, s), body);
      } else {
        CollectPush(w.queue, Handle(s, m, Now(w, s), body), PendingFrom(r));
      }
    }
  }

  // The oldest queued message is taken.
  lemma TakenFirst(sat: Sat, arrivals: seq<Arrival>, q: seq<Task>, a: Arrival, s: nat)
    requires Delivered(sat, arrivals, q, s) && q != [] && q[0].Handle?
    requires a.sat == q[0].sat && a.message == q[0].message
    ensures Delivered(sat, arrivals + [a], q[1..], s)
  {
    CollectPop(q, PendingFrom(s));
    CollectPush(arrivals, a, TakenFrom(s));
    Moved(Collect(arrivals, TakenFrom(s)), TakenFrom(s)(a), Collect(q[1..], PendingFrom(s)));
  }

  lemma Moved(taken: seq<Message>, next: seq<Message>, rest: seq<Message>)
    ensures taken + next + rest == taken + (next + rest)
  {
  }

  lemma UpwardTaken(w: World, w': World, a: Arrival)
    requires Upward(w) && w.queue != [] && w.queue[0].Handle? && w'.queue == w.queue[1..] && w'.sats == w.sats
    requires a.sat == w.queue[0].sat && a.message == w.queue[0].message
    requires w'.arrivals == w.arrivals + [a] && w'.injected == w.injected + OnTheBus()(a)
    ensures Upward(w')
  {
    CollectPush(w.arrivals, a, OnTheBus());
    forall s | 0 <= s < |w'.sats| ensures Delivered(w'.sats[s], w'.arrivals, w'.queue, s) {
      assert Delivered(w.sats[s], w.arrivals, w.queue, s);
      TakenFirst(w.sats[s], w.arrivals, w.queue, a, s);
    }
  }

  // The arrival that the oldest queued message leaves.
  function TakenNow(w: World): Arrival
    requires w.queue != [] && w.queue[0].Handle?
  {
    var t := w.queue[0];
    Arrival(t.sat, if t.sat < |w.sats| then w.sats[t.sat].current else None, t.message, t.sentAt, Now(w, t.sat))
  }

  lemma UpwardAttach(w: World, s: nat)
    requires Shape(w) && Upward(w) && s < |w.sats|
    ensures Upward(Attach(w, s))
  {
    AttachedKeepsShape(w, s);
    UpwardStays(w, Attached(w, s));
    UpwardPut(Attached(w, s), |w.conns|, Hello);
    UpwardPut(Put(Attached(w, s), |w.conns|, Hello), |w.conns|, Offer);
  }

  lemma UpwardAnswered(w: World)
    requires Shape(w) && Upward(w) && Enabled(w, Answering)
    ensures Upward(Apply(w, Answering))
  {
    var k := w.queue[0].attempt;
    PopIsSound(w);
    UpwardPopped(w, Pop(w));
    AnswerChanges(Pop(w), k);
    UpwardPut(Pop(w), k, Reply);
    UpwardStays(Put(Pop(w), k, Reply), Apply(w, Answering));
  }

  lemma UpwardDecoded(w: World)
    requires Upward(w) && Enabled(w, Decoding)
    ensures Upward(Apply(w, Decoding))
  {
    DecodedChanges(Pop(w), w.queue[0].frame);
    UpwardPopped(w, Apply(w, Decoding));
  }

  lemma UpwardMove(w: World, m: Move)
    requires Shape(w) && Upward(w) && Enabled(w, m)
    ensures Upward(Apply(w, m))
  {
    match m
    case Sending(k, react) => UpwardPut(w, k, Plain(react));
    case Queueing(t) => UpwardQueued(w, Apply(w, m), t);
    case SendingUp(s, message, body) => UpwardSent(w, s, message, body);
    case Asking(s) => UpwardQueued(w, Apply(w, m), Shake(s, w.sats[s].current.value));
    case Closing(s) => UpwardStays(w, Apply(w, m));
    case Attaching(s) => UpwardAttach(w, s);
    case Popping => UpwardPopped(w, Apply(w, m));
    case Losing => UpwardTaken(w, Apply(w, m), TakenNow(w));
    case Receiving => UpwardTaken(w, Apply(w, m), TakenNow(w));
    case Answering => UpwardAnswered(w);
    case Decoding => UpwardDecoded(w);
  }

  lemma UpwardKept()
    ensures Kept(Upward, None)
  {
    forall w, m | Shape(w) && Upward(w) && Enabled(w, m) && SparesMove(m, None) ensures Upward(Apply(w, m)) {
      UpwardMove(w, m);
    }
  }

  lemma UpwardHolds(n: nat, calls: seq<Cmd>)
    ensures Upward(History(n, calls))
  {
    UpwardKept();
    EveryHistoryGoes(n, calls, Upward);
  }

  /** Conservation on the way up, in every run: what a satellite sent is, in the order of sending
      and with increasing marks, what was taken from the queue followed by what is still in it; and
      the master's injections are exactly the admitted ones among those taken on a connection. */
  lemma MessagesAreConserved(n: nat, calls: seq<Cmd>, s: nat)
    requires s < |History(n, calls).sats|
    ensures var w := History(n, calls);
            && Delivered(w.sats[s], w.arrivals, w.queue, s)
            && w.injected == Collect(w.arrivals, OnTheBus())
  {
    UpwardHolds(n, calls);
  }

  // ----- when a message is lost -----

  // A satellite with this log has a connection: one was made, and no close came since.
  predicate Up(life: seq<Life>)
  {
    life != [] && !Last(life).Closed? && (Last(life).Made? || Up(Init(life)))
  }

  // A close among the events from number i on, with no connection made after it before number j.
  predicate ClosedBetween(life: seq<Life>, i: nat, j: nat)
    requires j <= |life|
  {
    exists c :: i <= c < j && life[c] == Closed && forall d :: c < d < j ==> !life[d].Made?
  }

  lemma UpMore(life: seq<Life>, e: Life)
    ensures Up(life + [e]) <==> e.Made? || (e.Installed? && Up(life))
  {
    assert Init(life + [e]) == life;
  }

  lemma {:induction false} DownIffClosedBetween(life: seq<Life>, i: nat, j: nat)
    requires i <= j <= |life| && Up(life[..i])
    ensures !Up(life[..j]) <==> ClosedBetween(life, i, j)
    decreases j
  {
    if i < j {
      DownIffClosedBetween(life, i, j - 1);
      assert life[..j] == life[..j - 1] + [life[j - 1]];
      UpMore(life[..j - 1], life[j - 1]);
      if life[j - 1].Installed? && ClosedBetween(life, i, j - 1) {
        var c :| i <= c < j - 1 && life[c] == Closed && forall d :: c < d < j - 1 ==> !life[d].Made?;
        assert forall d :: c < d < j ==> !life[d].Made?;
      }
    }
  }

  predicate Linked(sat: Sat)
  {
    sat.current.Some? <==> Up(sat.life)
  }

  // Sent while its satellite was connected.
  predicate SentUp(life: seq<Life>, sentAt: nat)
  {
    sentAt <= |life| && Up(life[..sentAt])
  }

  // Taken later, and lost exactly when the satellite was not connected then.
  predicate Judged(life: seq<Life>, a: Arrival)
  {
    SentUp(life, a.sentAt) && a.sentAt <= a.takenAt <= |life| && (a.conn.None? <==> !Up(life[..a.takenAt]))
  }

  predicate Stamped(w: World)
  {
    && (forall s :: 0 <= s < |w.sats| ==> Linked(w.sats[s]))
    && (forall t :: t in w.queue && t.Handle? ==> t.sat < |w.sats| && SentUp(w.sats[t.sat].life, t.sentAt))
    && (forall a :: a in w.arrivals ==> a.sat < |w.sats| && Judged(w.sats[a.sat].life, a))
  }

  // Logs only grow, and nothing is queued for handling that was not.
  predicate GoesOn(w: World, w': World)
  {
    && |w'.sats| == |w.sats|
    && (forall s :: 0 <= s < |w.sats| ==> w.sats[s].life <= w'.sats[s].life && Linked(w'.sats[s]))
    && (forall t :: t in w'.queue && t.Handle? ==> t in w.queue)
  }

  lemma JudgedStill(life: seq<Life>, life': seq<Life>, a: Arrival)
    requires life <= life' && Judged(life, a)
    ensures Judged(life', a)
  {
    assert life'[..a.sentAt] == life[..a.sentAt] && life'[..a.takenAt] == life[..a.takenAt];
  }

  lemma StampedStays(w: World, w': World)
    requires Stamped(w) && GoesOn(w, w') && w'.arrivals == w.arrivals
    ensures Stamped(w')
  {
    forall t | t in w'.queue && t.Handle? ensures t.sat < |w'.sats| && SentUp(w'.sats[t.sat].life, t.sentAt) {
      assert w'.sats[t.sat].life[..t.sentAt] == w.sats[t.sat].life[..t.sentAt];
    }
    forall a | a in w'.arrivals ensures a.sat < |w'.sats| && Judged(w'.sats[a.sat].life, a) {
      JudgedStill(w.sats[a.sat].life, w'.sats[a.sat].life, a);
    }
  }

  lemma StampedPut(w: World, k: nat, p: Payload)
    requires Stamped(w)
    ensures Stamped(Put(w, k, p))
  {
    if Wired(w, k) {
      PutChanges(w, k, p);
      StampedStays(w, Put(w, k, p));
    }
  }

  lemma StampedSent(w: World, s: nat, m: Message, body: Prog)
    requires Stamped(w) && Connected(w, s)
    ensures Stamped(SendUp(w, s, m, body))
  {
    var w' := SendUp(w, s, m, body);
    assert w.sats[s].life[..|w.sats[s].life|] == w.sats[s].life;
    forall t | t in w'.queue && t.Handle? ensures t.sat < |w'.sats| && SentUp(w'.sats[t.sat].life, t.sentAt) {
      assert t in w.queue || t == Handle(s, m, Now(w, s), body);
    }
    forall a | a in w'.arrivals ensures a.sat < |w'.sats| && Judged(w'.sats[a.sat].life, a) {
      assert Judged(w.sats[a.sat].life, a);
    }
  }

  lemma StampedTaken(w: World, w': World)
    requires Stamped(w) && w.queue != [] && w.queue[0].Handle? && w'.queue == w.queue[1..] && w'.sats == w.sats
    requires w'.arrivals == w.arrivals + [TakenNow(w)]
    ensures Stamped(w')
  {
    var t := w.queue[0];
    assert t in w.queue;
    var life := w.sats[t.sat].life;
    assert life[..|life|] == life;
    assert Judged(life, TakenNow(w));
  }

  lemma StampedClosed(w: World, s: nat)
    requires Stamped(w)
    ensures Stamped(CloseSat(w, s))
  {
    StampedStays(w, CloseSat(w, s));
  }

  lemma StampedAttach(w: World, s: nat)
    requires Shape(w) && Stamped(w) && s < |w.sats|
    ensures Stamped(Attach(w, s))
  {
    AttachedKeepsShape(w, s);
    UpMore(w.sats[s].life, Made(|w.conns|));
    StampedStays(w, Attached(w, s));
    StampedPut(Attached(w, s), |w.conns|, Hello);
    StampedPut(Put(Attached(w, s), |w.conns|, Hello), |w.conns|, Offer);
  }

  lemma StampedAnswered(w: World)
    requires Shape(w) && Stamped(w) && Enabled(w, Answering)
    ensures Stamped(Apply(w, Answering))
  {
    var k := w.queue[0].attempt;
    PopIsSound(w);
    StampedStays(w, Pop(w));
    AnswerChanges(Pop(w), k);
    StampedPut(Pop(w), k, Reply);
    StampedStays(Put(Pop(w), k, Reply), Apply(w, Answering));
  }

  lemma StampedDecoded(w: World)
    requires Stamped(w) && Enabled(w, Decoding)
    ensures Stamped(Apply(w, Decoding))
  {
    var f := w.queue[0].frame;
    DecodedChanges(Pop(w), f);
    UpMore(w.sats[f.sat].life, Installed(f.via));
    StampedStays(w, Apply(w, Decoding));
  }

  lemma StampedMove(w: World, m: Move)
    requires Shape(w) && Stamped(w) && Enabled(w, m)
    ensures Stamped(Apply(w, m))
  {
    match m
    case Sending(k, react) => StampedPut(w, k, Plain(react));
    case SendingUp(s, message, body) => StampedSent(w, s, message, body);
    case Closing(s) => StampedClosed(w, s);
    case Attaching(s) => StampedAttach(w, s);
    case Losing => StampedTaken(w, Apply(w, m));
    case Receiving => StampedTaken(w, Apply(w, m));
    case Answering => StampedAnswered(w);
    case Decoding => StampedDecoded(w);
    case _ => StampedStays(w, Apply(w, m));
  }

  lemma StampedKept()
    ensures Kept(Stamped, None)
  {
    forall w, m | Shape(w) && Stamped(w) && Enabled(w, m) && SparesMove(m, None) ensures Stamped(Apply(w, m)) {
      StampedMove(w, m);
    }
  }

  /** Exactly when a message is lost, in every run: its satellite was closed after it was sent, and
      no connection was made again before its turn. */
  lemma LostIffClosedBetween(n: nat, calls: seq<Cmd>, i: nat)
    requires i < |History(n, calls).arrivals|
    ensures var w, a := History(n, calls), History(n, calls).arrivals[i];
            && a.sat < |w.sats| && a.sentAt <= a.takenAt <= |w.sats[a.sat].life|
            && (a.conn.None? <==> ClosedBetween(w.sats[a.sat].life, a.sentAt, a.takenAt))
  {
    StampedKept();
    EveryHistoryGoes(n, calls, Stamped);
    var w := History(n, calls);
    var a := w.arrivals[i];
    assert a in w.arrivals;
    DownIffClosedBetween(w.sats[a.sat].life, a.sentAt, a.takenAt);
  }

  // A handler that lets a satellite send and then closes it.
  lemma SendUpThenClose(w: World, s: nat, gap: nat, msgType: string, admitted: bool, body: Prog,
                        path: Lifecycle.ClosePath)
    requires Shape(w) && Connected(w, s)
    ensures var m := Message(w.sats[s].lastMark + 1 + gap, msgType, admitted);
            && Exec(w, [FromSatellite(s, gap, msgType, admitted, body), Close(s, path)])
               == Res(CloseSat(SendUp(w, s, m, body), s), false)
            && Shape(CloseSat(SendUp(w, s, m, body), s))
  {
    var cmds := [FromSatellite(s, gap, msgType, admitted, body), Close(s, path)];
    var m := Message(w.sats[s].lastMark + 1 + gap, msgType, admitted);
    var w1 := SendUp(w, s, m, body);
    SendUpIsSound(w, s, m, body);
    CloseKeepsShape(w1, s);
    assert Step(w, cmds[0]) == Res(w1, false);
    assert cmds[1..] == [Close(s, path)] && [Close(s, path)][1..] == [];
    assert Exec(w1, [Close(s, path)]) == Res(CloseSat(w1, s), false);
  }

  lemma OvertakenIsLost(w: World, w2: World, s: nat, m: Message, body: Prog)
    requires w.queue == [] && Connected(w, s) && w2 == CloseSat(SendUp(w, s, m, body), s) && Shape(w2)
    ensures var r, life := Drain(w2), w.sats[s].life;
            && r.raised && s < |r.w.sats| && r.w.sats[s].sent == w.sats[s].sent + [m] && r.w.injected == w.injected
            && r.w.arrivals == w.arrivals + [Arrival(s, None, m, |life|, |Ended(life)|)]
  {
    assert w2.queue == [Handle(s, m, Now(w, s), body)];
    DrainStep(w2);
  }

  /** The losing case is reachable from every idle state in which s is connected: a handler that lets
      the satellite send and then closes it. */
  lemma CloseOvertakesMessage(w: World, s: nat, gap: nat, msgType: string, admitted: bool, body: Prog,
                              path: Lifecycle.ClosePath)
    requires Shape(w) && w.queue == [] && Connected(w, s)
    ensures var r := Top(w, OnBus(Prog([FromSatellite(s, gap, msgType, admitted, body), Close(s, path)])));
            var m, life := Message(w.sats[s].lastMark + 1 + gap, msgType, admitted), w.sats[s].life;
            && r.raised && s < |r.w.sats| && r.w.sats[s].sent == w.sats[s].sent + [m]
            && r.w.injected == w.injected
            && r.w.arrivals == w.arrivals + [Arrival(s, None, m, |life|, |Ended(life)|)]
  {
    var m := Message(w.sats[s].lastMark + 1 + gap, msgType, admitted);
    IdleEmit(w, Prog([FromSatellite(s, gap, msgType, admitted, body), Close(s, path)]));
    SendUpThenClose(w, s, gap, msgType, admitted, body, path);
    OvertakenIsLost(w, CloseSat(SendUp(w, s, m, body), s), s, m, body);
  }

  // ----- nothing is lost without a close -----

  // Since w0 no message of s was lost, and none can be; the records only grew.
  predicate SafeSince(w0: World, w: World, s: nat)
  {
    && w0.arrivals <= w.arrivals && w0.injected <= w.injected
    && (s < |w0.sats| ==> s < |w.sats| && w0.sats[s].sent <= w.sats[s].sent)
    && (forall i :: |w0.arrivals| <= i < |w.arrivals| && w.arrivals[i].sat == s ==> w.arrivals[i].conn.Some?)
    && (forall i :: 0 <= i < |w.queue| && w.queue[i].Handle? && w.queue[i].sat == s ==> Connected(w, s))
  }

  lemma SafePut(w0: World, w: World, k: nat, p: Payload, s: nat)
    requires SafeSince(w0, w, s)
    ensures SafeSince(w0, Put(w, k, p), s)
  {
    if Wired(w, k) {
      PutChanges(w, k, p);
    }
  }

  lemma SafeAttach(w0: World, w: World, r: nat, s: nat)
    requires Shape(w) && SafeSince(w0, w, s) && r < |w.sats|
    ensures SafeSince(w0, Attach(w, r), s)
  {
    AttachedKeepsShape(w, r);
    assert SafeSince(w0, Attached(w, r), s);
    SafePut(w0, Attached(w, r), |w.conns|, Hello, s);
    SafePut(w0, Put(Attached(w, r), |w.conns|, Hello), |w.conns|, Offer, s);
  }

  lemma SafeAnswered(w0: World, w: World, s: nat)
    requires Shape(w) && SafeSince(w0, w, s) && Enabled(w, Answering)
    ensures SafeSince(w0, Apply(w, Answering), s)
  {
    PopIsSound(w);
    assert SafeSince(w0, Pop(w), s);
    AnswerChanges(Pop(w), w.queue[0].attempt);
    SafePut(w0, Pop(w), w.queue[0].attempt, Reply, s);
  }

  lemma SafeTaken(w0: World, w: World, w': World, s: nat)
    requires SafeSince(w0, w, s) && w.queue != [] && w.queue[0].Handle? && w'.queue == w.queue[1..]
    requires w'.sats == w.sats && w'.arrivals == w.arrivals + [TakenNow(w)] && w.injected <= w'.injected
    ensures SafeSince(w0, w', s)
  {
  }

  // Records, and what matters of s, are the same, and nothing is queued for handling that was not.
  lemma SafeStays(w0: World, w: World, w': World, s: nat)
    requires SafeSince(w0, w, s) && w'.arrivals == w.arrivals && w'.injected == w.injected
    requires |w'.sats| == |w.sats| && (s < |w.sats| ==> w'.sats[s].sent == w.sats[s].sent)
    requires Connected(w, s) ==> Connected(w', s)
    requires forall t :: t in w'.queue && t.Handle? ==> t in w.queue
    ensures SafeSince(w0, w', s)
  {
    forall i | 0 <= i < |w'.queue| && w'.queue[i].Handle? && w'.queue[i].sat == s ensures Connected(w', s) {
      assert w'.queue[i] in w.queue;
    }
  }

  lemma SafeSent(w0: World, w: World, r: nat, m: Message, body: Prog, s: nat)
    requires SafeSince(w0, w, s) && Connected(w, r)
    ensures SafeSince(w0, SendUp(w, r, m, body), s)
  {
  }

  lemma SafeMove(w0: World, w: World, m: Move, s: nat)
    requires Shape(w) && SafeSince(w0, w, s) && Enabled(w, m) && SparesMove(m, Some(s))
    ensures SafeSince(w0, Apply(w, m), s)
  {
    match m
    case Sending(k, react) => SafePut(w0, w, k, Plain(react), s);
    case SendingUp(r, message, body) => SafeSent(w0, w, r, message, body, s);
    case Attaching(r) => SafeAttach(w0, w, r, s);
    case Losing => SafeTaken(w0, w, Apply(w, m), s);
    case Receiving => SafeTaken(w0, w, Apply(w, m), s);
    case Answering => SafeAnswered(w0, w, s);
    case Decoding =>
      DecodedChanges(Pop(w), w.queue[0].frame);
      SafeStays(w0, w, Apply(w, m), s);
    case _ => SafeStays(w0, w, Apply(w, m), s);
  }

  function SafeFor(w0: World, s: nat): World -> bool
  {
    (w: World) => SafeSince(w0, w, s)
  }

  lemma SafeKept(w0: World, s: nat)
    ensures Kept(SafeFor(w0, s), Some(s))
  {
    forall w, m | Shape(w) && SafeFor(w0, s)(w) && Enabled(w, m) && SparesMove(m, Some(s))
      ensures SafeFor(w0, s)(Apply(w, m))
    {
      SafeMove(w0, w, m, s);
    }
  }

  // Nothing of s is waiting, or s is connected.
  predicate Ready(w: World, s: nat)
  {
    Connected(w, s) || Collect(w.queue, PendingFrom(s)) == []
  }

  lemma {:induction false} NothingPending(q: seq<Task>, s: nat)
    requires Collect(q, PendingFrom(s)) == []
    ensures forall i :: 0 <= i < |q| && q[i].Handle? ==> q[i].sat != s
  {
    if q != [] {
      CollectPop(q, PendingFrom(s));
      NothingPending(q[1..], s);
    }
  }

  /** A message is lost only to a close, from any point of any run, whatever was closed before it:
      when s is connected, or has nothing waiting, and neither what is queued nor any later call
      closes it, nothing of s is taken without a connection, whatever raised. */
  lemma OnlyACloseLoses(n: nat, calls: seq<Cmd>, later: seq<Cmd>, s: nat)
    requires var w := History(n, calls); Ready(w, s) && SparesQueue(w.queue, Some(s))
    requires SparesCalls(later, Some(s))
    ensures SafeSince(History(n, calls), History(n, calls + later), s)
  {
    var w := History(n, calls);
    if !Connected(w, s) {
      NothingPending(w.queue, s);
    }
    SafeKept(w, s);
    assert Good(w, SafeFor(w, s), Some(s));
    OnwardGoes(w, later, SafeFor(w, s), Some(s));
    OnwardConcat(Start(n), calls, later);
  }

  // The injections of satellite s, as it sent them.
  function InjectedFrom(s: nat): Injected -> seq<Message>
  {
    (r: Injected) => if r.sat == s then [Message(r.mark, r.msgType, true)] else []
  }

  function AdmittedOnly(): Message -> seq<Message>
  {
    (m: Message) => if m.admitted then [m] else []
  }

  // What s has on the bus after the arrivals, message by message.
  function BusOf(s: nat): Arrival -> seq<Message>
  {
    (a: Arrival) => if a.sat == s && a.conn.Some? && a.message.admitted then [a.message] else []
  }

  lemma BusIsInjected(arrivals: seq<Arrival>, s: nat)
    ensures Collect(Collect(arrivals, OnTheBus()), InjectedFrom(s)) == Collect(arrivals, BusOf(s))
  {
    forall a | a in arrivals ensures Collect(OnTheBus()(a), InjectedFrom(s)) == BusOf(s)(a) {
      if a.conn.Some? && a.message.admitted {
        var r := Injected(a.sat, a.conn.value, a.message.msgType, a.message.mark);
        assert OnTheBus()(a) == [r] && [r][1..] == [];
        assert InjectedFrom(s)(r) == BusOf(s)(a);
      }
    }
    CollectTwice(arrivals, OnTheBus(), InjectedFrom(s), BusOf(s));
  }

  lemma BusOfTaken(a: Arrival, s: nat)
    requires a.sat == s ==> a.conn.Some?
    ensures Collect(TakenFrom(s)(a), AdmittedOnly()) == BusOf(s)(a)
  {
    if a.sat == s {
      assert TakenFrom(s)(a) == [a.message] && [a.message][1..] == [];
    }
  }

  lemma BusIsAdmitted(arrivals: seq<Arrival>, s: nat)
    requires forall i :: 0 <= i < |arrivals| && arrivals[i].sat == s ==> arrivals[i].conn.Some?
    ensures Collect(Collect(arrivals, TakenFrom(s)), AdmittedOnly()) == Collect(arrivals, BusOf(s))
  {
    forall a | a in arrivals ensures Collect(TakenFrom(s)(a), AdmittedOnly()) == BusOf(s)(a) {
      BusOfTaken(a, s);
    }
    CollectTwice(arrivals, TakenFrom(s), AdmittedOnly(), BusOf(s));
  }

  // What came after a part of a list.
  function Since<T>(before: seq<T>, all: seq<T>): seq<T>
    requires before <= all
  {
    all[|before|..]
  }

  lemma Continued(before: seq<Message>, waiting: seq<Message>, taken: seq<Message>,
                  sent: seq<Message>, all: seq<Message>)
    requires sent == before + waiting && all == before + taken && sent <= all
    ensures taken == waiting + Since(sent, all)
  {
    assert taken == all[|before|..];
    assert all == sent + Since(sent, all);
  }

  // With nothing queued any more, the messages taken since are those that waited and those sent since.
  lemma TakenSince(arrivals: seq<Arrival>, late: seq<Arrival>, waiting: seq<Message>,
                   sent: seq<Message>, sent': seq<Message>, s: nat)
    requires sent == Collect(arrivals, TakenFrom(s)) + waiting && sent <= sent'
    requires sent' == Collect(arrivals + late, TakenFrom(s)) + []
    ensures Collect(late, TakenFrom(s)) == waiting + Since(sent, sent')
  {
    CollectConcat(arrivals, late, TakenFrom(s));
    Continued(Collect(arrivals, TakenFrom(s)), waiting, Collect(late, TakenFrom(s)), sent, sent');
  }

  // What the messages taken since put on the bus.
  lemma InjectedSince(arrivals: seq<Arrival>, late: seq<Arrival>, s: nat)
    requires forall i :: 0 <= i < |late| && late[i].sat == s ==> late[i].conn.Some?
    ensures Collect(arrivals, OnTheBus()) <= Collect(arrivals + late, OnTheBus())
    ensures Collect(Since(Collect(arrivals, OnTheBus()), Collect(arrivals + late, OnTheBus())), InjectedFrom(s))
            == Collect(Collect(late, TakenFrom(s)), AdmittedOnly())
  {
    CollectConcat(arrivals, late, OnTheBus());
    assert Since(Collect(arrivals, OnTheBus()), Collect(arrivals + late, OnTheBus())) == Collect(late, OnTheBus());
    BusIsInjected(late, s);
    BusIsAdmitted(late, s);
  }

  lemma ArrivedSince(w: World, x: World, s: nat)
    requires s < |w.sats| && Upward(w) && Upward(x) && SafeSince(w, x, s) && x.queue == []
    ensures Collect(Since(w.injected, x.injected), InjectedFrom(s))
            == Collect(Collect(w.queue, PendingFrom(s)) + Since(w.sats[s].sent, x.sats[s].sent), AdmittedOnly())
  {
    var late := Since(w.arrivals, x.arrivals);
    assert x.arrivals == w.arrivals + late;
    assert Delivered(w.sats[s], w.arrivals, w.queue, s) && Delivered(x.sats[s], x.arrivals, x.queue, s);
    TakenSince(w.arrivals, late, Collect(w.queue, PendingFrom(s)), w.sats[s].sent, x.sats[s].sent, s);
    InjectedSince(w.arrivals, late, s);
  }

  /** When the pump is idle again, every admitted message that was waiting or was sent since then has
      been injected: the same messages, in the same order, each once, and nothing else of s. Closes
      before that point, of s too, change nothing. */
  lemma EverySentMessageArrives(n: nat, calls: seq<Cmd>, later: seq<Cmd>, s: nat)
    requires s < |History(n, calls).sats| && Ready(History(n, calls), s)
    requires SparesQueue(History(n, calls).queue, Some(s))
    requires SparesCalls(later, Some(s)) && History(n, calls + later).queue == []
    ensures var w, x := History(n, calls), History(n, calls + later);
            && SafeSince(w, x, s)
            && Collect(Since(w.injected, x.injected), InjectedFrom(s))
               == Collect(Collect(w.queue, PendingFrom(s)) + Since(w.sats[s].sent, x.sats[s].sent), AdmittedOnly())
  {
    OnlyACloseLoses(n, calls, later, s);
    UpwardHolds(n, calls);
    UpwardHolds(n, calls + later);
    ArrivedSince(History(n, calls), History(n, calls + later), s);
  }
}
