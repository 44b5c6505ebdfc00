/**
 What every run of the in-process wire keeps (hivescope/node.py): no frame is lost or reordered on
 the way to a satellite, each nonce is used once, and the frames of a Noise session are decoded in
 the mode and at the nonce they were encoded with. Nonces follow section 5.1 of the Noise Protocol
 Framework (CipherState). Each invariant is proved for each elementary step; `WireSteps` does
 the rest.
 */
module WireSessions {
  import opened Options
  import opened Lists
  import opened Wire
  import opened WireDrain
  import opened WireSteps

  // ----- what the moves do, table by table -----

  // The frame that Put sends.
  function FrameOf(w: World, k: nat, p: Payload): Frame
    requires Wired(w, k)
  {
    var here := w.sats[w.conns[k].sat].current;
    Frame(k, if here.Some? then here.value else k, w.conns[k].sat, SealOf(w.conns, k), p)
  }

  lemma PutChanges(w: World, k: nat, p: Payload)
    requires Wired(w, k)
    ensures var s, f, w' := w.conns[k].sat, FrameOf(w, k, p), Put(w, k, p);
            && w'.conns == w.conns[k := Bump(w.conns[k])] && w'.injected == w.injected
            && w'.arrivals == w.arrivals && w'.clients == w.clients
            && |w'.sats| == |w.sats| && (forall r :: 0 <= r < |w.sats| && r != s ==> w'.sats[r] == w.sats[r])
            && w'.sats[s] == w.sats[s].(outs := w.sats[s].outs + [Out(f, w.sats[s].current.None?)])
            && w'.queue == (if w.sats[s].current.None? then w.queue else w.queue + [Arrive(f)])
  {
  }

  // The tables with the new connection, before the greeting.
  function Attached(w: World, s: nat): World
    requires s < |w.sats|
  {
    w.(conns := w.conns + [Conn(s, None)],
       sats := w.sats[s := Joined(w.sats[s], |w.conns|)],
       clients := w.clients + [|w.conns|])
  }

  lemma AttachedKeepsShape(w: World, s: nat)
    requires Shape(w) && s < |w.sats|
    ensures Shape(Attached(w, s)) && Wired(Attached(w, s), |w.conns|)
    ensures Attach(w, s) == Put(Put(Attached(w, s), |w.conns|, Hello), |w.conns|, Offer)
    ensures Shape(Put(Attached(w, s), |w.conns|, Hello)) && Wired(Put(Attached(w, s), |w.conns|, Hello), |w.conns|)
  {
    PutKeepsShape(Attached(w, s), |w.conns|, Hello);
  }

  // Message 2 in clear, before the transport.
  lemma AnswerChanges(w: World, k: nat)
    requires Shape(w) && Wired(w, k)
    ensures var w1 := Put(w, k, Reply);
            && Shape(w1) && Wired(w1, k) && k < |w1.conns|
            && Answer(w, k) == w1.(conns := w1.conns[k := w1.conns[k].(noise := Some(0))])
  {
    PutKeepsShape(w, k, Reply);
  }

  // ----- frames are conserved -----

  function KeptFrame(): Out -> seq<Frame>
  {
    (o: Out) => if o.dropped then [] else [o.frame]
  }

  function DroppedFrame(): Out -> seq<Frame>
  {
    (o: Out) => if o.dropped then [o.frame] else []
  }

  function InFrame(): In -> seq<Frame>
  {
    (r: In) => [r.frame]
  }

  // The queued frames for satellite s, and those encoded on connection k.
  function FrameTo(s: nat): Task -> seq<Frame>
  {
    (t: Task) => if t.Arrive? && t.frame.sat == s then [t.frame] else []
  }

  function FrameVia(k: nat): Task -> seq<Frame>
  {
    (t: Task) => if t.Arrive? && t.frame.via == k then [t.frame] else []
  }

  // Every frame that left for s and was not dropped is either recorded or queued, in send order.
  predicate Conserved(sat: Sat, q: seq<Task>, s: nat)
  {
    Collect(sat.outs, KeptFrame()) == Collect(sat.ins, InFrame()) + Collect(q, FrameTo(s))
  }

  // Recorded frames belong to s and to connections that exist.
  predicate Filed(sat: Sat, s: nat, conns: seq<Conn>)
  {
    && (forall i :: 0 <= i < |sat.outs| ==>
          sat.outs[i].frame.sat == s && sat.outs[i].frame.via < |conns| && conns[sat.outs[i].frame.via].sat == s)
    && (forall i :: 0 <= i < |sat.outs| && sat.outs[i].frame.seal.Sealed? ==>
          sat.outs[i].frame.seal.session == sat.outs[i].frame.via)
  }

  predicate SealedOnItsOwn(t: Task)
  {
    t.Arrive? && t.frame.seal.Sealed? ==> t.frame.seal.session == t.frame.via
  }

  predicate Frames(w: World)
  {
    && (forall s :: 0 <= s < |w.sats| ==> Conserved(w.sats[s], w.queue, s) && Filed(w.sats[s], s, w.conns))
    && (forall i :: 0 <= i < |w.queue| ==> SealedOnItsOwn(w.queue[i]))
  }

  // Same records, and connections that only grew in number or changed their counters.
  predicate SameRecords(w: World, w': World)
  {
    && |w'.sats| == |w.sats| && |w.conns| <= |w'.conns|
    && (forall k :: 0 <= k < |w.conns| ==> w'.conns[k].sat == w.conns[k].sat)
    && (forall s :: 0 <= s < |w.sats| ==> w'.sats[s].outs == w.sats[s].outs && w'.sats[s].ins == w.sats[s].ins)
  }

  lemma QueueConserves(sat: Sat, q: seq<Task>, t: Task, s: nat)
    requires Conserved(sat, q, s) && (t.Arrive? ==> t.frame.sat != s)
    ensures Conserved(sat, q + [t], s)
  {
    CollectPush(q, t, FrameTo(s));
  }

  lemma FramesQueued(w: World, w': World, t: Task)
    requires Frames(w) && SameRecords(w, w') && w'.queue == w.queue + [t] && !t.Arrive?
    ensures Frames(w')
  {
    forall s | 0 <= s < |w'.sats| ensures Conserved(w'.sats[s], w'.queue, s) && Filed(w'.sats[s], s, w'.conns) {
      assert Conserved(w.sats[s], w.queue, s) && Filed(w.sats[s], s, w.conns);
      QueueConserves(w.sats[s], w.queue, t, s);
    }
  }

  lemma FramesStay(w: World, w': World)
    requires Frames(w) && SameRecords(w, w') && w'.queue == w.queue
    ensures Frames(w')
  {
    forall s | 0 <= s < |w'.sats| ensures Conserved(w'.sats[s], w'.queue, s) && Filed(w'.sats[s], s, w'.conns) {
      assert Conserved(w.sats[s], w.queue, s) && Filed(w.sats[s], s, w.conns);
    }
  }

  lemma FramesPopped(w: World, w': World)
    requires Frames(w) && SameRecords(w, w') && w.queue != [] && w'.queue == w.queue[1..] && !w.queue[0].Arrive?
    ensures Frames(w')
  {
    forall s | 0 <= s < |w'.sats| ensures Conserved(w'.sats[s], w'.queue, s) && Filed(w'.sats[s], s, w'.conns) {
      assert Conserved(w.sats[s], w.queue, s) && Filed(w.sats[s], s, w.conns);
      CollectPop(w.queue, FrameTo(s));
    }
  }

  // One more frame out: queued for its satellite, or dropped.
  lemma PutConserves(sat: Sat, q: seq<Task>, o: Out, s: nat)
    requires Conserved(sat, q, s) && o.frame.sat == s
    ensures Conserved(sat.(outs := sat.outs + [o]), if o.dropped then q else q + [Arrive(o.frame)], s)
  {
    CollectPush(sat.outs, o, KeptFrame());
    if !o.dropped {
      CollectPush(q, Arrive(o.frame), FrameTo(s));
      assert KeptFrame()(o) == [o.frame] == FrameTo(s)(Arrive(o.frame));
      var a, b := Collect(sat.ins, InFrame()), Collect(q, FrameTo(s));
      assert a + b + [o.frame] == a + (b + [o.frame]);
    }
  }

  lemma PutFiles(sat: Sat, s: nat, conns: seq<Conn>, conns': seq<Conn>, o: Out)
    requires Filed(sat, s, conns)
    requires |conns'| == |conns| && forall k :: 0 <= k < |conns| ==> conns'[k].sat == conns[k].sat
    requires o.frame.sat == s && o.frame.via < |conns| && conns[o.frame.via].sat == s
    requires o.frame.seal.Sealed? ==> o.frame.seal.session == o.frame.via
    ensures Filed(sat.(outs := sat.outs + [o]), s, conns')
  {
  }

  lemma FramesPut(w: World, k: nat, p: Payload)
    requires Shape(w) && Frames(w)
    ensures Frames(Put(w, k, p))
  {
    if Wired(w, k) {
      PutChanges(w, k, p);
      var w', s, f := Put(w, k, p), w.conns[k].sat, FrameOf(w, k, p);
      forall r | 0 <= r < |w'.sats| ensures Conserved(w'.sats[r], w'.queue, r) && Filed(w'.sats[r], r, w'.conns) {
        assert Conserved(w.sats[r], w.queue, r) && Filed(w.sats[r], r, w.conns);
        if r == s {
          PutConserves(w.sats[s], w.queue, Out(f, w.sats[s].current.None?), s);
          PutFiles(w.sats[s], s, w.conns, w'.conns, Out(f, w.sats[s].current.None?));
        } else {
          QueueConserves(w.sats[r], w.queue, Arrive(f), r);
        }
      }
    }
  }

  // A frame of s moves from the front of the queue to the end of the inbound records.
  lemma RecordConserves(sat: Sat, ins: seq<In>, entry: In, q: seq<Task>, s: nat)
    requires q != [] && q[0].Arrive? && Conserved(sat, q, s)
    requires ins == if q[0].frame.sat == s then sat.ins + [entry] else sat.ins
    requires entry.frame == q[0].frame
    ensures Collect(sat.outs, KeptFrame()) == Collect(ins, InFrame()) + Collect(q[1..], FrameTo(s))
  {
    CollectPop(q, FrameTo(s));
    if q[0].frame.sat == s {
      var f, before, rest := q[0].frame, Collect(sat.ins, InFrame()), Collect(q[1..], FrameTo(s));
      CollectPush(sat.ins, entry, InFrame());
      assert InFrame()(entry) == [f];
      assert before + [f] + rest == before + ([f] + rest);
    }
  }

  // The record that a decode leaves.
  function EntryOf(w: World, f: Frame): In
    requires f.sat < |w.sats|
  {
    In(f, w.sats[f.sat].cipher, Live(w, f), Holds(w.sats[f.sat].life, f.via))
  }

  lemma DecodedChanges(w: World, f: Frame)
    requires f.sat < |w.sats|
    ensures var w', sat := Decoded(w, f), w.sats[f.sat];
            && w'.conns == w.conns && w'.queue == w.queue && w'.injected == w.injected && w'.arrivals == w.arrivals
            && |w'.sats| == |w.sats| && (forall r :: 0 <= r < |w.sats| && r != f.sat ==> w'.sats[r] == w.sats[r])
            && w'.sats[f.sat] == sat.(
                 ins := sat.ins + [EntryOf(w, f)],
                 cipher := if Completes(w, f) then Some(Cipher(f.via, 0)) else AfterDecode(sat.cipher, f.seal),
                 life := if Completes(w, f) then sat.life + [Installed(f.via)] else sat.life)
  {
  }

  lemma FramesDecoded(w: World)
    requires Shape(w) && Frames(w) && Enabled(w, Decoding)
    ensures Frames(Apply(w, Decoding))
  {
    var f, w' := w.queue[0].frame, Apply(w, Decoding);
    DecodedChanges(Pop(w), f);
    forall s | 0 <= s < |w'.sats| ensures Conserved(w'.sats[s], w'.queue, s) && Filed(w'.sats[s], s, w'.conns) {
      assert Conserved(w.sats[s], w.queue, s) && Filed(w.sats[s], s, w.conns);
      RecordConserves(w.sats[s], w'.sats[s].ins, EntryOf(Pop(w), f), w.queue, s);
    }
  }

  lemma FramesAttached(w: World, s: nat)
    requires Shape(w) && Frames(w) && s < |w.sats|
    ensures Frames(Attach(w, s))
  {
    AttachedKeepsShape(w, s);
    FramesStay(w, Attached(w, s));
    FramesPut(Attached(w, s), |w.conns|, Hello);
    FramesPut(Put(Attached(w, s), |w.conns|, Hello), |w.conns|, Offer);
  }

  lemma FramesAnswered(w: World)
    requires Shape(w) && Frames(w) && Enabled(w, Answering)
    ensures Frames(Apply(w, Answering))
  {
    var k := w.queue[0].attempt;
    PopIsSound(w);
    FramesPopped(w, Pop(w));
    AnswerChanges(Pop(w), k);
    FramesPut(Pop(w), k, Reply);
    FramesStay(Put(Pop(w), k, Reply), Apply(w, Answering));
  }

  lemma FramesMove(w: World, m: Move)
    requires Shape(w) && Frames(w) && Enabled(w, m)
    ensures Frames(Apply(w, m))
  {
    var w' := Apply(w, m);
    match m
    case Sending(k, react) => FramesPut(w, k, Plain(react));
    case Queueing(t) => FramesQueued(w, w', t);
    case SendingUp(s, message, body) => FramesQueued(w, w', Handle(s, message, Now(w, s), body));
    case Asking(s) => FramesQueued(w, w', Shake(s, w.sats[s].current.value));
    case Closing(s) => FramesStay(w, w');
    case Attaching(s) => FramesAttached(w, s);
    case Popping => FramesPopped(w, w');
    case Losing => FramesPopped(w, w');
    case Receiving => FramesPopped(w, w');
    case Answering => FramesAnswered(w);
    case Decoding => FramesDecoded(w);
  }

  // ----- nonces -----

  // The nonces that sealed frames of connection k left with.
  function NonceVia(k: nat): Out -> seq<nat>
  {
    (o: Out) => if o.frame.via == k && o.frame.seal.Sealed? then [o.frame.seal.nonce] else []
  }

  // Session k has used each nonce below its send counter exactly once, in order, from 0.
  predicate NoncesInOrder(noise: Option<nat>, outs: seq<Out>, k: nat)
  {
    Collect(outs, NonceVia(k)) == if noise.None? then [] else seq(noise.value, i => i)
  }

  predicate Nonces(w: World)
  {
    forall k :: 0 <= k < |w.conns| && Wired(w, k) ==>
      NoncesInOrder(w.conns[k].noise, w.sats[w.conns[k].sat].outs, k)
  }

  lemma NoncesStay(w: World, w': World)
    requires Nonces(w) && SameRecords(w, w') && w'.conns == w.conns
    ensures Nonces(w')
  {
    forall k | 0 <= k < |w'.conns| && Wired(w', k)
      ensures NoncesInOrder(w'.conns[k].noise, w'.sats[w'.conns[k].sat].outs, k)
    {
      assert Wired(w, k);
    }
  }

  lemma SequencePush(n: nat)
    ensures seq(n + 1, i => i) == seq(n, i => i) + [n]
  {
  }

  lemma OwnNonce(noise: Option<nat>, outs: seq<Out>, o: Out, k: nat)
    requires NoncesInOrder(noise, outs, k) && o.frame.via == k
    requires o.frame.seal == if noise.None? then Clear else Sealed(k, noise.value)
    ensures NoncesInOrder(if noise.None? then None else Some(noise.value + 1), outs + [o], k)
  {
    CollectPush(outs, o, NonceVia(k));
    if noise.Some? {
      assert NonceVia(k)(o) == [noise.value];
      SequencePush(noise.value);
    }
  }

  lemma OtherNonce(noise: Option<nat>, outs: seq<Out>, o: Out, k: nat)
    requires NoncesInOrder(noise, outs, k) && o.frame.via != k
    ensures NoncesInOrder(noise, outs + [o], k)
  {
    CollectPush(outs, o, NonceVia(k));
  }

  lemma NoncesPut(w: World, k: nat, p: Payload)
    requires Nonces(w)
    ensures Nonces(Put(w, k, p))
  {
    if Wired(w, k) {
      PutChanges(w, k, p);
      var w', s := Put(w, k, p), w.conns[k].sat;
      var o := Out(FrameOf(w, k, p), w.sats[s].current.None?);
      forall c | 0 <= c < |w'.conns| && Wired(w', c)
        ensures NoncesInOrder(w'.conns[c].noise, w'.sats[w'.conns[c].sat].outs, c)
      {
        assert Wired(w, c);
        if c == k {
          OwnNonce(w.conns[k].noise, w.sats[s].outs, o, k);
        } else if w.conns[c].sat == s {
          OtherNonce(w.conns[c].noise, w.sats[s].outs, o, c);
        }
      }
    }
  }

  lemma {:induction false} NothingOut(outs: seq<Out>, k: nat)
    requires forall i :: 0 <= i < |outs| ==> outs[i].frame.via != k
    ensures Collect(outs, NonceVia(k)) == []
  {
    if outs != [] {
      NothingOut(outs[1..], k);
    }
  }

  lemma NoncesAttached(w: World, s: nat)
    requires Frames(w) && Nonces(w) && s < |w.sats|
    ensures Nonces(Attached(w, s))
  {
    var w1 := Attached(w, s);
    forall c | 0 <= c < |w1.conns| && Wired(w1, c)
      ensures NoncesInOrder(w1.conns[c].noise, w1.sats[w1.conns[c].sat].outs, c)
    {
      if c < |w.conns| {
        assert Wired(w, c);
      } else {
        assert Filed(w.sats[s], s, w.conns);
        NothingOut(w.sats[s].outs, c);
      }
    }
  }

  lemma NoncesAnswered(w: World, k: nat)
    requires Shape(w) && Nonces(w) && Wired(w, k) && w.conns[k].noise.None?
    ensures Nonces(Answer(w, k))
  {
    NoncesPut(w, k, Reply);
    AnswerChanges(w, k);
    PutChanges(w, k, Reply);
    var w1, w' := Put(w, k, Reply), Answer(w, k);
    forall c | 0 <= c < |w'.conns| && Wired(w', c)
      ensures NoncesInOrder(w'.conns[c].noise, w'.sats[w'.conns[c].sat].outs, c)
    {
      assert Wired(w1, c);
      assert seq(0, i => i) == [];
    }
  }

  lemma NoncesOfAttach(w: World, s: nat)
    requires Shape(w) && Frames(w) && Nonces(w) && s < |w.sats|
    ensures Nonces(Attach(w, s))
  {
    AttachedKeepsShape(w, s);
    NoncesAttached(w, s);
    NoncesPut(Attached(w, s), |w.conns|, Hello);
    NoncesPut(Put(Attached(w, s), |w.conns|, Hello), |w.conns|, Offer);
  }

  lemma NoncesDecoded(w: World)
    requires Nonces(w) && Enabled(w, Decoding)
    ensures Nonces(Apply(w, Decoding))
  {
    var w' := Apply(w, Decoding);
    DecodedChanges(Pop(w), w.queue[0].frame);
    forall k | 0 <= k < |w'.conns| && Wired(w', k)
      ensures NoncesInOrder(w'.conns[k].noise, w'.sats[w'.conns[k].sat].outs, k)
    {
      assert Wired(w, k);
    }
  }

  lemma NoncesMove(w: World, m: Move)
    requires Shape(w) && Frames(w) && Nonces(w) && Enabled(w, m)
    ensures Nonces(Apply(w, m))
  {
    match m
    case Sending(k, react) => NoncesPut(w, k, Plain(react));
    case Attaching(s) => NoncesOfAttach(w, s);
    case Answering =>
      PopIsSound(w);
      NoncesStay(w, Pop(w));
      NoncesAnswered(Pop(w), w.queue[0].attempt);
    case Decoding => NoncesDecoded(w);
    case _ => NoncesStay(w, Apply(w, m));
  }

  // ----- the two ends of a session -----

  // The receiver's view while it works through the frames of session k: No once one of them
  // would not decode, otherwise its next receive nonce (None: still before message 2).
  datatype Verdict = No | Yes(next: Option<nat>)

  function After(v: Verdict, k: nat, f: Frame): Verdict
  {
    if v.No? then No else
      match f.seal
      case Clear =>
        if v.next.Some? then No else if f.payload.Reply? then Yes(Some(0)) else v
      case Sealed(session, nonce) =>
        if session == k && v.next == Some(nonce) && !f.payload.Reply? then Yes(Some(nonce + 1)) else No
  }

  function Replay(v: Verdict, k: nat, fs: seq<Frame>): Verdict
    decreases fs
  {
    if fs == [] then v else Replay(After(v, k, fs[0]), k, fs[1..])
  }

  function NextNonce(cipher: Option<Cipher>): Option<nat>
  {
    if cipher.None? then None else Some(cipher.value.nonce)
  }

  // The satellite holds no transport, or that of session k.
  predicate Own(cipher: Option<Cipher>, k: nat)
  {
    cipher.None? || cipher.value.session == k
  }

  // Session k has a transport, or message 1 for it is queued, only while k is the satellite's attempt.
  predicate Attempted(noise: Option<nat>, attempt: Option<nat>, q: seq<Task>, s: nat, k: nat)
  {
    && (noise.Some? ==> attempt == Some(k))
    && (forall i :: 0 <= i < |q| && q[i].Shake? && q[i].sat == s && q[i].attempt == k ==> attempt == Some(k))
  }

  // The two ends of session k agree unless the satellite holds another session's transport: once it
  // has decoded every frame of k now queued, its phase and receive nonce are the master's phase and
  // send nonce.
  predicate Agreed(conn: Conn, cipher: Option<Cipher>, attempt: Option<nat>, q: seq<Task>, s: nat, k: nat)
  {
    && Attempted(conn.noise, attempt, q, s, k)
    && (Own(cipher, k) ==> Replay(Yes(NextNonce(cipher)), k, Collect(q, FrameVia(k))) == Yes(conn.noise))
  }

  // Session k is its satellite's open session.
  predicate Open(w: World, k: nat)
  {
    Wired(w, k) && w.sats[w.conns[k].sat].current == Some(k)
  }

  predicate Ends(w: World, k: nat)
    requires Wired(w, k)
  {
    var s := w.conns[k].sat;
    Agreed(w.conns[k], w.sats[s].cipher, w.sats[s].attempt, w.queue, s, k)
  }

  // A frame of the open session was decoded if and only if no other session's transport was borrowed.
  predicate LiveDecoded(ins: seq<In>)
  {
    forall i :: 0 <= i < |ins| && ins[i].live ==>
      (Decodes(ins[i].borrowed, ins[i].frame.seal) <==> Own(ins[i].borrowed, ins[i].frame.via))
  }

  // A transport belongs to a connection that was made.
  predicate Known(cipher: Option<Cipher>, conns: nat)
  {
    cipher.Some? ==> cipher.value.session < conns
  }

  predicate Settled(sat: Sat, conns: nat)
  {
    LiveDecoded(sat.ins) && Known(sat.cipher, conns)
  }

  predicate Agreements(w: World)
  {
    && (forall k :: 0 <= k < |w.conns| && Open(w, k) ==> Ends(w, k))
    && (forall s :: 0 <= s < |w.sats| ==> Settled(w.sats[s], |w.conns|))
  }

  lemma {:induction false} ReplayPush(v: Verdict, k: nat, fs: seq<Frame>, f: Frame)
    ensures Replay(v, k, fs + [f]) == After(Replay(v, k, fs), k, f)
    decreases fs
  {
    if fs == [] {
      assert fs + [f] == [f] && [f][1..] == [];
    } else {
      assert (fs + [f])[1..] == fs[1..] + [f];
      ReplayPush(After(v, k, fs[0]), k, fs[1..], f);
    }
  }

  // A failed or established view never goes back.
  lemma {:induction false} ReplayIsOneWay(v: Verdict, k: nat, fs: seq<Frame>)
    requires v.No? || v.next.Some?
    ensures Replay(v, k, fs) != Yes(None)
    ensures v.No? ==> Replay(v, k, fs) == No
    decreases fs
  {
    if fs != [] {
      ReplayIsOneWay(After(v, k, fs[0]), k, fs[1..]);
    }
  }

  // A queued call that is no frame, and message 1 only of another satellite.
  lemma CallAgrees(conn: Conn, cipher: Option<Cipher>, attempt: Option<nat>, q: seq<Task>, t: Task, s: nat, k: nat)
    requires Agreed(conn, cipher, attempt, q, s, k) && !t.Arrive? && (t.Shake? ==> t.sat != s)
    ensures Agreed(conn, cipher, attempt, q + [t], s, k)
  {
    CollectPush(q, t, FrameVia(k));
  }

  lemma AskAgrees(conn: Conn, cipher: Option<Cipher>, attempt: Option<nat>, q: seq<Task>, s: nat, k: nat)
    requires Agreed(conn, cipher, attempt, q, s, k)
    ensures Agreed(conn, cipher, Some(k), q + [Shake(s, k)], s, k)
  {
    CollectPush(q, Shake(s, k), FrameVia(k));
  }

  lemma PopAgrees(conn: Conn, cipher: Option<Cipher>, attempt: Option<nat>, q: seq<Task>, s: nat, k: nat)
    requires Agreed(conn, cipher, attempt, q, s, k) && q != [] && (q[0].Arrive? ==> q[0].frame.via != k)
    ensures Agreed(conn, cipher, attempt, q[1..], s, k)
  {
    CollectPop(q, FrameVia(k));
  }

  // One more frame of session k queued: agreement moves on with the send counter.
  lemma FrameAgrees(conn: Conn, cipher: Option<Cipher>, attempt: Option<nat>, q: seq<Task>, f: Frame, s: nat, k: nat)
    requires Agreed(conn, cipher, attempt, q, s, k) && f.via == k && !f.payload.Reply?
    requires f.seal == if conn.noise.None? then Clear else Sealed(k, conn.noise.value)
    ensures Agreed(Bump(conn), cipher, attempt, q + [Arrive(f)], s, k)
  {
    CollectPush(q, Arrive(f), FrameVia(k));
    ReplayPush(Yes(NextNonce(cipher)), k, Collect(q, FrameVia(k)), f);
  }

  // One more frame of another session.
  lemma FrameElsewhere(conn: Conn, cipher: Option<Cipher>, attempt: Option<nat>, q: seq<Task>, f: Frame, s: nat, k: nat)
    requires Agreed(conn, cipher, attempt, q, s, k) && f.via != k
    ensures Agreed(conn, cipher, attempt, q + [Arrive(f)], s, k)
  {
    CollectPush(q, Arrive(f), FrameVia(k));
  }

  // Message 2 queued in clear, then the master's transport: the agreement moves to nonce 0.
  lemma ReplyAgrees(conn: Conn, cipher: Option<Cipher>, attempt: Option<nat>, q: seq<Task>, f: Frame, s: nat, k: nat)
    requires Agreed(conn, cipher, attempt, q, s, k) && conn.noise.None? && attempt == Some(k)
    requires f.via == k && f.payload.Reply? && f.seal == Clear
    ensures Agreed(conn.(noise := Some(0)), cipher, attempt, q + [Arrive(f)], s, k)
  {
    CollectPush(q, Arrive(f), FrameVia(k));
    ReplayPush(Yes(NextNonce(cipher)), k, Collect(q, FrameVia(k)), f);
  }

  // No queued frame was encoded on a connection that does not exist yet.
  lemma {:induction false} NothingVia(conns: seq<Conn>, sats: nat, q: seq<Task>, k: nat)
    requires forall i :: 0 <= i < |q| && q[i].Arrive? ==> FrameFits(conns, sats, q[i].frame)
    requires k >= |conns|
    ensures Collect(q, FrameVia(k)) == []
  {
    if q != [] {
      NothingVia(conns, sats, q[1..], k);
    }
  }

  // ----- how each move keeps the agreements -----

  // The tables that matter to session k are the same, and so is the queue but for one more call.
  lemma EndsCalled(w: World, w': World, t: Task, k: nat)
    requires Open(w, k) && Ends(w, k) && !t.Arrive? && (t.Shake? ==> t.sat != w.conns[k].sat)
    requires Wired(w', k) && w'.conns[k] == w.conns[k] && w'.queue == w.queue + [t]
    requires var s := w.conns[k].sat;
             w'.sats[s].cipher == w.sats[s].cipher && w'.sats[s].attempt == w.sats[s].attempt
    ensures Ends(w', k)
  {
    var s := w.conns[k].sat;
    CallAgrees(w.conns[k], w.sats[s].cipher, w.sats[s].attempt, w.queue, t, s, k);
  }

  lemma AgreementsQueued(w: World, t: Task)
    requires Agreements(w) && !t.Arrive? && !t.Shake?
    ensures Agreements(Enqueue(w, t))
  {
    var w' := Enqueue(w, t);
    forall k | 0 <= k < |w'.conns| && Open(w', k) ensures Ends(w', k) {
      assert Open(w, k);
      EndsCalled(w, w', t, k);
    }
  }

  lemma AgreementsSentUp(w: World, s: nat, m: Message, body: Prog)
    requires Agreements(w) && s < |w.sats|
    ensures Agreements(SendUp(w, s, m, body))
  {
    var w' := SendUp(w, s, m, body);
    forall k | 0 <= k < |w'.conns| && Open(w', k) ensures Ends(w', k) {
      assert Open(w, k);
      EndsCalled(w, w', Handle(s, m, Now(w, s), body), k);
    }
    forall r | 0 <= r < |w'.sats| ensures Settled(w'.sats[r], |w'.conns|) {
      assert Settled(w.sats[r], |w.conns|);
    }
  }

  lemma AgreementsAsked(w: World, s: nat)
    requires Agreements(w) && Connected(w, s)
    ensures Agreements(Ask(w, s).w)
  {
    var here := w.sats[s].current.value;
    var w', t := Ask(w, s).w, Shake(s, here);
    forall k | 0 <= k < |w'.conns| && Open(w', k) ensures Ends(w', k) {
      assert Open(w, k);
      if w.conns[k].sat == s {
        AskAgrees(w.conns[k], w.sats[s].cipher, w.sats[s].attempt, w.queue, s, k);
      } else {
        EndsCalled(w, w', t, k);
      }
    }
    forall r | 0 <= r < |w'.sats| ensures Settled(w'.sats[r], |w'.conns|) {
      assert Settled(w.sats[r], |w.conns|);
    }
  }

  lemma AgreementsClosed(w: World, s: nat)
    requires Agreements(w)
    ensures Agreements(CloseSat(w, s))
  {
    var w' := CloseSat(w, s);
    forall k | 0 <= k < |w'.conns| && Open(w', k) ensures Ends(w', k) {
      assert Open(w, k);
    }
    forall r | 0 <= r < |w'.sats| ensures Settled(w'.sats[r], |w'.conns|) {
      assert Settled(w.sats[r], |w.conns|);
    }
  }

  // An action leaves the queue and changes no session table.
  lemma AgreementsPopped(w: World, w': World)
    requires Agreements(w) && w.queue != [] && !w.queue[0].Arrive?
    requires w'.queue == w.queue[1..] && w'.conns == w.conns && w'.sats == w.sats
    ensures Agreements(w')
  {
    forall k | 0 <= k < |w'.conns| && Open(w', k) ensures Ends(w', k) {
      assert Open(w, k);
      var s := w.conns[k].sat;
      PopAgrees(w.conns[k], w.sats[s].cipher, w.sats[s].attempt, w.queue, s, k);
    }
  }

  lemma EndsPut(w: World, k: nat, p: Payload, c: nat)
    requires Wired(w, k) && !p.Reply? && Open(w, c) && Ends(w, c)
    ensures Wired(Put(w, k, p), c) && Ends(Put(w, k, p), c)
  {
    PutChanges(w, k, p);
    var f, r := FrameOf(w, k, p), w.conns[c].sat;
    if c == k {
      FrameAgrees(w.conns[c], w.sats[r].cipher, w.sats[r].attempt, w.queue, f, r, c);
    } else {
      FrameElsewhere(w.conns[c], w.sats[r].cipher, w.sats[r].attempt, w.queue, f, r, c);
    }
  }

  lemma AgreementsPut(w: World, k: nat, p: Payload)
    requires Agreements(w) && !p.Reply?
    ensures Agreements(Put(w, k, p))
  {
    if Wired(w, k) {
      var w' := Put(w, k, p);
      PutChanges(w, k, p);
      forall c | 0 <= c < |w'.conns| && Open(w', c) ensures Ends(w', c) {
        assert Open(w, c);
        EndsPut(w, k, p, c);
      }
      forall r | 0 <= r < |w'.sats| ensures Settled(w'.sats[r], |w'.conns|) {
        assert Settled(w.sats[r], |w.conns|);
      }
    }
  }

  lemma EndsOfNew(w: World, s: nat)
    requires Shape(w) && s < |w.sats| && Known(w.sats[s].cipher, |w.conns|)
    ensures Wired(Attached(w, s), |w.conns|) && Ends(Attached(w, s), |w.conns|)
  {
    NothingVia(w.conns, |w.sats|, w.queue, |w.conns|);
  }

  lemma AgreementsAttached(w: World, s: nat)
    requires Shape(w) && Agreements(w) && s < |w.sats|
    ensures Agreements(Attached(w, s))
  {
    var w' := Attached(w, s);
    forall c | 0 <= c < |w'.conns| && Open(w', c) ensures Ends(w', c) {
      if c < |w.conns| {
        assert Open(w, c);
      } else {
        EndsOfNew(w, s);
      }
    }
    forall r | 0 <= r < |w'.sats| ensures Settled(w'.sats[r], |w'.conns|) {
      assert Settled(w.sats[r], |w.conns|);
    }
  }

  lemma EndsAnswered(w: World, k: nat, c: nat)
    requires Shape(w) && Wired(w, k) && w.conns[k].noise.None? && w.sats[w.conns[k].sat].current == Some(k)
    requires w.sats[w.conns[k].sat].attempt == Some(k)
    requires Open(w, c) && Ends(w, c)
    ensures Wired(Answer(w, k), c) && Ends(Answer(w, k), c)
  {
    PutChanges(w, k, Reply);
    AnswerChanges(w, k);
    var f, r := FrameOf(w, k, Reply), w.conns[c].sat;
    if c == k {
      ReplyAgrees(w.conns[c], w.sats[r].cipher, w.sats[r].attempt, w.queue, f, r, c);
    } else {
      FrameElsewhere(w.conns[c], w.sats[r].cipher, w.sats[r].attempt, w.queue, f, r, c);
    }
  }

  lemma AgreementsAnswered(w: World)
    requires Shape(w) && Agreements(w) && Enabled(w, Answering)
    ensures Agreements(Apply(w, Answering))
  {
    var k, w1 := w.queue[0].attempt, Pop(w);
    var w' := Answer(w1, k);
    PopIsSound(w);
    AgreementsPopped(w, w1);
    PutChanges(w1, k, Reply);
    AnswerChanges(w1, k);
    assert Open(w, k) && Ends(w, k);
    forall c | 0 <= c < |w'.conns| && Open(w', c) ensures Ends(w', c) {
      assert Open(w1, c) && Ends(w1, c);
      EndsAnswered(w1, k, c);
    }
    forall r | 0 <= r < |w'.sats| ensures Settled(w'.sats[r], |w'.conns|) {
      assert Settled(w1.sats[r], |w1.conns|);
    }
  }

  // The next frame of an open session decodes as it was encoded, and message 2 completes it, if the
  // satellite holds no other session's transport.
  lemma OwnFrameDecodes(w: World, f: Frame)
    requires Agreements(w) && w.queue != [] && w.queue[0] == Arrive(f) && Open(w, f.via)
    requires f.sat == w.conns[f.via].sat && Own(w.sats[f.sat].cipher, f.via)
    ensures After(Yes(NextNonce(w.sats[f.sat].cipher)), f.via, f).Yes?
    ensures Decodes(w.sats[f.sat].cipher, f.seal)
    ensures f.payload.Reply? ==> Completes(w, f)
  {
    var k := f.via;
    assert Ends(w, k);
    var v := Yes(NextNonce(w.sats[f.sat].cipher));
    var rest := Collect(w.queue[1..], FrameVia(k));
    assert Collect(w.queue, FrameVia(k)) == [f] + rest;
    ReplayStarts(v, k, f, rest);
    if After(v, k, f).No? {
      ReplayIsOneWay(No, k, rest);
    } else if f.payload.Reply? {
      ReplayIsOneWay(Yes(Some(0)), k, rest);
    }
  }

  lemma ReplayStarts(v: Verdict, k: nat, f: Frame, rest: seq<Frame>)
    ensures Replay(v, k, [f] + rest) == Replay(After(v, k, f), k, rest)
  {
    assert ([f] + rest)[1..] == rest;
  }

  // A frame of session k is decoded: agreement moves on with the satellite's phase and nonce.
  lemma DecodeAgrees(conn: Conn, cipher: Option<Cipher>, cipher': Option<Cipher>, attempt: Option<nat>,
                     q: seq<Task>, f: Frame, s: nat, k: nat)
    requires Agreed(conn, cipher, attempt, q, s, k) && q != [] && q[0] == Arrive(f) && f.via == k
    requires Own(cipher, k) && Decodes(cipher, f.seal)
    requires cipher' == if f.payload.Reply? then Some(Cipher(k, 0)) else AfterDecode(cipher, f.seal)
    requires After(Yes(NextNonce(cipher)), k, f).Yes?
    ensures Agreed(conn, cipher', attempt, q[1..], s, k)
  {
    var rest := Collect(q[1..], FrameVia(k));
    assert Collect(q, FrameVia(k)) == [f] + rest;
    ReplayStarts(Yes(NextNonce(cipher)), k, f, rest);
  }

  // A satellite with another session's transport has nothing to agree about.
  lemma ForeignAgrees(conn: Conn, cipher: Option<Cipher>, cipher': Option<Cipher>, attempt: Option<nat>,
                      q: seq<Task>, s: nat, k: nat)
    requires Agreed(conn, cipher, attempt, q, s, k) && q != [] && !Own(cipher', k)
    ensures Agreed(conn, cipher', attempt, q[1..], s, k)
  {
  }

  // A frame of another session leaves session k's transport alone or replaces it by its own, and no
  // frame brings session k's transport to a satellite that holds another.
  lemma DecodeKeepsOwn(cipher: Option<Cipher>, cipher': Option<Cipher>, f: Frame, k: nat, completes: bool)
    requires f.seal.Sealed? ==> f.seal.session == f.via
    requires cipher' == if completes then Some(Cipher(f.via, 0)) else AfterDecode(cipher, f.seal)
    requires completes ==> Decodes(cipher, f.seal)
    ensures f.via != k && Own(cipher', k) ==> cipher' == cipher
    ensures f.via == k && !Own(cipher, k) ==> !Own(cipher', k)
  {
  }

  lemma EndsDecoded(w: World, k: nat)
    requires Shape(w) && Frames(w) && Agreements(w) && Enabled(w, Decoding) && Open(w, k)
    ensures Wired(Apply(w, Decoding), k) && Ends(Apply(w, Decoding), k)
  {
    var f, s := w.queue[0].frame, w.conns[k].sat;
    var cipher, cipher', attempt := w.sats[s].cipher, Apply(w, Decoding).sats[s].cipher, w.sats[s].attempt;
    DecodedChanges(Pop(w), f);
    assert FrameFits(w.conns, |w.sats|, f) && SealedOnItsOwn(w.queue[0]) && Ends(w, k);
    if f.sat == s {
      DecodeKeepsOwn(cipher, cipher', f, k, Completes(Pop(w), f));
    }
    if !Own(cipher', k) {
      ForeignAgrees(w.conns[k], cipher, cipher', attempt, w.queue, s, k);
    } else if f.via == k {
      OwnFrameDecodes(w, f);
      DecodeAgrees(w.conns[k], cipher, cipher', attempt, w.queue, f, s, k);
    } else {
      PopAgrees(w.conns[k], cipher, attempt, w.queue, s, k);
    }
  }

  lemma LivePushed(ins: seq<In>, entry: In)
    requires LiveDecoded(ins)
    requires entry.live ==> (Decodes(entry.borrowed, entry.frame.seal) <==> Own(entry.borrowed, entry.frame.via))
    ensures LiveDecoded(ins + [entry])
  {
  }

  // The entry that a decode leaves for a frame of the open session.
  lemma LiveEntry(w: World, f: Frame)
    requires Shape(w) && Frames(w) && Agreements(w) && Enabled(w, Decoding) && w.queue[0] == Arrive(f) && Live(w, f)
    ensures Decodes(w.sats[f.sat].cipher, f.seal) <==> Own(w.sats[f.sat].cipher, f.via)
  {
    assert FrameFits(w.conns, |w.sats|, f) && SealedOnItsOwn(w.queue[0]) && Open(w, f.via);
    if Own(w.sats[f.sat].cipher, f.via) {
      OwnFrameDecodes(w, f);
    }
  }

  lemma SatDecoded(w: World, s: nat)
    requires Shape(w) && Frames(w) && Agreements(w) && Enabled(w, Decoding) && s < |w.sats|
    ensures var w' := Apply(w, Decoding);
            s < |w'.sats| && Settled(w'.sats[s], |w'.conns|)
  {
    var f := w.queue[0].frame;
    DecodedChanges(Pop(w), f);
    assert FrameFits(w.conns, |w.sats|, f) && Settled(w.sats[s], |w.conns|);
    if s == f.sat {
      if Live(w, f) {
        LiveEntry(w, f);
      }
      LivePushed(w.sats[s].ins, EntryOf(Pop(w), f));
    }
  }

  lemma AgreementsDecoded(w: World)
    requires Shape(w) && Frames(w) && Agreements(w) && Enabled(w, Decoding)
    ensures Agreements(Apply(w, Decoding))
  {
    var w' := Apply(w, Decoding);
    DecodedChanges(Pop(w), w.queue[0].frame);
    forall k | 0 <= k < |w'.conns| && Open(w', k) ensures Ends(w', k) {
      assert Open(w, k);
      EndsDecoded(w, k);
    }
    forall r | 0 <= r < |w'.sats| ensures Settled(w'.sats[r], |w'.conns|) {
      SatDecoded(w, r);
    }
  }

  lemma AgreementsMove(w: World, m: Move)
    requires Shape(w) && Frames(w) && Agreements(w) && Enabled(w, m)
    ensures Agreements(Apply(w, m))
  {
    match m
    case Sending(k, react) => AgreementsPut(w, k, Plain(react));
    case Queueing(t) => AgreementsQueued(w, t);
    case SendingUp(s, message, body) => AgreementsSentUp(w, s, message, body);
    case Asking(s) => AgreementsAsked(w, s);
    case Closing(s) => AgreementsClosed(w, s);
    case Attaching(s) =>
      AttachedKeepsShape(w, s);
      AgreementsAttached(w, s);
      AgreementsPut(Attached(w, s), |w.conns|, Hello);
      AgreementsPut(Put(Attached(w, s), |w.conns|, Hello), |w.conns|, Offer);
    case Popping => AgreementsPopped(w, Pop(w));
    case Losing => AgreementsPopped(w, Apply(w, m));
    case Receiving => AgreementsPopped(w, Apply(w, m));
    case Answering => AgreementsAnswered(w);
    case Decoding => AgreementsDecoded(w);
  }

  // ----- every run -----

  predicate Sessions(w: World)
  {
    Frames(w) && Nonces(w) && Agreements(w)
  }

  /** Every elementary step keeps the session invariants. */
  lemma SessionsKept()
    ensures Kept(Sessions, None)
  {
    forall w, m | Shape(w) && Sessions(w) && Enabled(w, m) && SparesMove(m, None)
      ensures Sessions(Apply(w, m))
    {
      FramesMove(w, m);
      NoncesMove(w, m);
      AgreementsMove(w, m);
    }
  }

  /** Every history of calls satisfies them. */
  lemma SessionsHold(n: nat, calls: seq<Cmd>)
    ensures Sessions(History(n, calls))
  {
    SessionsKept();
    EveryHistoryGoes(n, calls, Sessions);
  }
}
