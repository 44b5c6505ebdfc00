/**
 When a sealed frame decodes (hivescope/node.py, `_forget_session` and `_decode_and_dispatch`):
 exactly while the satellite holds the transport of the session that sealed it, whatever other
 connections it made or lost in between.
 */
module WireHolding {
  import opened Options
  import opened Lists
  import opened Wire
  import opened WireDrain
  import opened WireSteps
  import opened WireSessions

  // The satellite's next receive nonce on session k, if it holds that session's transport.
  function NonceFor(cipher: Option<Cipher>, k: nat): Option<nat>
  {
    if cipher.Some? && cipher.value.session == k then Some(cipher.value.nonce) else None
  }

  // A receiver of session k that may not get any further: it waits for message 2, and from then on
  // insists on each frame.
  function Heed(v: Verdict, k: nat, f: Frame): Verdict
  {
    if v.No? then No
    else if v.next.None? then if f.payload.Reply? then Yes(Some(0)) else v
    else if f.seal == Sealed(k, v.next.value) && !f.payload.Reply? then Yes(Some(v.next.value + 1))
    else No
  }

  function HeedAll(v: Verdict, k: nat, fs: seq<Frame>): Verdict
    decreases fs
  {
    if fs == [] then v else HeedAll(Heed(v, k, fs[0]), k, fs[1..])
  }

  lemma {:induction false} HeedPush(v: Verdict, k: nat, fs: seq<Frame>, f: Frame)
    ensures HeedAll(v, k, fs + [f]) == Heed(HeedAll(v, k, fs), k, f)
    decreases fs
  {
    if fs == [] {
      assert fs + [f] == [f] && [f][1..] == [];
    } else {
      assert (fs + [f])[1..] == fs[1..] + [f];
      HeedPush(Heed(v, k, fs[0]), k, fs[1..], f);
    }
  }

  lemma {:induction false} NeverAgain(k: nat, fs: seq<Frame>)
    ensures HeedAll(No, k, fs) == No
  {
    if fs != [] {
      NeverAgain(k, fs[1..]);
    }
  }

  // Who can follow from nonce n on gets no message 2, so who waits for one waits for ever.
  lemma {:induction false} StillWaiting(n: nat, k: nat, fs: seq<Frame>)
    requires HeedAll(Yes(Some(n)), k, fs).Yes?
    ensures HeedAll(Yes(None), k, fs) == Yes(None)
    decreases fs
  {
    if fs != [] {
      if Heed(Yes(Some(n)), k, fs[0]).No? {
        NeverAgain(k, fs[1..]);
      } else {
        StillWaiting(n + 1, k, fs[1..]);
      }
    }
  }

  // The queued frames of session k can be followed up to the master's send counter.
  predicate Followed(noise: Option<nat>, cipher: Option<Cipher>, q: seq<Task>, k: nat)
  {
    var v := HeedAll(Yes(NonceFor(cipher, k)), k, Collect(q, FrameVia(k)));
    v.Yes? && (v.next.Some? ==> v.next == noise)
  }

  // The session installed last, unless a close came after.
  function Carried(life: seq<Life>): Option<nat>
  {
    if life == [] then None else
      match Last(life)
      case Made(_) => Carried(Init(life))
      case Installed(session) => Some(session)
      case Closed => None
  }

  // No transport was installed over another.
  predicate OneAtATime(life: seq<Life>)
  {
    life == [] || (OneAtATime(Init(life)) && (Last(life).Installed? ==> Carried(Init(life)).None?))
  }

  // The satellite's log tells which transport it holds.
  predicate Told(cipher: Option<Cipher>, life: seq<Life>)
  {
    OneAtATime(life) && Carried(life) == if cipher.None? then None else Some(cipher.value.session)
  }

  // A sealed frame was decoded if and only if its session's transport was held.
  predicate Honest(ins: seq<In>)
  {
    forall i :: 0 <= i < |ins| && ins[i].frame.seal.Sealed? ==>
      (Decodes(ins[i].borrowed, ins[i].frame.seal) <==> ins[i].held)
  }

  // No connection and no transport survives a close.
  predicate Recent(sat: Sat, conns: nat)
  {
    && sat.born <= conns
    && (sat.current.Some? ==> sat.born <= sat.current.value)
    && (sat.current.None? ==> sat.cipher.None? && sat.attempt.None?)
    && (sat.attempt.Some? ==> sat.born <= sat.attempt.value)
    && (sat.cipher.Some? ==> sat.born <= sat.cipher.value.session < conns)
  }

  predicate SatHeld(sat: Sat, conns: nat)
  {
    Recent(sat, conns) && Told(sat.cipher, sat.life) && Honest(sat.ins)
  }

  // Session k, made after its satellite's last close, is connected or overtaken, and followed.
  predicate ConnHeld(conn: Conn, sat: Sat, q: seq<Task>, k: nat)
  {
    sat.born <= k ==> sat.current.Some? && Followed(conn.noise, sat.cipher, q, k)
  }

  // Message 2 always leaves in clear.
  predicate ReplyInClear(t: Task)
  {
    t.Arrive? && t.frame.payload.Reply? ==> t.frame.seal.Clear?
  }

  predicate Held(w: World)
  {
    && (forall i :: 0 <= i < |w.queue| ==> ReplyInClear(w.queue[i]))
    && (forall s :: 0 <= s < |w.sats| ==> SatHeld(w.sats[s], |w.conns|))
    && (forall k :: 0 <= k < |w.conns| && Wired(w, k) ==> ConnHeld(w.conns[k], w.sats[w.conns[k].sat], w.queue, k))
  }

  // What one more event does to what is held.
  lemma HoldsStep(life: seq<Life>, e: Life, k: nat)
    ensures Holds(life + [e], k) <==> e == Installed(k) || (e != Closed && Holds(life, k))
  {
    var all, n := life + [e], |life|;
    assert all[n] == e;
    if Holds(all, k) && e != Installed(k) {
      var i :| 0 <= i < |all| && all[i] == Installed(k) && forall j :: i < j < |all| ==> all[j] != Closed;
      assert life[i] == Installed(k);
      assert forall j :: i < j < n ==> life[j] == all[j];
    }
    if e != Closed && Holds(life, k) {
      var i :| 0 <= i < n && life[i] == Installed(k) && forall j :: i < j < n ==> life[j] != Closed;
      assert all[i] == Installed(k);
      assert forall j :: i < j < n ==> all[j] == life[j];
    }
  }

  lemma {:induction false} HoldsIffCarried(life: seq<Life>, k: nat)
    requires OneAtATime(life)
    ensures Holds(life, k) <==> Carried(life) == Some(k)
  {
    if life != [] {
      assert life == Init(life) + [Last(life)];
      HoldsIffCarried(Init(life), k);
      HoldsStep(Init(life), Last(life), k);
    }
  }

  lemma HoldsIffTold(cipher: Option<Cipher>, life: seq<Life>, k: nat)
    requires Told(cipher, life)
    ensures Holds(life, k) <==> cipher.Some? && cipher.value.session == k
  {
    HoldsIffCarried(life, k);
  }

  lemma ToldMore(cipher: Option<Cipher>, life: seq<Life>, e: Life)
    requires Told(cipher, life) && (e.Installed? ==> cipher.None?)
    ensures Told(match e case Made(_) => cipher case Installed(k) => Some(Cipher(k, 0)) case Closed => None, life + [e])
  {
    assert Init(life + [e]) == life;
  }

  lemma ToldClosed(cipher: Option<Cipher>, life: seq<Life>)
    requires Told(cipher, life)
    ensures Told(None, Ended(life))
  {
    ToldMore(cipher, life, Closed);
  }

  // ----- one connection, one change of the queue -----

  lemma FollowedCall(noise: Option<nat>, cipher: Option<Cipher>, q: seq<Task>, t: Task, k: nat)
    requires Followed(noise, cipher, q, k) && (t.Arrive? ==> t.frame.via != k)
    ensures Followed(noise, cipher, q + [t], k)
  {
    CollectPush(q, t, FrameVia(k));
  }

  lemma FollowedPop(noise: Option<nat>, cipher: Option<Cipher>, q: seq<Task>, k: nat)
    requires Followed(noise, cipher, q, k) && q != [] && (q[0].Arrive? ==> q[0].frame.via != k)
    ensures Followed(noise, cipher, q[1..], k)
  {
    CollectPop(q, FrameVia(k));
  }

  lemma FollowedFrame(conn: Conn, cipher: Option<Cipher>, q: seq<Task>, f: Frame, k: nat)
    requires Followed(conn.noise, cipher, q, k) && f.via == k && !f.payload.Reply?
    requires f.seal == if conn.noise.None? then Clear else Sealed(k, conn.noise.value)
    ensures Followed(Bump(conn).noise, cipher, q + [Arrive(f)], k)
  {
    CollectPush(q, Arrive(f), FrameVia(k));
    HeedPush(Yes(NonceFor(cipher, k)), k, Collect(q, FrameVia(k)), f);
  }

  lemma FollowedReply(cipher: Option<Cipher>, q: seq<Task>, f: Frame, k: nat)
    requires Followed(None, cipher, q, k) && f.via == k && f.payload.Reply?
    ensures Followed(Some(0), cipher, q + [Arrive(f)], k)
  {
    CollectPush(q, Arrive(f), FrameVia(k));
    HeedPush(Yes(NonceFor(cipher, k)), k, Collect(q, FrameVia(k)), f);
  }

  lemma HeedStarts(v: Verdict, k: nat, f: Frame, rest: seq<Frame>)
    ensures HeedAll(v, k, [f] + rest) == HeedAll(Heed(v, k, f), k, rest)
  {
    assert ([f] + rest)[1..] == rest;
  }

  // The next frame of a session whose transport is held carries the expected nonce.
  lemma HeldFrameDecodes(noise: Option<nat>, cipher: Cipher, q: seq<Task>, f: Frame)
    requires Followed(noise, Some(cipher), q, f.via) && q != [] && q[0] == Arrive(f) && f.via == cipher.session
    ensures f.seal == Sealed(cipher.session, cipher.nonce) && !f.payload.Reply?
    ensures Followed(noise, Some(Cipher(cipher.session, cipher.nonce + 1)), q[1..], f.via)
  {
    var k := f.via;
    var rest := Collect(q[1..], FrameVia(k));
    assert Collect(q, FrameVia(k)) == [f] + rest;
    HeedStarts(Yes(Some(cipher.nonce)), k, f, rest);
    NeverAgain(k, rest);
  }

  // A frame of a session whose transport is not held: message 2 may install it, or be wasted.
  lemma UnheldFrame(noise: Option<nat>, cipher: Option<Cipher>, cipher': Option<Cipher>, q: seq<Task>, f: Frame, k: nat)
    requires Followed(noise, cipher, q, k) && q != [] && q[0] == Arrive(f) && f.via == k
    requires NonceFor(cipher, k).None?
    requires NonceFor(cipher', k).None? || (f.payload.Reply? && NonceFor(cipher', k) == Some(0))
    ensures Followed(noise, cipher', q[1..], k)
  {
    var rest := Collect(q[1..], FrameVia(k));
    assert Collect(q, FrameVia(k)) == [f] + rest;
    HeedStarts(Yes(None), k, f, rest);
    if f.payload.Reply? {
      StillWaiting(0, k, rest);
    }
  }

  // ----- each move -----

  // Nothing about transports changes, and the queue only gets or loses a call.
  predicate SameHolding(w: World, w': World)
  {
    && w'.conns == w.conns && |w'.sats| == |w.sats|
    && (forall s :: 0 <= s < |w.sats| ==>
          w'.sats[s].attempt == w.sats[s].attempt || w'.sats[s].attempt == w.sats[s].current)
    && (forall s :: 0 <= s < |w.sats| ==>
          && w'.sats[s].current == w.sats[s].current && w'.sats[s].cipher == w.sats[s].cipher
          && w'.sats[s].born == w.sats[s].born && w'.sats[s].life == w.sats[s].life && w'.sats[s].ins == w.sats[s].ins)
  }

  lemma HeldSats(w: World, w': World)
    requires Held(w) && SameHolding(w, w')
    ensures forall s :: 0 <= s < |w'.sats| ==> SatHeld(w'.sats[s], |w'.conns|)
  {
    forall s | 0 <= s < |w'.sats| ensures SatHeld(w'.sats[s], |w'.conns|) {
      assert SatHeld(w.sats[s], |w.conns|);
    }
  }

  lemma HeldQueued(w: World, w': World, t: Task)
    requires Held(w) && SameHolding(w, w') && !t.Arrive? && w'.queue == w.queue + [t]
    ensures Held(w')
  {
    HeldSats(w, w');
    forall k | 0 <= k < |w'.conns| && Wired(w', k)
      ensures ConnHeld(w'.conns[k], w'.sats[w'.conns[k].sat], w'.queue, k)
    {
      var sat := w.sats[w.conns[k].sat];
      assert ConnHeld(w.conns[k], sat, w.queue, k);
      if sat.born <= k {
        FollowedCall(w.conns[k].noise, sat.cipher, w.queue, t, k);
      }
    }
  }

  lemma HeldPopped(w: World, w': World)
    requires Held(w) && SameHolding(w, w') && w.queue != [] && !w.queue[0].Arrive? && w'.queue == w.queue[1..]
    ensures Held(w')
  {
    HeldSats(w, w');
    forall k | 0 <= k < |w'.conns| && Wired(w', k)
      ensures ConnHeld(w'.conns[k], w'.sats[w'.conns[k].sat], w'.queue, k)
    {
      var sat := w.sats[w.conns[k].sat];
      assert ConnHeld(w.conns[k], sat, w.queue, k);
      if sat.born <= k {
        FollowedPop(w.conns[k].noise, sat.cipher, w.queue, k);
      }
    }
  }

  lemma ConnHeldPut(w: World, k: nat, p: Payload, c: nat)
    requires Wired(w, k) && !p.Reply? && c < |w.conns| && Wired(w, c)
    requires ConnHeld(w.conns[c], w.sats[w.conns[c].sat], w.queue, c)
    ensures var w' := Put(w, k, p); ConnHeld(w'.conns[c], w'.sats[w.conns[c].sat], w'.queue, c)
  {
    PutChanges(w, k, p);
    var f, sat := FrameOf(w, k, p), w.sats[w.conns[c].sat];
    if sat.born <= c {
      if c == k {
        FollowedFrame(w.conns[c], sat.cipher, w.queue, f, c);
      } else {
        FollowedCall(w.conns[c].noise, sat.cipher, w.queue, Arrive(f), c);
      }
    }
  }

  lemma HeldPut(w: World, k: nat, p: Payload)
    requires Held(w) && !p.Reply?
    ensures Held(Put(w, k, p))
  {
    if Wired(w, k) {
      var w' := Put(w, k, p);
      PutChanges(w, k, p);
      forall s | 0 <= s < |w'.sats| ensures SatHeld(w'.sats[s], |w'.conns|) {
        assert SatHeld(w.sats[s], |w.conns|);
      }
      forall c | 0 <= c < |w'.conns| && Wired(w', c)
        ensures ConnHeld(w'.conns[c], w'.sats[w'.conns[c].sat], w'.queue, c)
      {
        assert Wired(w, c);
        ConnHeldPut(w, k, p, c);
      }
    }
  }

  lemma HeldClosed(w: World, s: nat)
    requires Shape(w) && Held(w)
    ensures Held(CloseSat(w, s))
  {
    var w' := CloseSat(w, s);
    forall r | 0 <= r < |w'.sats| ensures SatHeld(w'.sats[r], |w'.conns|) {
      assert SatHeld(w.sats[r], |w.conns|);
      ToldClosed(w.sats[r].cipher, w.sats[r].life);
    }
    forall c | 0 <= c < |w'.conns| && Wired(w', c)
      ensures ConnHeld(w'.conns[c], w'.sats[w'.conns[c].sat], w'.queue, c)
    {
      assert Wired(w, c);
    }
  }

  lemma HeldAttached(w: World, s: nat)
    requires Shape(w) && Held(w) && s < |w.sats|
    ensures Held(Attached(w, s))
  {
    var w' := Attached(w, s);
    forall r | 0 <= r < |w'.sats| ensures SatHeld(w'.sats[r], |w'.conns|) {
      assert SatHeld(w.sats[r], |w.conns|);
      ToldMore(w.sats[r].cipher, w.sats[r].life, Made(|w.conns|));
    }
    forall c | 0 <= c < |w'.conns| && Wired(w', c)
      ensures ConnHeld(w'.conns[c], w'.sats[w'.conns[c].sat], w'.queue, c)
    {
      if c < |w.conns| {
        assert Wired(w, c);
        assert ConnHeld(w.conns[c], w.sats[w.conns[c].sat], w.queue, c);
      } else {
        assert SatHeld(w.sats[s], |w.conns|);
        NothingVia(w.conns, |w.sats|, w.queue, c);
      }
    }
  }

  lemma HeldAttach(w: World, s: nat)
    requires Shape(w) && Held(w) && s < |w.sats|
    ensures Held(Attach(w, s))
  {
    AttachedKeepsShape(w, s);
    HeldAttached(w, s);
    HeldPut(Attached(w, s), |w.conns|, Hello);
    HeldPut(Put(Attached(w, s), |w.conns|, Hello), |w.conns|, Offer);
  }

  lemma ConnHeldAnswered(w: World, k: nat, c: nat)
    requires Shape(w) && Wired(w, k) && w.conns[k].noise.None? && w.sats[w.conns[k].sat].current == Some(k)
    requires c < |w.conns| && Wired(w, c) && ConnHeld(w.conns[c], w.sats[w.conns[c].sat], w.queue, c)
    ensures var w' := Answer(w, k);
            c < |w'.conns| && w'.conns[c].sat == w.conns[c].sat && w.conns[c].sat < |w'.sats|
            && ConnHeld(w'.conns[c], w'.sats[w.conns[c].sat], w'.queue, c)
  {
    PutChanges(w, k, Reply);
    AnswerChanges(w, k);
    var f, sat := FrameOf(w, k, Reply), w.sats[w.conns[c].sat];
    if sat.born <= c {
      if c == k {
        FollowedReply(sat.cipher, w.queue, f, c);
      } else {
        FollowedCall(w.conns[c].noise, sat.cipher, w.queue, Arrive(f), c);
      }
    }
  }

  lemma SatHeldAnswered(w: World, k: nat, s: nat)
    requires Shape(w) && Wired(w, k) && s < |w.sats| && SatHeld(w.sats[s], |w.conns|)
    ensures var w' := Answer(w, k); s < |w'.sats| && SatHeld(w'.sats[s], |w'.conns|)
  {
    PutChanges(w, k, Reply);
    AnswerChanges(w, k);
  }

  lemma RepliesInClear(w: World, k: nat)
    requires Shape(w) && Wired(w, k) && w.conns[k].noise.None?
    requires forall i :: 0 <= i < |w.queue| ==> ReplyInClear(w.queue[i])
    ensures forall i :: 0 <= i < |Answer(w, k).queue| ==> ReplyInClear(Answer(w, k).queue[i])
  {
    PutChanges(w, k, Reply);
    AnswerChanges(w, k);
  }

  lemma HeldAnswer(w: World, k: nat)
    requires Shape(w) && Held(w) && Wired(w, k) && w.conns[k].noise.None?
    requires w.sats[w.conns[k].sat].current == Some(k)
    ensures Held(Answer(w, k))
  {
    var w' := Answer(w, k);
    RepliesInClear(w, k);
    AnswerChanges(w, k);
    forall s | 0 <= s < |w'.sats| ensures SatHeld(w'.sats[s], |w'.conns|) {
      SatHeldAnswered(w, k, s);
    }
    forall c | 0 <= c < |w'.conns| && Wired(w', c)
      ensures ConnHeld(w'.conns[c], w'.sats[w'.conns[c].sat], w'.queue, c)
    {
      assert Wired(w, c);
      ConnHeldAnswered(w, k, c);
    }
  }

  lemma HeldAnswered(w: World)
    requires Shape(w) && Held(w) && Enabled(w, Answering)
    ensures Held(Apply(w, Answering))
  {
    PopIsSound(w);
    HeldPopped(w, Pop(w));
    HeldAnswer(Pop(w), w.queue[0].attempt);
  }

  // The entry a decode leaves is honest.
  lemma EntryIsHonest(w: World, f: Frame)
    requires Shape(w) && Frames(w) && Held(w) && w.queue != [] && w.queue[0] == Arrive(f)
    ensures f.sat < |w.sats|
    ensures f.seal.Sealed? ==> (Decodes(w.sats[f.sat].cipher, f.seal) <==> Holds(w.sats[f.sat].life, f.via))
  {
    assert FrameFits(w.conns, |w.sats|, f) && SealedOnItsOwn(w.queue[0]);
    var sat := w.sats[f.sat];
    assert SatHeld(sat, |w.conns|);
    HoldsIffTold(sat.cipher, sat.life, f.via);
    if sat.cipher.Some? && sat.cipher.value.session == f.via {
      assert ConnHeld(w.conns[f.via], sat, w.queue, f.via);
      HeldFrameDecodes(w.conns[f.via].noise, sat.cipher.value, w.queue, f);
    }
  }

  lemma HonestPush(ins: seq<In>, entry: In)
    requires Honest(ins)
    requires entry.frame.seal.Sealed? ==> (Decodes(entry.borrowed, entry.frame.seal) <==> entry.held)
    ensures Honest(ins + [entry])
  {
  }

  lemma SatHeldDecoded(w: World, f: Frame)
    requires Shape(w) && Frames(w) && Held(w) && w.queue != [] && w.queue[0] == Arrive(f)
    ensures f.sat < |w.sats| && SatHeld(Decoded(Pop(w), f).sats[f.sat], |w.conns|)
  {
    EntryIsHonest(w, f);
    var sat := w.sats[f.sat];
    assert FrameFits(w.conns, |w.sats|, f) && SatHeld(sat, |w.conns|);
    DecodedChanges(Pop(w), f);
    HonestPush(sat.ins, EntryOf(Pop(w), f));
    if Completes(Pop(w), f) {
      assert ConnHeld(w.conns[f.via], sat, w.queue, f.via);
      CompletionIsRecent(w, f);
      ToldMore(sat.cipher, sat.life, Installed(f.via));
    }
  }

  // Message 2 completes an attempt only in clear, and only an attempt made since the last close.
  lemma CompletionIsRecent(w: World, f: Frame)
    requires Shape(w) && Held(w) && Enabled(w, Decoding) && w.queue[0] == Arrive(f) && Completes(w, f)
    ensures w.sats[f.sat].cipher.None? && w.sats[f.sat].born <= f.via && w.sats[f.sat].current.Some?
  {
  }

  // What a decode does to the nonce of session k.
  lemma NonceAfter(cipher: Option<Cipher>, cipher': Option<Cipher>, f: Frame, k: nat, completes: bool)
    requires f.seal.Sealed? ==> f.seal.session == f.via
    requires cipher' == if completes then Some(Cipher(f.via, 0)) else AfterDecode(cipher, f.seal)
    requires completes ==> cipher.None? && f.payload.Reply?
    ensures f.via != k ==> NonceFor(cipher', k) == NonceFor(cipher, k)
    ensures f.via == k && NonceFor(cipher, k).None? ==>
              NonceFor(cipher', k).None? || (f.payload.Reply? && NonceFor(cipher', k) == Some(0))
    ensures NonceFor(cipher, k).Some? && f.via == k && Decodes(cipher, f.seal) && !f.payload.Reply? ==>
              cipher' == Some(Cipher(k, cipher.value.nonce + 1))
  {
  }

  // The queue, and its satellite's transport, after a decode, as session k sees them.
  lemma FollowedDecode(noise: Option<nat>, cipher: Option<Cipher>, cipher': Option<Cipher>,
                       q: seq<Task>, f: Frame, k: nat)
    requires Followed(noise, cipher, q, k) && q != [] && q[0] == Arrive(f)
    requires f.via != k ==> NonceFor(cipher', k) == NonceFor(cipher, k)
    requires f.via == k && NonceFor(cipher, k).None? ==>
               NonceFor(cipher', k).None? || (f.payload.Reply? && NonceFor(cipher', k) == Some(0))
    requires f.via == k && NonceFor(cipher, k).Some? && Decodes(cipher, f.seal) && !f.payload.Reply? ==>
               cipher' == Some(Cipher(k, cipher.value.nonce + 1))
    ensures Followed(noise, cipher', q[1..], k)
  {
    if f.via != k {
      FollowedPop(noise, cipher, q, k);
      SameNonce(noise, cipher, cipher', q[1..], k);
    } else if NonceFor(cipher, k).Some? {
      HeldFrameDecodes(noise, cipher.value, q, f);
    } else {
      UnheldFrame(noise, cipher, cipher', q, f, k);
    }
  }

  lemma OwnConnHeld(w: World, f: Frame, k: nat)
    requires Shape(w) && Frames(w) && Held(w) && Enabled(w, Decoding) && w.queue[0] == Arrive(f)
    requires Wired(w, k) && w.conns[k].sat == f.sat && w.sats[f.sat].born <= k
    ensures var w' := Decoded(Pop(w), f);
            f.sat < |w'.sats| && Followed(w.conns[k].noise, w'.sats[f.sat].cipher, w.queue[1..], k)
  {
    var cipher, cipher' := w.sats[f.sat].cipher, Decoded(Pop(w), f).sats[f.sat].cipher;
    DecodedChanges(Pop(w), f);
    assert SealedOnItsOwn(w.queue[0]) && ConnHeld(w.conns[k], w.sats[f.sat], w.queue, k);
    if Completes(Pop(w), f) {
      CompletionIsRecent(w, f);
    }
    NonceAfter(cipher, cipher', f, k, Completes(Pop(w), f));
    FollowedDecode(w.conns[k].noise, cipher, cipher', w.queue, f, k);
  }

  lemma ConnHeldDecoded(w: World, k: nat)
    requires Shape(w) && Frames(w) && Held(w) && Enabled(w, Decoding) && Wired(w, k)
    ensures var w' := Apply(w, Decoding);
            Wired(w', k) && ConnHeld(w'.conns[k], w'.sats[w'.conns[k].sat], w'.queue, k)
  {
    var f, s := w.queue[0].frame, w.conns[k].sat;
    DecodedChanges(Pop(w), f);
    assert FrameFits(w.conns, |w.sats|, f);
    assert ConnHeld(w.conns[k], w.sats[s], w.queue, k);
    if w.sats[s].born <= k {
      if s == f.sat {
        OwnConnHeld(w, f, k);
      } else {
        FollowedPop(w.conns[k].noise, w.sats[s].cipher, w.queue, k);
      }
    }
  }

  lemma SameNonce(noise: Option<nat>, cipher: Option<Cipher>, cipher': Option<Cipher>, q: seq<Task>, k: nat)
    requires Followed(noise, cipher, q, k) && NonceFor(cipher', k) == NonceFor(cipher, k)
    ensures Followed(noise, cipher', q, k)
  {
  }

  lemma SatHeldAfter(w: World, s: nat)
    requires Shape(w) && Frames(w) && Held(w) && Enabled(w, Decoding) && s < |w.sats|
    ensures var w' := Apply(w, Decoding); s < |w'.sats| && SatHeld(w'.sats[s], |w'.conns|)
  {
    var f := w.queue[0].frame;
    DecodedChanges(Pop(w), f);
    assert SatHeld(w.sats[s], |w.conns|);
    if s == f.sat {
      SatHeldDecoded(w, f);
    }
  }

  lemma RepliesLeft(w: World)
    requires Held(w) && Enabled(w, Decoding)
    ensures var w' := Apply(w, Decoding);
            |w'.sats| == |w.sats| && w'.conns == w.conns
            && forall i :: 0 <= i < |w'.queue| ==> ReplyInClear(w'.queue[i])
  {
    DecodedChanges(Pop(w), w.queue[0].frame);
    forall i | 0 <= i < |Pop(w).queue| ensures ReplyInClear(Pop(w).queue[i]) {
      assert Pop(w).queue[i] == w.queue[i + 1];
    }
  }

  lemma HeldDecoded(w: World)
    requires Shape(w) && Frames(w) && Held(w) && Enabled(w, Decoding)
    ensures Held(Apply(w, Decoding))
  {
    var w' := Apply(w, Decoding);
    RepliesLeft(w);
    forall s | 0 <= s < |w'.sats| ensures SatHeld(w'.sats[s], |w'.conns|) {
      SatHeldAfter(w, s);
    }
    forall k | 0 <= k < |w'.conns| && Wired(w', k)
      ensures ConnHeld(w'.conns[k], w'.sats[w'.conns[k].sat], w'.queue, k)
    {
      ConnHeldDecoded(w, k);
    }
  }

  lemma HeldAsked(w: World, s: nat)
    requires Held(w) && Connected(w, s)
    ensures Held(Ask(w, s).w)
  {
    HeldQueued(w, Ask(w, s).w, Shake(s, w.sats[s].current.value));
  }

  lemma HeldSentUp(w: World, s: nat, m: Message, body: Prog)
    requires Held(w) && s < |w.sats|
    ensures Held(SendUp(w, s, m, body))
  {
    HeldQueued(w, SendUp(w, s, m, body), Handle(s, m, Now(w, s), body));
  }

  lemma HeldMove(w: World, m: Move)
    requires Shape(w) && Frames(w) && Held(w) && Enabled(w, m)
    ensures Held(Apply(w, m))
  {
    match m
    case Sending(k, react) => HeldPut(w, k, Plain(react));
    case Queueing(t) => HeldQueued(w, Enqueue(w, t), t);
    case SendingUp(s, message, body) => HeldSentUp(w, s, message, body);
    case Asking(s) => HeldAsked(w, s);
    case Closing(s) => HeldClosed(w, s);
    case Attaching(s) => HeldAttach(w, s);
    case Answering => HeldAnswered(w);
    case Decoding => HeldDecoded(w);
    case Popping => HeldPopped(w, Apply(w, m));
    case Losing => HeldPopped(w, Apply(w, m));
    case Receiving => HeldPopped(w, Apply(w, m));
  }

  predicate FramesHeld(w: World)
  {
    Frames(w) && Held(w)
  }

  lemma HeldKept()
    ensures Kept(FramesHeld, None)
  {
    forall w, m | Shape(w) && FramesHeld(w) && Enabled(w, m) && SparesMove(m, None)
      ensures FramesHeld(Apply(w, m))
    {
      FramesMove(w, m);
      HeldMove(w, m);
    }
  }

  lemma HoldingHolds(n: nat, calls: seq<Cmd>)
    ensures FramesHeld(History(n, calls))
  {
    HeldKept();
    EveryHistoryGoes(n, calls, FramesHeld);
  }

  /** The exact condition for a sealed frame, in every run: it is decoded if and only if its
      session's transport had been installed and the satellite was not closed since. Whatever else
      the satellite connected to in between, the nonce is then the expected one. */
  lemma SealedFrameDecodesIffHeld(n: nat, calls: seq<Cmd>, s: nat, i: nat)
    requires s < |History(n, calls).sats| && i < |History(n, calls).sats[s].ins|
    requires History(n, calls).sats[s].ins[i].frame.seal.Sealed?
    ensures var r := History(n, calls).sats[s].ins[i];
            Decodes(r.borrowed, r.frame.seal) <==> r.held
  {
    HoldingHolds(n, calls);
    assert SatHeld(History(n, calls).sats[s], |History(n, calls).conns|);
  }
}
