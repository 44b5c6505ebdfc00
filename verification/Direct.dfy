/**
 Fan-outs that a test emits on the bus directly (hivescope/plugins/agent.py), outside any drain: the
 loop over the live client table then sends, drains and sends again, and its iterator raises when
 a handler changed the table. On which programs the loop goes through.
 */
module WireDirect {
  import opened Options
  import opened Lists
  import opened Wire
  import opened WireDrain
  import opened WireSteps
  import opened WireSessions
  import opened WireRuns
  import Lifecycle

  // ----- the loop, unrolled -----

  // The harness after a list of rooted sends, raises ignored.
  function SentAll(w: World, ks: seq<nat>, parts: seq<Part>): (w': World)
    requires Shape(w)
    ensures Shape(w')
    decreases ks
  {
    if ks == [] then w else
      RootedKeepsShape(w, ks[0], parts);
      SentAll(Rooted(w, ks[0], parts).w, ks[1..], parts)
  }

  lemma RootedKeepsShape(w: World, k: nat, parts: seq<Part>)
    requires Shape(w)
    ensures Shape(Rooted(w, k, parts).w)
  {
    PutPartsKeepsShape(w, k, parts);
    DrainKeepsShape(PutParts(w, k, parts));
  }

  // ----- commands that leave the table alone and do not raise -----

  // In a harness with w's client table and w's connected satellites.
  function Gentle(w: World): Cmd -> bool
  {
    (c: Cmd) =>
      match c
      case ToSatellite(k, _) => k in w.clients
      case FromSatellite(s, _, _, _, _) => Connected(w, s)
      case Connect(_) => false
      case Close(s, _) => !Connected(w, s)
      case Raise => false
      case _ => true
  }

  // The reactions to a message on connection k, nested programs included.
  predicate ReactsGently(w: World, parts: seq<Part>, k: nat)
  {
    forall i :: 0 <= i < |parts| ==> AllEverywhere(React(parts[i], k), Gentle(w))
  }

  lemma {:induction false} GentleParts(w: World, parts: seq<Part>, k: nat)
    requires PartsEverywhere(parts, Gentle(w))
    ensures ReactsGently(w, parts, k)
  {
    if parts != [] {
      ReactionEverywhere(parts[0].react, k, Gentle(w));
      GentleParts(w, parts[1..], k);
      assert forall i :: 0 < i < |parts| ==> parts[i] == parts[1..][i - 1];
    }
  }

  // Queued work that is gentle and will find what it needs.
  predicate CalmTask(w: World, t: Task)
  {
    match t
    case Arrive(f) => f.payload.Plain? && TaskEverywhere(t, Gentle(w))
    case Handle(s, _, _, _) => Connected(w, s) && TaskEverywhere(t, Gentle(w))
    case Body(_) => TaskEverywhere(t, Gentle(w))
    case SendOn(_, _) => TaskEverywhere(t, Gentle(w))
    case Broadcast(_) => TaskEverywhere(t, Gentle(w))
    case _ => false
  }

  // w' has the client table and the satellites' connections of w, and only gentle work queued.
  predicate Calm(w: World, w': World)
  {
    && Shape(w') && w'.clients == w.clients && |w'.sats| == |w.sats|
    && (forall s :: 0 <= s < |w.sats| ==> w'.sats[s].current == w.sats[s].current)
    && (forall i :: 0 <= i < |w'.queue| ==> CalmTask(w, w'.queue[i]))
  }

  lemma CalmEnqueue(w: World, w': World, t: Task)
    requires Calm(w, w') && CalmTask(w, t) && !t.Arrive?
    ensures Calm(w, Enqueue(w', t))
  {
  }

  lemma CalmPut(w: World, w': World, k: nat, react: seq<Cmd>)
    requires Calm(w, w') && AllEverywhere(react, Gentle(w))
    ensures Calm(w, Put(w', k, Plain(react)))
  {
    PutKeepsShape(w', k, Plain(react));
    if Wired(w', k) {
      PutChanges(w', k, Plain(react));
    }
  }

  lemma {:induction false} CalmParts(w: World, w': World, k: nat, parts: seq<Part>)
    requires Calm(w, w') && ReactsGently(w, parts, k)
    ensures Calm(w, PutParts(w', k, parts))
    decreases parts
  {
    if parts != [] {
      CalmPut(w, w', k, React(parts[0], k));
      CalmParts(w, Put(w', k, Plain(React(parts[0], k))), k, parts[1..]);
    }
  }

  lemma {:induction false} CalmFan(w: World, w': World, ks: seq<nat>, parts: seq<Part>)
    requires Calm(w, w') && PartsEverywhere(parts, Gentle(w))
    ensures Calm(w, FanOut(w', ks, parts))
    decreases ks
  {
    if ks != [] {
      GentleParts(w, parts, ks[0]);
      CalmParts(w, w', ks[0], parts);
      CalmFan(w, PutParts(w', ks[0], parts), ks[1..], parts);
    }
  }

  lemma CalmDownstream(w: World, w': World, kind: SendKind, peer: Option<nat>, parts: seq<Part>, onError: Prog)
    requires Calm(w, w') && PartsEverywhere(parts, Gentle(w))
    requires !Exec(w', onError.cmds).raised && Calm(w, Exec(w', onError.cmds).w)
    ensures var r := Step(w', Downstream(kind, peer, parts, onError)); !r.raised && Calm(w, r.w)
  {
    if kind.FanOutKind? {
      CalmFan(w, w', w'.clients, parts);
    } else if kind.TargetedKind? && peer.Some? && peer.value in w'.clients {
      GentleParts(w, parts, peer.value);
      CalmParts(w, w', peer.value, parts);
    }
  }

  lemma CalmSendUp(w: World, w': World, s: nat, m: Message, body: Prog)
    requires Calm(w, w') && Connected(w, s) && AllEverywhere(body.cmds, Gentle(w))
    ensures Connected(w', s) && Calm(w, SendUp(w', s, m, body))
  {
    SendUpIsSound(w', s, m, body);
    assert CalmTask(w, Handle(s, m, Now(w', s), body));
  }

  lemma CalmFromSatellite(w: World, w': World, c: Cmd)
    requires Calm(w, w') && c.FromSatellite? && Everywhere(c, Gentle(w))
    ensures !Step(w', c).raised && Calm(w, Step(w', c).w)
  {
    CalmSendUp(w, w', c.sat, Message(w'.sats[c.sat].lastMark + 1 + c.gap, c.msgType, c.admitted), c.body);
  }

  lemma CalmClose(w: World, w': World, s: nat)
    requires Calm(w, w') && !Connected(w, s)
    ensures Calm(w, CloseSat(w', s))
  {
    CloseKeepsShape(w', s);
  }

  // A gentle command keeps the calm and does not raise.
  lemma {:induction false} CalmStep(w: World, w': World, c: Cmd)
    requires Calm(w, w') && Everywhere(c, Gentle(w))
    ensures !Step(w', c).raised && Calm(w, Step(w', c).w)
    decreases c
  {
    match c
    case Direct(k, parts) => GentleParts(w, parts, k); CalmParts(w, w', k, parts);
    case ToSatellite(k, parts) => CalmEnqueue(w, w', SendOn(k, parts));
    case ToAll(parts) => CalmEnqueue(w, w', Broadcast(parts));
    case OnBus(body) => CalmEnqueue(w, w', Body(body));
    case Downstream(kind, peer, parts, onError) =>
      CalmExec(w, w', onError.cmds);
      CalmDownstream(w, w', kind, peer, parts, onError);
    case Addressed(destination, parts) => CalmFan(w, w', Named(w'.clients, destination), parts);
    case FromSatellite(s, gap, msgType, admitted, body) => CalmFromSatellite(w, w', c);
    case Close(s, _) => CalmClose(w, w', s);
    case Connect(_) =>
    case Raise =>
  }

  lemma {:induction false} CalmExec(w: World, w': World, cmds: seq<Cmd>)
    requires Calm(w, w') && AllEverywhere(cmds, Gentle(w))
    ensures !Exec(w', cmds).raised && Calm(w, Exec(w', cmds).w)
    decreases cmds
  {
    if cmds != [] {
      CalmStep(w, w', cmds[0]);
      CalmExec(w, Step(w', cmds[0]).w, cmds[1..]);
    }
  }

  lemma CalmPop(w: World, w': World)
    requires Calm(w, w') && w'.queue != []
    ensures Calm(w, Pop(w'))
  {
    PopIsSound(w');
    forall i | 0 <= i < |Pop(w').queue| ensures CalmTask(w, Pop(w').queue[i]) {
      assert Pop(w').queue[i] == w'.queue[i + 1];
    }
  }

  lemma CalmArrive(w: World, w': World, f: Frame)
    requires Calm(w, w') && CalmTask(w, Arrive(f))
    ensures !Perform(w', Arrive(f)).raised && Calm(w, Perform(w', Arrive(f)).w)
  {
    if f.sat < |w'.sats| {
      var w1 := Record(w', f);
      assert Calm(w, w1);
      CalmExec(w, w1, f.payload.react);
    }
  }

  lemma CalmHandle(w: World, w': World, t: Task)
    requires Calm(w, w') && t.Handle? && CalmTask(w, t)
    ensures !Perform(w', t).raised && Calm(w, Perform(w', t).w)
  {
    var w1 := Receive(w', t.sat, w'.sats[t.sat].current.value, t.message, t.sentAt);
    assert Calm(w, w1);
    CalmExec(w, w1, t.body.cmds);
  }

  lemma CalmPerform(w: World, w': World, t: Task)
    requires Calm(w, w') && CalmTask(w, t)
    ensures !Perform(w', t).raised && Calm(w, Perform(w', t).w)
  {
    match t
    case Arrive(f) => CalmArrive(w, w', f);
    case Handle(_, _, _, _) => CalmHandle(w, w', t);
    case Body(body) => CalmExec(w, w', body.cmds);
    case SendOn(k, parts) => GentleParts(w, parts, k); CalmParts(w, w', k, parts);
    case Broadcast(parts) => CalmFan(w, w', w'.clients, parts);
  }

  lemma {:induction false} CalmDrain(w: World, w': World)
    requires Calm(w, w')
    ensures !Drain(w').raised && Calm(w, Drain(w').w) && Drain(w').w.queue == []
    decreases Load(w'.queue), |w'.queue|
  {
    DrainKeepsShape(w');
    if w'.queue != [] {
      DrainStep(w');
      PopIsSound(w');
      PerformIsSound(Pop(w'), w'.queue[0]);
      CalmPop(w, w');
      assert CalmTask(w, w'.queue[0]);
      CalmPerform(w, Pop(w'), w'.queue[0]);
      CalmDrain(w, Perform(Pop(w'), w'.queue[0]).w);
    }
  }

  lemma CalmRooted(w: World, w': World, k: nat, parts: seq<Part>)
    requires Calm(w, w') && ReactsGently(w, parts, k)
    ensures var r := Rooted(w', k, parts); !r.raised && Calm(w, r.w) && r.w.queue == []
  {
    CalmParts(w, w', k, parts);
    CalmDrain(w, PutParts(w', k, parts));
  }

  // The loop over a list of connections.
  lemma {:induction false} CalmLoop(w: World, w': World, ks: seq<nat>, parts: seq<Part>)
    requires Calm(w, w') && w'.queue == [] && forall k :: k in ks ==> ReactsGently(w, parts, k)
    ensures Loose(w', ks, parts, w.clients) == Res(SentAll(w', ks, parts), false)
    ensures Calm(w, SentAll(w', ks, parts)) && SentAll(w', ks, parts).queue == []
    decreases ks
  {
    if ks != [] {
      CalmRooted(w, w', ks[0], parts);
      CalmLoop(w, Rooted(w', ks[0], parts).w, ks[1..], parts);
    }
  }

  /** A fan-out or a destination list emitted on the bus directly, on an idle harness: if the reactions
      of the peers it is for, nested programs included, contain no connect and no raise, close no
      connected satellite, address only listed peers and send only from connected satellites, the
      loop has sent to all of them when it returns, normally, with the table as it was. */
  lemma GentleFanOutGoesThrough(w: World, cmd: Cmd)
    requires Shape(w) && w.queue == []
    requires (cmd.Downstream? && cmd.kind.FanOutKind?) || cmd.Addressed?
    requires forall k :: Addressee(w, cmd, k) ==> ReactsGently(w, cmd.parts, k)
    ensures var r := Top(w, cmd);
            var ks := if cmd.Addressed? then Named(w.clients, cmd.destination) else w.clients;
            && r == Res(SentAll(w, ks, cmd.parts), false)
            && r.w.clients == w.clients && r.w.queue == []
  {
    var ks := if cmd.Addressed? then Named(w.clients, cmd.destination) else w.clients;
    if cmd.Addressed? {
      NamedIsSublist(w.clients, cmd.destination);
    }
    forall k | k in ks ensures ReactsGently(w, cmd.parts, k) {
      assert Addressee(w, cmd, k);
    }
    CalmLoop(w, w, ks, cmd.parts);
  }

  // ----- each of these conditions is needed -----

  // Satellites are connected through connections in the table.
  predicate Listed(w: World)
  {
    forall s :: 0 <= s < |w.sats| && w.sats[s].current.Some? ==> w.sats[s].current.value in w.clients
  }

  lemma ListedPut(w: World, k: nat, p: Payload)
    requires Listed(w)
    ensures Listed(Put(w, k, p))
  {
    if Wired(w, k) {
      PutChanges(w, k, p);
    }
  }

  lemma ListedClosed(w: World, s: nat)
    requires Shape(w) && Listed(w)
    ensures Listed(CloseSat(w, s))
  {
    if s < |w.sats| && w.sats[s].current.Some? {
      WithoutIsSublist(w.clients, w.sats[s].current.value);
    }
  }

  lemma ListedAttach(w: World, s: nat)
    requires Shape(w) && Listed(w) && s < |w.sats|
    ensures Listed(Attach(w, s))
  {
    AttachedKeepsShape(w, s);
    assert Listed(Attached(w, s)) by {
      assert Attached(w, s).clients[|w.clients|] == |w.conns|;
    }
    ListedPut(Attached(w, s), |w.conns|, Hello);
    ListedPut(Put(Attached(w, s), |w.conns|, Hello), |w.conns|, Offer);
  }

  lemma ListedMove(w: World, m: Move)
    requires Shape(w) && Listed(w) && Enabled(w, m)
    ensures Listed(Apply(w, m))
  {
    match m
    case Sending(k, react) => ListedPut(w, k, Plain(react));
    case Closing(s) => ListedClosed(w, s);
    case Attaching(s) => ListedAttach(w, s);
    case Answering =>
      PopIsSound(w);
      ListedPut(Pop(w), w.queue[0].attempt, Reply);
      AnswerChanges(Pop(w), w.queue[0].attempt);
    case Decoding => DecodedChanges(Pop(w), w.queue[0].frame);
    case _ =>
  }

  lemma ListedHolds(n: nat, calls: seq<Cmd>)
    ensures Listed(History(n, calls))
  {
    forall w, m | Shape(w) && Listed(w) && Enabled(w, m) && SparesMove(m, None) ensures Listed(Apply(w, m)) {
      ListedMove(w, m);
    }
    EveryHistoryGoes(n, calls, Listed);
  }

  // The next frame of connection k can be decoded where it goes.
  predicate Readable(w: World, k: nat)
  {
    Open(w, k) && Decodes(w.sats[w.conns[k].sat].cipher, SealOf(w.conns, k))
  }

  // The harness when the handler of a message sent outside any drain starts.
  function AtTheHandler(w: World, k: nat, react: seq<Cmd>): World
    requires Wired(w, k)
  {
    var f, w1 := FrameOf(w, k, Plain(react)), Put(w, k, Plain(react));
    if w1.queue == [] || f.sat >= |w1.sats| then w1 else Record(Pop(w1), f)
  }

  lemma HandlerFinds(w: World, k: nat, react: seq<Cmd>)
    requires Shape(w) && w.queue == [] && Readable(w, k)
    ensures var w' := AtTheHandler(w, k, react);
            && Shape(w') && w'.queue == [] && w'.clients == w.clients && |w'.sats| == |w.sats|
            && (forall s :: 0 <= s < |w.sats| ==> w'.sats[s].current == w.sats[s].current)
    ensures var f, w1 := FrameOf(w, k, Plain(react)), Put(w, k, Plain(react));
            && Shape(w1) && w1.queue == [Arrive(f)]
            && Perform(Pop(w1), Arrive(f)) == Exec(AtTheHandler(w, k, react), react)
  {
    var f, w1 := FrameOf(w, k, Plain(react)), Put(w, k, Plain(react));
    PutKeepsShape(w, k, Plain(react));
    PutChanges(w, k, Plain(react));
    assert w1.queue == [Arrive(f)];
    assert Shape(Record(Pop(w1), f)) && Record(Pop(w1), f) == AtTheHandler(w, k, react);
  }

  lemma HandlerStarts(w: World, k: nat, part: Part)
    requires Shape(w) && w.queue == [] && Readable(w, k)
    ensures var r := Exec(AtTheHandler(w, k, React(part, k)), React(part, k));
            && Shape(r.w) && Rooted(w, k, [part]) == if r.raised then r else Drain(r.w)
  {
    HandlerFinds(w, k, React(part, k));
    assert [part][1..] == [];
    assert PutParts(w, k, [part]) == Put(w, k, Plain(React(part, k)));
    DrainStep(Put(w, k, Plain(React(part, k))));
  }

  lemma {:induction false} ExecConcat(w: World, a: seq<Cmd>, b: seq<Cmd>)
    ensures Exec(w, a + b) == var r := Exec(w, a); if r.raised then r else Exec(r.w, b)
    decreases a
  {
    if a == [] {
      assert a + b == b;
    } else {
      assert (a + b)[1..] == a[1..] + b;
      if !Step(w, a[0]).raised {
        ExecConcat(Step(w, a[0]).w, a[1..], b);
      }
    }
  }

  lemma OneCommand(w: World, c: Cmd)
    ensures Exec(w, [c]) == Step(w, c)
  {
    assert [c][1..] == [];
    assert Exec(w, [c]) == var r := Step(w, c); if r.raised then r else Exec(r.w, []);
  }

  // Connection k was made and is not in the table, and will not be again.
  function GoneFor(k: nat): World -> bool
  {
    (w: World) => k < |w.conns| && k !in w.clients
  }

  lemma GonePut(w: World, k: nat, p: Payload, gone: nat)
    requires GoneFor(gone)(w)
    ensures GoneFor(gone)(Put(w, k, p))
  {
    if Wired(w, k) {
      PutChanges(w, k, p);
    }
  }

  lemma GoneMove(w: World, m: Move, gone: nat)
    requires Shape(w) && GoneFor(gone)(w) && Enabled(w, m)
    ensures GoneFor(gone)(Apply(w, m))
  {
    match m
    case Sending(k, react) => GonePut(w, k, Plain(react), gone);
    case Closing(s) =>
      if s < |w.sats| && w.sats[s].current.Some? {
        WithoutIsSublist(w.clients, w.sats[s].current.value);
      }
    case Attaching(s) =>
      AttachedKeepsShape(w, s);
      assert GoneFor(gone)(Attached(w, s));
      GonePut(Attached(w, s), |w.conns|, Hello, gone);
      GonePut(Put(Attached(w, s), |w.conns|, Hello), |w.conns|, Offer, gone);
    case Answering =>
      PopIsSound(w);
      GonePut(Pop(w), w.queue[0].attempt, Reply, gone);
      AnswerChanges(Pop(w), w.queue[0].attempt);
    case Decoding => DecodedChanges(Pop(w), w.queue[0].frame);
    case _ =>
  }

  // What is gone from the table stays gone, whatever runs.
  lemma GoneStays(w: World, cmds: seq<Cmd>, gone: nat)
    requires Shape(w) && GoneFor(gone)(w)
    ensures var r := Exec(w, cmds); Shape(r.w) && gone !in r.w.clients && gone !in Drain(r.w).w.clients
  {
    assert Kept(GoneFor(gone), None) by {
      forall w, m | Shape(w) && GoneFor(gone)(w) && Enabled(w, m) && SparesMove(m, None)
        ensures GoneFor(gone)(Apply(w, m))
      {
        GoneMove(w, m, gone);
      }
    }
    FreelyGood(w, GoneFor(gone));
    AllAlways(cmds, Sparing(None));
    ExecGoes(w, cmds, GoneFor(gone), None);
    DrainGoes(Exec(w, cmds).w, GoneFor(gone), None);
  }

  // A close of a listed satellite takes its connection out of the table.
  lemma CloseShows(w: World, s: nat)
    requires Shape(w) && Connected(w, s)
    ensures var w' := CloseSat(w, s); Shape(w') && GoneFor(w.sats[s].current.value)(w')
  {
    CloseKeepsShape(w, s);
    WithoutIsSublist(w.clients, w.sats[s].current.value);
  }

  lemma HandlerThatCloses(w: World, k: nat, part: Part, s: nat, path: Lifecycle.ClosePath)
    requires Shape(w) && w.queue == [] && Readable(w, k) && React(part, k) == [Close(s, path)]
    requires Connected(w, s)
    ensures var r := Rooted(w, k, [part]); !r.raised && w.sats[s].current.value !in r.w.clients
  {
    var w' := AtTheHandler(w, k, [Close(s, path)]);
    HandlerFinds(w, k, React(part, k));
    HandlerStarts(w, k, part);
    OneCommand(w', Close(s, path));
    CloseShows(w', s);
  }

  /** The table stays put only because of the drain: one send made outside a drain can already
      shrink it, when the receiver's handler closes another satellite. */
  lemma UnrootedSendCanShrinkTheTable(w: World, k: nat, s: nat, path: Lifecycle.ClosePath)
    requires Shape(w) && w.queue == [] && Readable(w, k)
    requires Connected(w, s) && w.sats[s].current.value in w.clients
    ensures exists part ::
              !Top(w, Direct(k, [part])).raised && w.sats[s].current.value !in Top(w, Direct(k, [part])).w.clients
  {
    var part := Part(seq(k, _ => Prog([])) + [Prog([Close(s, path)])]);
    HandlerThatCloses(w, k, part, s, path);
    assert Top(w, Direct(k, [part])) == Rooted(w, k, [part]);
  }

  lemma ConnectGrows(w: World, s: nat)
    requires Shape(w) && w.queue == [] && Established(w, s)
    ensures var w' := Enqueue(w, WireUp(s)); Shape(w') && Drain(w').w.clients == w.clients + [|w.conns|]
  {
    EnqueueIsSound(w, WireUp(s));
    GreetingQueued(w, s);
    GreetingRejected(Attach(w, s), s, |w.conns|);
  }

  // A connect inside a drain raises, or makes a new entry.
  lemma ConnectShows(w: World, s: nat)
    requires Shape(w) && w.queue == [] && !Step(w, Connect(s)).raised
    ensures var r := Step(w, Connect(s)); Shape(r.w) && Drain(r.w).w.clients != w.clients
  {
    assert Established(w, s);
    ConnectQueues(w, s);
    ConnectGrows(w, s);
  }

  // What a command that is not gentle does after gentle ones, whatever follows it.
  lemma UngentleShows(w: World, w': World, c: Cmd, post: seq<Cmd>)
    requires Calm(w, w') && Listed(w) && !Gentle(w)(c) && !c.Connect?
    ensures var r := Exec(w', [c] + post); Shape(r.w) && (r.raised || Drain(r.w).w.clients != w.clients)
  {
    ExecIsSound(w', [c] + post);
    assert ([c] + post)[1..] == post;
    if c.Close? {
      CloseShows(w', c.sat);
      GoneStays(CloseSat(w', c.sat), post, w.sats[c.sat].current.value);
    }
  }

  lemma LooseStops(w: World, k: nat, ks: seq<nat>, parts: seq<Part>, table: seq<nat>)
    requires Shape(w) && (Rooted(w, k, parts).raised || Rooted(w, k, parts).w.clients != table)
    ensures Loose(w, [k] + ks, parts, table).raised
  {
    RootedKeepsShape(w, k, parts);
  }

  // What holds of the handler: gentle commands, then c. A connect is looked at alone only, as a later
  // command can undo it.
  predicate GentleUntil(w: World, react: seq<Cmd>, pre: seq<Cmd>, c: Cmd, post: seq<Cmd>)
  {
    && react == pre + ([c] + post) && AllEverywhere(pre, Gentle(w))
    && (c.Connect? ==> pre == [] && post == [])
  }

  lemma UngentleHandler(w: World, part: Part, k: nat, pre: seq<Cmd>, c: Cmd, post: seq<Cmd>)
    requires Shape(w) && Listed(w) && w.queue == [] && Readable(w, k)
    requires GentleUntil(w, React(part, k), pre, c, post) && !Gentle(w)(c)
    ensures var r := Rooted(w, k, [part]); r.raised || r.w.clients != w.clients
  {
    var w' := AtTheHandler(w, k, React(part, k));
    HandlerFinds(w, k, React(part, k));
    HandlerStarts(w, k, part);
    if c.Connect? {
      assert React(part, k) == [c];
      OneCommand(w', c);
      if !Step(w', c).raised {
        ConnectShows(w', c.sat);
      }
    } else {
      CalmExec(w, w', pre);
      ExecConcat(w', pre, [c] + post);
      UngentleShows(w, Exec(w', pre).w, c, post);
    }
  }

  /** Each of these conditions is needed: behind gentle commands of the first peer's handler, one that
      is not gentle makes the loop raise, whatever follows it and whatever the other peers do. */
  lemma UngentleStopsTheLoop(w: World, part: Part, k: nat, ks: seq<nat>, pre: seq<Cmd>, c: Cmd, post: seq<Cmd>)
    requires Shape(w) && Listed(w) && w.queue == [] && Readable(w, k)
    requires GentleUntil(w, React(part, k), pre, c, post) && !Gentle(w)(c)
    ensures Loose(w, [k] + ks, [part], w.clients).raised
  {
    UngentleHandler(w, part, k, pre, c, post);
    LooseStops(w, k, ks, [part], w.clients);
  }

  // A one-part fan-out with nothing but gentle commands, c itself excepted.
  predicate GentleBut(w: World, cmd: Cmd, pre: seq<Cmd>, c: Cmd, post: seq<Cmd>)
  {
    && cmd.Downstream? && cmd.kind.FanOutKind? && |cmd.parts| == 1 && w.clients != []
    && GentleUntil(w, React(cmd.parts[0], w.clients[0]), pre, c, post)
    && Inside(c, Gentle(w)) && AllEverywhere(post, Gentle(w))
    && (forall k :: k in w.clients[1..] ==> ReactsGently(w, cmd.parts, k))
  }

  lemma {:induction false} GentleConcat(w: World, a: seq<Cmd>, b: seq<Cmd>)
    requires AllEverywhere(a, Gentle(w)) && AllEverywhere(b, Gentle(w))
    ensures AllEverywhere(a + b, Gentle(w))
    decreases a
  {
    if a == [] {
      assert a + b == b;
    } else {
      assert (a + b)[1..] == a[1..] + b;
      GentleConcat(w, a[1..], b);
    }
  }

  lemma GentleToo(w: World, cmd: Cmd, pre: seq<Cmd>, c: Cmd, post: seq<Cmd>)
    requires Shape(w) && w.queue == [] && GentleBut(w, cmd, pre, c, post) && Gentle(w)(c)
    ensures !Top(w, cmd).raised
  {
    assert ([c] + post)[1..] == post;
    GentleConcat(w, pre, [c] + post);
    assert ReactsGently(w, cmd.parts, w.clients[0]);
    assert forall k :: k in w.clients ==> k == w.clients[0] || k in w.clients[1..];
    GentleFanOutGoesThrough(w, cmd);
  }

  lemma NotGentle(w: World, cmd: Cmd, pre: seq<Cmd>, c: Cmd, post: seq<Cmd>)
    requires Shape(w) && Listed(w) && w.queue == [] && GentleBut(w, cmd, pre, c, post) && !Gentle(w)(c)
    requires Readable(w, w.clients[0])
    ensures Top(w, cmd).raised
  {
    assert cmd.parts == [cmd.parts[0]];
    assert w.clients == [w.clients[0]] + w.clients[1..];
    UngentleStopsTheLoop(w, cmd.parts[0], w.clients[0], w.clients[1..], pre, c, post);
    FanOutIsTheLoop(w, cmd);
  }

  lemma FanOutIsTheLoop(w: World, cmd: Cmd)
    requires Shape(w) && cmd.Downstream? && cmd.kind.FanOutKind?
    ensures Top(w, cmd) == Loose(w, w.clients, cmd.parts, w.clients)
  {
  }

  // What an idle pump leaves of an open session can be read, if nothing foreign is in the way.
  lemma OwnIsReadable(n: nat, calls: seq<Cmd>, k: nat)
    requires var w := History(n, calls);
             w.queue == [] && Open(w, k) && Own(w.sats[w.conns[k].sat].cipher, k)
    ensures Readable(History(n, calls), k)
  {
    EndsAgreeWhenIdle(n, calls, k);
  }

  /** The exact condition for one command: in any run, on an idle harness where the first peer's session
      is open and its satellite holds no other session's transport, and with every other command of
      every reaction gentle, the loop goes through if and only if this one is gentle too. */
  lemma DirectFanOutGoesThroughIff(n: nat, calls: seq<Cmd>, cmd: Cmd, pre: seq<Cmd>, c: Cmd, post: seq<Cmd>)
    requires GentleBut(History(n, calls), cmd, pre, c, post)
    requires var w := History(n, calls);
             w.queue == [] && Open(w, w.clients[0]) && Own(w.sats[w.conns[w.clients[0]].sat].cipher, w.clients[0])
    ensures !Top(History(n, calls), cmd).raised <==> Gentle(History(n, calls))(c)
  {
    var w := History(n, calls);
    if Gentle(w)(c) {
      GentleToo(w, cmd, pre, c, post);
    } else {
      ListedHolds(n, calls);
      OwnIsReadable(n, calls, w.clients[0]);
      NotGentle(w, cmd, pre, c, post);
    }
  }
}
