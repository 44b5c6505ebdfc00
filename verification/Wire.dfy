/**
 The in-process wire of hivescope/node.py and hivescope/plugins/network.py as a step machine:
 one master, its connections, the satellites on the other end, and the queue of the delivery
 pump. Everything a handler or a test does is a finite program of `Cmd`; what a program does
 when the pump is draining is `Exec`, what a queued action does when it is popped is `Perform`,
 and what a call made outside any drain does is `Top`.
 */
module Wire {
  import opened Options
  import opened Lists
  import Lifecycle

  // ----- programs -----

  datatype Prog = Prog(cmds: seq<Cmd>)

  // One frame of a message. `react[k]` is what the receiving satellite's handler does when the
  // frame was sent on connection k.
  datatype Part = Part(react: seq<Prog>)

  datatype SendKind = FanOutKind | EscalateKind | TargetedKind

  datatype Cmd =
    | Direct(conn: nat, parts: seq<Part>)             // conn.send(...)
    | ToSatellite(conn: nat, parts: seq<Part>)        // master.send_to_satellite(...)
    | ToAll(parts: seq<Part>)                         // master.send_to_all(...)
    | OnBus(body: Prog)                               // master.emit_on_bus(...), with its bus handlers
    | Downstream(kind: SendKind, peer: Option<nat>, parts: seq<Part>, onError: Prog) // agent.handle_send
    | Addressed(destination: seq<nat>, parts: seq<Part>) // agent.handle_internal_mycroft
    | FromSatellite(sat: nat, gap: nat, msgType: string, admitted: bool, body: Prog) // satellite.send
    | Connect(sat: nat)                               // satellite.connect(master)
    | Close(sat: nat, path: Lifecycle.ClosePath)      // satellite.disconnect, or _on_disconnect
    | Raise

  // ----- state -----

  // How a frame was encoded: in clear, or with a session's transport at some nonce.
  datatype Seal = Clear | Sealed(session: nat, nonce: nat)

  // Offer is the server's HANDSHAKE, Reply is Noise message 2.
  datatype Payload = Hello | Offer | Reply | Plain(react: seq<Cmd>)

  // `via` is the connection that encoded the frame, `bound` the one `_receive_raw` bound.
  datatype Frame = Frame(via: nat, bound: nat, sat: nat, seal: Seal, payload: Payload)

  // What a satellite's recorder notes of a send: its sequence mark and type, and whether the
  // master's policy will let it through.
  datatype Message = Message(mark: nat, msgType: string, admitted: bool)

  datatype Task =
    | Arrive(frame: Frame)                            // _decode_and_dispatch
    | Handle(sat: nat, message: Message, sentAt: nat, body: Prog) // hm_protocol.handle_message
    | Shake(sat: nat, attempt: nat)                   // handle_message of Noise message 1
    | StartHandshake(sat: nat)                        // slave_protocol.start_handshake
    | WireUp(sat: nat)                                // network_protocol.connect_satellite
    | Body(body: Prog)                                // agent_protocol.bus.emit
    | SendOn(conn: nat, parts: seq<Part>)             // conn.send
    | Broadcast(parts: seq<Part>)                     // the closure of send_to_all

  // A connection: whose it is, and the master's transport (its next send nonce) once installed.
  datatype Conn = Conn(sat: nat, noise: Option<nat>)

  // The satellite's own transport: the session it belongs to and the next receive nonce.
  datatype Cipher = Cipher(session: nat, nonce: nat)

  // A frame as the master's recorder saw it leave; dropped when the satellite had no connection.
  datatype Out = Out(frame: Frame, dropped: bool)

  // An inbound record at the satellite: the frame and the transport its decode borrowed. `live`
  // says the session that encoded the frame was still the satellite's open session; `held` that its
  // transport had been installed and the satellite not closed since.
  datatype In = In(frame: Frame, borrowed: Option<Cipher>, live: bool, held: bool)

  // What happened to a satellite: a connection was made, a session's transport installed, all closed.
  datatype Life = Made(conn: nat) | Installed(session: nat) | Closed

  // A message taken from the queue: on the connection it was handled on, or lost for want of one.
  // The stamps count what had happened to the satellite when it was sent and when it was taken.
  datatype Arrival = Arrival(sat: nat, conn: Option<nat>, message: Message, sentAt: nat, takenAt: nat)

  // A bus_inject record at the master.
  datatype Injected = Injected(sat: nat, conn: nat, msgType: string, mark: nat)

  // `born` counts the connections made before the satellite's last close; `sent` is what its own
  // recorder saw leave.
  datatype Sat = Sat(current: Option<nat>, cipher: Option<Cipher>, attempt: Option<nat>, lastMark: nat,
                     born: nat, life: seq<Life>, sent: seq<Message>, outs: seq<Out>, ins: seq<In>)

  const NEW_SAT := Sat(None, None, None, 0, 0, [], [], [], [])

  datatype World = World(conns: seq<Conn>, sats: seq<Sat>, clients: seq<nat>, queue: seq<Task>,
                         arrivals: seq<Arrival>, injected: seq<Injected>)

  datatype Res = Res(w: World, raised: bool)

  // ----- sending downstream -----

  function React(p: Part, k: nat): seq<Cmd>
  {
    if k < |p.react| then p.react[k].cmds else []
  }

  // What session k's next frame is sealed with.
  function SealAt(k: nat, noise: Option<nat>): Seal
  {
    if noise.None? then Clear else Sealed(k, noise.value)
  }

  function SealOf(conns: seq<Conn>, k: nat): Seal
    requires k < |conns|
  {
    SealAt(k, conns[k].noise)
  }

  function Bump(c: Conn): Conn
  {
    if c.noise.None? then c else c.(noise := Some(c.noise.value + 1))
  }

  predicate Wired(w: World, k: nat)
  {
    k < |w.conns| && w.conns[k].sat < |w.sats|
  }

  // One frame encoded now and handed to `_receive_raw`, which only enqueues.
  function Put(w: World, k: nat, payload: Payload): World
  {
    if !Wired(w, k) then w else
      var s := w.conns[k].sat;
      var here := w.sats[s].current;
      var f := Frame(k, if here.Some? then here.value else k, s, SealOf(w.conns, k), payload);
      w.(conns := w.conns[k := Bump(w.conns[k])],
         sats := w.sats[s := w.sats[s].(outs := w.sats[s].outs + [Out(f, here.None?)])],
         queue := if here.Some? then w.queue + [Arrive(f)] else w.queue)
  }

  // The frames of one message, in order.
  function PutParts(w: World, k: nat, parts: seq<Part>): World
    decreases parts
  {
    if parts == [] then w
    else PutParts(Put(w, k, Plain(React(parts[0], k))), k, parts[1..])
  }

  // One message to each of a list of connections.
  function FanOut(w: World, ks: seq<nat>, parts: seq<Part>): World
    decreases ks
  {
    if ks == [] then w else FanOut(PutParts(w, ks[0], parts), ks[1..], parts)
  }

  // The table entries that a destination list names, in table order.
  function Named(clients: seq<nat>, destination: seq<nat>): seq<nat>
  {
    if clients == [] then []
    else (if clients[0] in destination then [clients[0]] else []) + Named(clients[1..], destination)
  }

  function Enqueue(w: World, t: Task): World
  {
    w.(queue := w.queue + [t])
  }

  // ----- the life of a connection -----

  // `_forget_session`, when `made` connections exist.
  function Forgotten(sat: Sat, made: nat): Sat
  {
    sat.(current := None, cipher := None, attempt := None, born := made, life := Ended(sat.life))
  }

  function Ended(life: seq<Life>): seq<Life>
  {
    if life != [] && Last(life) == Closed then life else life + [Closed]
  }

  // The end state both close paths reach.
  function CloseSat(w: World, s: nat): World
  {
    if s >= |w.sats| then w else
      var here := w.sats[s].current;
      w.(clients := if here.Some? then Without(w.clients, here.value) else w.clients,
         sats := w.sats[s := Forgotten(w.sats[s], |w.conns|)])
  }

  function Joined(sat: Sat, k: nat): Sat
  {
    sat.(current := Some(k), life := sat.life + [Made(k)])
  }

  // `connect_satellite`: store the connection, then let the master greet.
  function Attach(w: World, s: nat): World
    requires s < |w.sats|
  {
    var k := |w.conns|;
    var w1 := w.(conns := w.conns + [Conn(s, None)],
                 sats := w.sats[s := Joined(w.sats[s], k)],
                 clients := w.clients + [k]);
    Put(Put(w1, k, Hello), k, Offer)
  }

  // The satellite answers an offer, or starts the handshake itself: Noise message 1.
  function Ask(w: World, s: nat): Res
    requires s < |w.sats|
  {
    var here := w.sats[s].current;
    if here.None? then Res(w, true)
    else
      Res(Enqueue(w.(sats := w.sats[s := w.sats[s].(attempt := here)]), Shake(s, here.value)), false)
  }

  // The master's handler of Noise message 1: send message 2 in clear, then install the transport.
  function Answer(w: World, k: nat): World
  {
    var w1 := Put(w, k, Reply);
    if k < |w1.conns| then w1.(conns := w1.conns[k := w1.conns[k].(noise := Some(0))]) else w1
  }

  // ----- receiving -----

  predicate Decodes(cipher: Option<Cipher>, seal: Seal)
  {
    match seal
    case Clear => cipher.None?
    case Sealed(session, nonce) => cipher == Some(Cipher(session, nonce))
  }

  // The receive nonce moves only when a sealed frame authenticates.
  function AfterDecode(cipher: Option<Cipher>, seal: Seal): Option<Cipher>
  {
    if seal.Sealed? && Decodes(cipher, seal)
    then Some(Cipher(cipher.value.session, cipher.value.nonce + 1)) else cipher
  }

  // Session k's transport was installed, and no close came after.
  predicate Holds(life: seq<Life>, k: nat)
  {
    exists i :: 0 <= i < |life| && life[i] == Installed(k) && forall j :: i < j < |life| ==> life[j] != Closed
  }

  predicate Live(w: World, f: Frame)
  {
    f.sat < |w.sats| && f.via < |w.conns| && w.sats[f.sat].current == Some(f.via)
  }

  function Record(w: World, f: Frame): World
    requires f.sat < |w.sats|
  {
    var sat := w.sats[f.sat];
    var entry := In(f, sat.cipher, Live(w, f), Holds(sat.life, f.via));
    w.(sats := w.sats[f.sat := sat.(ins := sat.ins + [entry], cipher := AfterDecode(sat.cipher, f.seal))])
  }

  // The satellite's own transport of session k.
  function Install(w: World, s: nat, k: nat): World
    requires s < |w.sats|
  {
    w.(sats := w.sats[s := w.sats[s].(cipher := Some(Cipher(k, 0)), life := w.sats[s].life + [Installed(k)])])
  }

  // What the satellite's handler of a decoded frame does.
  function Dispatch(w: World, f: Frame): Res
    requires f.sat < |w.sats|
  {
    match f.payload
    case Hello => Res(w, false)
    case Offer => Ask(w, f.sat)
    case Reply =>
      if w.sats[f.sat].attempt == Some(f.via)
      then Res(Install(w, f.sat, f.via), false)
      else Res(w, true)
    case Plain(react) => Exec(w, react)
  }

  function DecodeAndDispatch(w: World, f: Frame): Res
    requires f.sat < |w.sats|
  {
    if Decodes(w.sats[f.sat].cipher, f.seal) then Dispatch(Record(w, f), f) else Res(Record(w, f), false)
  }

  // A satellite sends: recorded now, handled when its turn comes.
  function SendUp(w: World, s: nat, m: Message, body: Prog): World
    requires s < |w.sats|
  {
    Enqueue(w.(sats := w.sats[s := w.sats[s].(lastMark := m.mark, sent := w.sats[s].sent + [m])]),
            Handle(s, m, |w.sats[s].life|, body))
  }

  // How much has happened to satellite s.
  function Now(w: World, s: nat): nat
  {
    if s < |w.sats| then |w.sats[s].life| else 0
  }

  // The message is lost: the satellite has no connection any more.
  function Lose(w: World, s: nat, m: Message, sentAt: nat): World
  {
    w.(arrivals := w.arrivals + [Arrival(s, None, m, sentAt, Now(w, s))])
  }

  // The master handles the message on connection k, and injects it if the policy admits it.
  function Receive(w: World, s: nat, k: nat, m: Message, sentAt: nat): World
  {
    w.(arrivals := w.arrivals + [Arrival(s, Some(k), m, sentAt, Now(w, s))],
       injected := if m.admitted then w.injected + [Injected(s, k, m.msgType, m.mark)] else w.injected)
  }

  // ----- running programs inside a drain -----

  predicate Established(w: World, s: nat)
  {
    s < |w.sats| && w.sats[s].cipher.Some?
  }

  function Step(w: World, c: Cmd): Res
    decreases c
  {
    match c
    case Direct(k, parts) => Res(PutParts(w, k, parts), false)
    case ToSatellite(k, parts) =>
      if k in w.clients then Res(Enqueue(w, SendOn(k, parts)), false) else Res(w, true)
    case ToAll(parts) => Res(Enqueue(w, Broadcast(parts)), false)
    case OnBus(body) => Res(Enqueue(w, Body(body)), false)
    case Downstream(kind, peer, parts, onError) =>
      if kind.FanOutKind? then Res(FanOut(w, w.clients, parts), false)
      else if kind.EscalateKind? || peer.None? then Res(w, false)
      else if peer.value in w.clients then Res(PutParts(w, peer.value, parts), false)
      else Exec(w, onError.cmds)
    case Addressed(destination, parts) => Res(FanOut(w, Named(w.clients, destination), parts), false)
    case FromSatellite(s, gap, msgType, admitted, body) =>
      if s >= |w.sats| || w.sats[s].current.None? then Res(w, true)
      else
        Res(SendUp(w, s, Message(w.sats[s].lastMark + 1 + gap, msgType, admitted), body), false)
    case Connect(s) =>
      if Established(w, s) then Res(Enqueue(w, WireUp(s)), false)
      else Res(Enqueue(Enqueue(w, WireUp(s)), StartHandshake(s)), true)
    case Close(s, _) => Res(CloseSat(w, s), false)
    case Raise => Res(w, true)
  }

  function Exec(w: World, cmds: seq<Cmd>): Res
    decreases cmds
  {
    if cmds == [] then Res(w, false) else
      var r := Step(w, cmds[0]);
      if r.raised then r else Exec(r.w, cmds[1..])
  }

  // A popped action.
  function Perform(w: World, t: Task): Res
  {
    match t
    case Arrive(f) => if f.sat < |w.sats| then DecodeAndDispatch(w, f) else Res(w, false)
    case Handle(s, m, sentAt, body) =>
      if s >= |w.sats| || w.sats[s].current.None? then Res(Lose(w, s, m, sentAt), true)
      else Exec(Receive(w, s, w.sats[s].current.value, m, sentAt), body.cmds)
    case Shake(s, attempt) =>
      if s >= |w.sats| || w.sats[s].current.None? then Res(w, true)
      else
        var k := w.sats[s].current.value;
        if k == attempt && k < |w.conns| && w.conns[k].noise.None? then Res(Answer(w, k), false)
        else Res(w, false)
    case StartHandshake(s) => if s < |w.sats| then Ask(w, s) else Res(w, false)
    case WireUp(s) => if s < |w.sats| then Res(Attach(w, s), false) else Res(w, false)
    case Body(body) => Exec(w, body.cmds)
    case SendOn(k, parts) => Res(PutParts(w, k, parts), false)
    case Broadcast(parts) => Res(FanOut(w, w.clients, parts), false)
  }

  function Pop(w: World): World
    requires w.queue != []
  {
    w.(queue := w.queue[1..])
  }

  // ----- well-formed worlds -----

  predicate FrameFits(conns: seq<Conn>, sats: nat, f: Frame)
  {
    && f.via < |conns| && f.bound < |conns| && f.sat < sats
    && conns[f.via].sat == f.sat && conns[f.bound].sat == f.sat
  }

  predicate Shape(w: World)
  {
    && (forall k :: 0 <= k < |w.conns| ==> w.conns[k].sat < |w.sats|)
    && (forall s :: 0 <= s < |w.sats| && w.sats[s].current.Some? ==>
          w.sats[s].current.value < |w.conns| && w.conns[w.sats[s].current.value].sat == s)
    && (forall i :: 0 <= i < |w.clients| ==> w.clients[i] < |w.conns|)
    && Distinct(w.clients)
    && (forall i :: 0 <= i < |w.queue| && w.queue[i].Arrive? ==> FrameFits(w.conns, |w.sats|, w.queue[i].frame))
    && (forall i :: 0 <= i < |w.queue| && w.queue[i].Shake? ==> w.queue[i].attempt < |w.conns|)
  }

  // ----- the measure of a drain -----

  // Total number of commands in a program, each call weighted by the pops it leads to.
  function Work(cmds: seq<Cmd>): nat
    decreases cmds, 1
  {
    if cmds == [] then 0 else 1 + CmdWork(cmds[0]) + Work(cmds[1..])
  }

  function CmdWork(c: Cmd): nat
    decreases c, 0
  {
    match c
    case Direct(_, parts) => PartsWork(parts)
    case ToSatellite(_, parts) => 1 + PartsWork(parts)
    case ToAll(parts) => 1 + PartsWork(parts)
    case OnBus(body) => Work(body.cmds)
    case Downstream(_, _, parts, onError) => PartsWork(parts) + Work(onError.cmds)
    case Addressed(_, parts) => PartsWork(parts)
    case FromSatellite(_, _, _, _, body) => Work(body.cmds)
    case Connect(_) => 5
    case Close(_, _) => 0
    case Raise => 0
  }

  function PartsWork(parts: seq<Part>): nat
    decreases parts, 0
  {
    if parts == [] then 0 else ReactWork(parts[0].react) + PartsWork(parts[1..])
  }

  function ReactWork(react: seq<Prog>): nat
    decreases react, 0
  {
    if react == [] then 0 else Work(react[0].cmds) + ReactWork(react[1..])
  }

  function TaskWork(t: Task): nat
  {
    match t
    case Arrive(f) => PayloadWork(f.payload)
    case Handle(_, _, _, body) => Work(body.cmds)
    case Shake(_, _) => 1
    case StartHandshake(_) => 2
    case WireUp(_) => 3
    case Body(body) => Work(body.cmds)
    case SendOn(_, parts) => 1 + PartsWork(parts)
    case Broadcast(parts) => 1 + PartsWork(parts)
  }

  function PayloadWork(p: Payload): nat
  {
    match p
    case Hello => 0
    case Offer => 2
    case Reply => 0
    case Plain(react) => Work(react)
  }

  function Load(q: seq<Task>): nat
  {
    if q == [] then 0 else TaskWork(q[0]) + Load(q[1..])
  }
}
