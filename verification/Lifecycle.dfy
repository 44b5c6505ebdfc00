/**
 Closing a satellite (hivescope/node.py): `disconnect`, the master-initiated `_on_disconnect`,
 and `_forget_session`, which both end in. The two paths re-enter each other through the master's
 `handle_client_disconnected`, which removes the peer and then calls the connection's disconnect
 callback, that is `_on_disconnect`.
 */
module Lifecycle {
  import opened Options

  // A connection object: which one it is, and the peer name the master files it under.
  datatype Conn = Conn(id: nat, peer: string)

  // A master's client table and the closes reported to it, oldest first.
  datatype Master = Master(clients: map<string, nat>, reports: seq<nat>)

  // What belongs to one session on the satellite's side.
  datatype Session = Session(transport: Option<nat>, cryptoKey: Option<string>, handshakeDone: bool,
                             hello: Option<string>, offer: Option<string>)

  const NO_SESSION := Session(None, None, false, None, None)

  datatype State = State(connection: Option<Conn>, master: Option<nat>, session: Session,
                         identity: string, pin: Option<string>,
                         masters: seq<Master>, made: nat)

  datatype ClosePath = Disconnect | OnDisconnect

  // ----- what a close does, without its re-entries -----

  function Forget(s: State): State
  {
    s.(connection := None, session := NO_SESSION)
  }

  function Told(masters: seq<Master>, m: nat, c: Conn): seq<Master>
  {
    if m >= |masters| then masters
    else masters[m := Master(masters[m].clients - {c.peer}, masters[m].reports + [c.id])]
  }

  function Report(s: State, m: nat, c: Conn): State
  {
    s.(masters := Told(s.masters, m, c))
  }

  predicate Attached(s: State)
  {
    s.connection.Some? && s.master.Some?
  }

  predicate Listed(s: State)
  {
    && Attached(s) && s.master.value < |s.masters|
    && s.connection.value.peer in s.masters[s.master.value].clients
  }

  function Close(path: ClosePath, s: State): State
  {
    match path
    case Disconnect =>
      if Attached(s) then Forget(Report(s, s.master.value, s.connection.value)).(master := None)
      else Forget(s)
    case OnDisconnect =>
      if Listed(s) then Forget(Report(s, s.master.value, s.connection.value)).(master := None)
      else Forget(s).(master := None)
  }

  /** Either path, from any state: the session is gone, identity, pin and connection counter are
      as they were, at most one close is reported, to the satellite's own master, and no other
      client is touched. */
  lemma CloseForgetsTheSession(path: ClosePath, s: State)
    ensures var s' := Close(path, s);
            && s'.connection.None? && s'.session == NO_SESSION
            && s'.identity == s.identity && s'.pin == s.pin && s'.made == s.made
            && s'.master == (if path.Disconnect? && s.connection.None? then s.master else None)
            && |s'.masters| == |s.masters|
            && (forall m :: 0 <= m < |s.masters| ==>
                  var reported := s.master == Some(m) && s.connection.Some? && (path.Disconnect? || Listed(s));
                  s'.masters[m] ==
                    if reported then Master(s.masters[m].clients - {s.connection.value.peer},
                                            s.masters[m].reports + [s.connection.value.id])
                    else s.masters[m])
  {
  }

  /** A second close, by either path, changes nothing, except that `_on_disconnect` drops a master
      reference which `disconnect` leaves alone when there was no connection to close. */
  lemma SecondCloseChangesNothing(first: ClosePath, second: ClosePath, s: State)
    ensures Close(second, Close(first, s)) == Close(first, s)
            <==> !(first.Disconnect? && second.OnDisconnect? && s.connection.None? && s.master.Some?)
    ensures Close(second, Close(first, s)).(master := None) == Close(first, s).(master := None)
  {
  }

  // ----- lives of a satellite -----

  // How `connect` can end: before a connection exists, with an unfinished handshake, or well.
  datatype Outcome = NoConnection | NoHandshake | Negotiated(transport: nat, hello: string, offer: string, key: string)

  datatype Op = Connect(master: nat, peer: string, outcome: Outcome) | Closing(path: ClosePath)

  function Connecting(s: State, m: nat, peer: string, outcome: Outcome): State
  {
    var s1 := s.(master := Some(m));
    if outcome.NoConnection? || m >= |s.masters| then s1 else
      var s2 := s1.(connection := Some(Conn(s.made, peer)), made := s.made + 1,
                    masters := s.masters[m := s.masters[m].(clients := s.masters[m].clients[peer := s.made])]);
      match outcome
      case Negotiated(transport, hello, offer, key) =>
        s2.(session := Session(Some(transport), None, true, Some(hello), Some(offer)),
            pin := if s.pin.None? then Some(key) else s.pin)
      case _ => s2
  }

  /** What a connect leaves: the master's reference in any case; once a connection exists, a new one that
      the master has under its peer name, other clients and all reports untouched; and the session's state
      exactly when it was negotiated. */
  lemma ConnectOpensANewConnection(s: State, m: nat, peer: string, outcome: Outcome)
    ensures var s' := Connecting(s, m, peer, outcome);
            && s'.master == Some(m) && s'.identity == s.identity && |s'.masters| == |s.masters|
            && (outcome.NoConnection? || m >= |s.masters| ==>
                  s'.connection == s.connection && s'.session == s.session && s'.masters == s.masters)
            && (!outcome.NoConnection? && m < |s.masters| ==>
                  && s'.connection == Some(Conn(s.made, peer)) && s'.made == s.made + 1
                  && (forall p :: p in s'.masters[m].clients <==> p in s.masters[m].clients || p == peer)
                  && s'.masters[m].clients[peer] == s.made
                  && (forall p :: p in s.masters[m].clients && p != peer ==>
                        s'.masters[m].clients[p] == s.masters[m].clients[p])
                  && (forall n :: 0 <= n < |s.masters| ==>
                        s'.masters[n].reports == s.masters[n].reports && (n != m ==> s'.masters[n] == s.masters[n]))
                  && (outcome.NoHandshake? ==> s'.session == s.session)
                  && (outcome.Negotiated? ==>
                        && s'.session.transport == Some(outcome.transport) && s'.session.handshakeDone
                        && s'.session.hello == Some(outcome.hello) && s'.session.offer == Some(outcome.offer)))
  {
  }

  function Apply(s: State, op: Op): State
  {
    match op
    case Connect(m, peer, outcome) => Connecting(s, m, peer, outcome)
    case Closing(path) => Close(path, s)
  }

  function Life(identity: string, masters: nat, ops: seq<Op>): State
  {
    if ops == [] then State(None, None, NO_SESSION, identity, None, seq(masters, _ => Master(map[], [])), 0)
    else Apply(Life(identity, masters, ops[..|ops| - 1]), ops[|ops| - 1])
  }

  predicate Reported(masters: seq<Master>, m: int, i: int)
  {
    0 <= m < |masters| && 0 <= i < |masters[m].reports|
  }

  // Connection ids reported to any master are below `made`, distinct, and not the open one's.
  ghost predicate ReportsFit(masters: seq<Master>, open: Option<Conn>, made: nat)
  {
    && (open.Some? ==> open.value.id < made)
    && (forall m, i | Reported(masters, m, i) ::
          && masters[m].reports[i] < made
          && (open.Some? ==> masters[m].reports[i] != open.value.id))
    && (forall m, i, m', i' | Reported(masters, m, i) && Reported(masters, m', i') && (m != m' || i != i') ::
          masters[m].reports[i] != masters[m'].reports[i'])
  }

  lemma ToldFits(masters: seq<Master>, m: nat, c: Conn, made: nat)
    requires ReportsFit(masters, Some(c), made)
    ensures ReportsFit(Told(masters, m, c), None, made)
  {
    var masters' := Told(masters, m, c);
    forall m', i | Reported(masters', m', i)
      ensures masters'[m'].reports[i] == if Reported(masters, m', i) then masters[m'].reports[i] else c.id
      ensures Reported(masters, m', i) || (m' == m && i == |masters[m].reports|)
    {
    }
  }

  lemma CloseKeepsReports(path: ClosePath, s: State)
    requires ReportsFit(s.masters, s.connection, s.made)
    ensures var s' := Close(path, s); ReportsFit(s'.masters, s'.connection, s'.made)
  {
    if Attached(s) {
      ToldFits(s.masters, s.master.value, s.connection.value, s.made);
    }
  }

  // A connect only ever opens a connection with the next id.
  lemma ConnectKeepsReports(s: State, m: nat, peer: string, outcome: Outcome)
    requires ReportsFit(s.masters, s.connection, s.made)
    ensures var s' := Connecting(s, m, peer, outcome); ReportsFit(s'.masters, s'.connection, s'.made)
  {
    var s' := Connecting(s, m, peer, outcome);
    forall m', i | Reported(s'.masters, m', i)
      ensures Reported(s.masters, m', i) && s'.masters[m'].reports[i] == s.masters[m'].reports[i]
    {
    }
  }

  /** Over any sequence of connects and closes, to any masters, a connection is reported closed at
      most once in all. */
  lemma {:induction false} EachConnectionIsReportedOnce(identity: string, masters: nat, ops: seq<Op>)
    ensures var s := Life(identity, masters, ops); ReportsFit(s.masters, s.connection, s.made)
  {
    if ops != [] {
      var before := ops[..|ops| - 1];
      EachConnectionIsReportedOnce(identity, masters, before);
      match ops[|ops| - 1]
      case Closing(path) => CloseKeepsReports(path, Life(identity, masters, before));
      case Connect(m, peer, outcome) => ConnectKeepsReports(Life(identity, masters, before), m, peer, outcome);
    }
  }

  lemma StepKeepsPin(s: State, op: Op)
    ensures Apply(s, op).identity == s.identity && (s.pin.Some? ==> Apply(s, op).pin == s.pin)
  {
    if op.Closing? {
      CloseForgetsTheSession(op.path, s);
    }
  }

  lemma {:induction false} IdentityHolds(identity: string, masters: nat, ops: seq<Op>)
    ensures Life(identity, masters, ops).identity == identity
  {
    if ops != [] {
      IdentityHolds(identity, masters, ops[..|ops| - 1]);
      StepKeepsPin(Life(identity, masters, ops[..|ops| - 1]), ops[|ops| - 1]);
    }
  }

  /** The pin outlives every close: once a session was negotiated, every later state has the key
      of the first one, and the identity never changes. */
  lemma {:induction false} PinHolds(identity: string, masters: nat, ops: seq<Op>, more: seq<Op>)
    ensures var s, s' := Life(identity, masters, ops), Life(identity, masters, ops + more);
            s'.identity == identity && (s.pin.Some? ==> s'.pin == s.pin)
    decreases |more|
  {
    IdentityHolds(identity, masters, ops + more);
    var all := ops + more;
    if more == [] {
      assert all == ops;
    } else {
      var before := more[..|more| - 1];
      assert all[..|all| - 1] == ops + before;
      PinHolds(identity, masters, ops, before);
      StepKeepsPin(Life(identity, masters, ops + before), all[|all| - 1]);
    }
  }

  // The key of a connect that was negotiated with a master that exists.
  function KeyOf(masters: nat, op: Op): Option<string>
  {
    match op
    case Connect(m, _, Negotiated(_, _, _, key)) => if m < masters then Some(key) else None
    case _ => None
  }

  // The first such key.
  function FirstKey(masters: nat, ops: seq<Op>): Option<string>
  {
    if ops == [] then None
    else if KeyOf(masters, ops[0]).Some? then KeyOf(masters, ops[0])
    else FirstKey(masters, ops[1..])
  }

  lemma {:induction false} FirstKeyPush(masters: nat, ops: seq<Op>, op: Op)
    ensures FirstKey(masters, ops + [op])
            == if FirstKey(masters, ops).Some? then FirstKey(masters, ops) else KeyOf(masters, op)
  {
    if ops == [] {
      assert ops + [op] == [op] && [op][1..] == [];
    } else {
      assert (ops + [op])[1..] == ops[1..] + [op];
      FirstKeyPush(masters, ops[1..], op);
    }
  }

  /** The pin after any life: the server key of its first negotiated connect, and none when there was
      none. */
  lemma {:induction false} PinIsTheFirstKey(identity: string, masters: nat, ops: seq<Op>)
    ensures |Life(identity, masters, ops).masters| == masters
    ensures Life(identity, masters, ops).pin == FirstKey(masters, ops)
  {
    if ops != [] {
      var before, last := ops[..|ops| - 1], ops[|ops| - 1];
      PinIsTheFirstKey(identity, masters, before);
      assert ops == before + [last];
      FirstKeyPush(masters, before, last);
    }
  }

  // ----- the methods, with their mutual re-entry -----

  class SatelliteNode {
    var connection: Option<Conn>
    var master: Option<nat>
    var session: Session
    const identity: string
    var pin: Option<string>
    var masters: seq<Master>
    var made: nat

    function View(): State
      reads this
    {
      State(connection, master, session, identity, pin, masters, made)
    }

    constructor (identity: string, n: nat)
      ensures View() == Life(identity, n, [])
    {
      this.identity := identity;
      connection, master, session, pin, made := None, None, NO_SESSION, None, 0;
      masters := seq(n, _ => Master(map[], []));
    }

    // `_forget_session`
    method ForgetSession()
      modifies this
      ensures View() == Forget(old(View()))
    {
      connection := None;
      session := NO_SESSION;
    }

    // The master's `handle_client_disconnected`: remove the peer, then call the connection's
    // disconnect callback.
    method HandleClientDisconnected(m: nat, c: Conn)
      modifies this
      ensures View() == Close(OnDisconnect, Report(old(View()), m, c))
      decreases if connection.Some? then 1 else 0, 3
    {
      if m < |masters| {
        masters := masters[m := Master(masters[m].clients - {c.peer}, masters[m].reports + [c.id])];
      }
      assert View() == Report(old(View()), m, c);
      OnDisconnectCallback();
    }

    // `_on_disconnect`
    method OnDisconnectCallback()
      modifies this
      ensures View() == Close(OnDisconnect, old(View()))
      decreases if connection.Some? then 1 else 0, if connection.Some? then 2 else 0
    {
      var conn, owner := connection, master;
      connection := None;
      master := None;
      if conn.Some? && owner.Some? && owner.value < |masters| && conn.value.peer in masters[owner.value].clients {
        HandleClientDisconnected(owner.value, conn.value);
      }
      ForgetSession();
    }

    // `disconnect`
    method DisconnectNow()
      modifies this
      ensures View() == Close(Disconnect, old(View()))
    {
      if connection.Some? && master.Some? {
        HandleClientDisconnected(master.value, connection.value);
      }
      ForgetSession();
    }
  }
}
