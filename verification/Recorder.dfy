/**
 The message recorder of hivescope/recorder.py: the record list with its lookups, and the waiter
 protocol of `wait_for` as a two-thread monitor. Recorders, clearers and other waiters take whole
 steps (they hold the lock); the one waiter we follow is stopped between any two of its own.
 */
module Recorder {
  import opened Options

  datatype Rec = Rec(direction: string, msgType: string, payload: string)

  // What a lookup or a wait asks for.
  datatype Ask = Ask(msgType: string, direction: Option<string>)

  predicate Matches(r: Rec, a: Ask)
  {
    r.msgType == a.msgType && (a.direction.None? || r.direction == a.direction.value)
  }

  // The matching records, oldest first.
  function FindAll(records: seq<Rec>, a: Ask): seq<Rec>
  {
    if records == [] then [] else (if Matches(records[0], a) then [records[0]] else []) + FindAll(records[1..], a)
  }

  // r is the latest match: some record is r and matches, and no later one matches.
  ghost predicate IsLatest(records: seq<Rec>, a: Ask, r: Rec)
  {
    exists i :: && 0 <= i < |records| && records[i] == r && Matches(r, a)
                && forall j :: i < j < |records| ==> !Matches(records[j], a)
  }

  predicate NoMatch(records: seq<Rec>, a: Ask)
  {
    forall i :: 0 <= i < |records| ==> !Matches(records[i], a)
  }

  lemma {:induction false} FindAllConcat(xs: seq<Rec>, ys: seq<Rec>, a: Ask)
    ensures FindAll(xs + ys, a) == FindAll(xs, a) + FindAll(ys, a)
  {
    if xs == [] {
      assert xs + ys == ys;
    } else {
      assert (xs + ys)[1..] == xs[1..] + ys;
      FindAllConcat(xs[1..], ys, a);
    }
  }

  /** The last of the matches is the latest match, and there is none exactly when nothing matches. */
  lemma {:induction false} LastFoundIsLatest(records: seq<Rec>, a: Ask)
    ensures FindAll(records, a) == [] <==> NoMatch(records, a)
    ensures FindAll(records, a) != [] ==> IsLatest(records, a, FindAll(records, a)[|FindAll(records, a)| - 1])
    decreases |records|
  {
    if records != [] {
      var n := |records| - 1;
      var last := records[n];
      assert records == records[..n] + [last];
      FindAllConcat(records[..n], [last], a);
      assert [last][1..] == [];
      LastFoundIsLatest(records[..n], a);
      if Matches(last, a) {
        assert IsLatest(records, a, last);
      } else {
        assert FindAll(records, a) == FindAll(records[..n], a);
        if FindAll(records, a) != [] {
          var i :| 0 <= i < n && records[..n][i] == FindAll(records, a)[|FindAll(records, a)| - 1]
                   && Matches(records[..n][i], a) && forall j :: i < j < n ==> !Matches(records[..n][j], a);
          assert records[i] == records[..n][i];
        }
      }
    }
  }

  // ----- the waiter protocol -----

  // Where the waiter is in `wait_for`.
  datatype Place =
    | Outside                       // not called yet
    | Registered                    // its event is in the list, nothing looked up yet
    | LoopTop                       // about to compute the remaining time
    | Waiting                       // in ev.wait
    | Woken                         // ev.wait returned, by the event or by the clock
    | Empty                         // the lookup after a wait found nothing
    | Resetting                     // the event was set: about to clear it
    | Leaving(result: Option<Rec>)  // in the finally block
    | Returned(result: Option<Rec>)

  type Waiters = map<string, seq<nat>>

  // What the recorder holds: the records, the waiting events by message type, and the events set.
  datatype Shared = Shared(records: seq<Rec>, waiters: Waiters, raised: set<nat>)

  // `looked` is the record list at the waiter's last lookup. `rounds` counts resets of its event,
  // `sinceLook` and `sinceReset` are what was recorded since its last lookup, and since it
  // registered or last reset its event.
  datatype Monitor = Monitor(shared: Shared, place: Place, looked: seq<Rec>, rounds: nat,
                             sinceLook: seq<Rec>, sinceReset: seq<Rec>)

  datatype Action =
    | Record(r: Rec)
    | Clear
    | Join(msgType: string, ev: nat)     // another waiter registers
    | Quit(msgType: string, ev: nat)     // another waiter deregisters
    | Reset(ev: nat)                     // another waiter clears its event
    | Call                               // wait_for begins
    | Lookup                             // either `_find`
    | CheckClock(expired: bool)
    | Wake                               // ev.wait returns; the clock may always end it
    | TestEvent
    | ClearEvent
    | Leave

  function Listed(waiters: Waiters, msgType: string): seq<nat>
  {
    if msgType in waiters then waiters[msgType] else []
  }

  // list.remove: the first occurrence, if any.
  function Removed(evs: seq<nat>, ev: nat): seq<nat>
  {
    if evs == [] then [] else if evs[0] == ev then evs[1..] else [evs[0]] + Removed(evs[1..], ev)
  }

  function Raise(evs: seq<nat>): set<nat>
  {
    set e | e in evs
  }

  function Find(records: seq<Rec>, a: Ask): Option<Rec>
  {
    var all := FindAll(records, a);
    if all == [] then None else Some(all[|all| - 1])
  }

  // ----- what each entry point does to the recorder -----

  function Joined(waiters: Waiters, t: string, ev: nat): Waiters
  {
    waiters[t := Listed(waiters, t) + [ev]]
  }

  function LeftBy(waiters: Waiters, t: string, ev: nat): Waiters
  {
    if ev in Listed(waiters, t) then waiters[t := Removed(Listed(waiters, t), ev)] else waiters
  }

  function Recorded(sh: Shared, r: Rec): Shared
  {
    sh.(records := sh.records + [r], raised := sh.raised + Raise(Listed(sh.waiters, r.msgType)))
  }

  // A waiter clears its event.
  function Lowered(sh: Shared, ev: nat): Shared
  {
    sh.(raised := sh.raised - {ev})
  }

  // An action of somebody else; those of the waiter `me` are not theirs to take.
  function Foreign(sh: Shared, x: Action, me: nat): Shared
  {
    match x
    case Record(r) => Recorded(sh, r)
    case Clear => sh.(records := [])
    case Join(t, ev) => if ev == me then sh else sh.(waiters := Joined(sh.waiters, t, ev))
    case Quit(t, ev) => if ev == me then sh else sh.(waiters := LeftBy(sh.waiters, t, ev))
    case Reset(ev) => if ev == me then sh else Lowered(sh, ev)
    case _ => sh
  }

  predicate IsForeign(x: Action)
  {
    x.Record? || x.Clear? || x.Join? || x.Quit? || x.Reset?
  }

  // One step. `me` is the event of the waiter we follow and `a` what it waits for. A step that is
  // not possible now changes nothing.
  function Step(s: Monitor, x: Action, me: nat, a: Ask): Monitor
  {
    if IsForeign(x) then
      var more := if x.Record? then [x.r] else [];
      s.(shared := Foreign(s.shared, x, me), sinceLook := s.sinceLook + more, sinceReset := s.sinceReset + more)
    else Own(s, x, me, a)
  }

  // A step of the waiter itself.
  function Own(s: Monitor, x: Action, me: nat, a: Ask): Monitor
  {
    match x
    case Call =>
      if !s.place.Outside? then s else
        Monitor(s.shared.(waiters := Joined(s.shared.waiters, a.msgType, me)), Registered, s.looked, s.rounds, [], [])
    case Lookup =>
      if !s.place.Registered? && !s.place.Woken? then s else
        var found := Find(s.shared.records, a);
        s.(looked := s.shared.records, sinceLook := [],
           place := if found.Some? then Leaving(found) else if s.place.Registered? then LoopTop else Empty)
    case CheckClock(expired) =>
      if s.place.LoopTop? then s.(place := if expired then Leaving(None) else Waiting) else s
    case Wake => if s.place.Waiting? then s.(place := Woken) else s
    case TestEvent =>
      if s.place.Empty? then s.(place := if me in s.shared.raised then Resetting else Leaving(None)) else s
    case ClearEvent =>
      if !s.place.Resetting? then s else
        s.(shared := Lowered(s.shared, me), place := LoopTop, rounds := s.rounds + 1, sinceReset := [])
    case Leave =>
      if !s.place.Leaving? then s else
        s.(shared := s.shared.(waiters := LeftBy(s.shared.waiters, a.msgType, me)), place := Returned(s.place.result))
    case _ => s
  }

  // The monitor after any interleaving, starting from any records and other waiters.
  function Run(start: Monitor, actions: seq<Action>, me: nat, a: Ask): Monitor
  {
    if actions == [] then start else Step(Run(start, actions[..|actions| - 1], me, a), actions[|actions| - 1], me, a)
  }

  ghost predicate Initial(s: Monitor, me: nat)
  {
    && s.place.Outside? && s.rounds == 0 && s.sinceLook == s.sinceReset == [] && me !in s.shared.raised
    && forall t :: t in s.shared.waiters ==> me !in s.shared.waiters[t]
  }

  // A step as the other waiters see it, without the one we follow.
  function OthersAfter(others: Waiters, x: Action, me: nat): Waiters
  {
    match x
    case Join(t, ev) => if ev == me then others else Joined(others, t, ev)
    case Quit(t, ev) => if ev == me then others else LeftBy(others, t, ev)
    case _ => others
  }

  // The lists of a run without the waiter we follow.
  function Others(start: Monitor, actions: seq<Action>, me: nat): Waiters
  {
    if actions == [] then start.shared.waiters
    else OthersAfter(Others(start, actions[..|actions| - 1], me), actions[|actions| - 1], me)
  }

  predicate Inside(p: Place)
  {
    !p.Outside? && !p.Returned?
  }

  // me occurs once in evs, and without it evs is others.
  predicate With(evs: seq<nat>, me: nat, others: seq<nat>)
  {
    && me !in others
    && exists i :: 0 <= i <= |others| && evs == others[..i] + [me] + others[i..]
  }

  // While the waiter is inside, its event is in the list of its type t0; all else is the others'.
  ghost predicate MapsFit(waiters: Waiters, others: Waiters, inside: bool, me: nat, t0: string)
  {
    && (forall t :: me !in Listed(others, t))
    && (forall t | t != t0 || !inside :: Listed(waiters, t) == Listed(others, t))
    && (inside ==> With(Listed(waiters, t0), me, Listed(others, t0)))
  }

  ghost predicate ListsFit(s: Monitor, others: Waiters, me: nat, a: Ask)
  {
    MapsFit(s.shared.waiters, others, Inside(s.place), me, a.msgType)
  }

  ghost predicate ResultFits(s: Monitor, a: Ask, result: Option<Rec>)
  {
    if result.Some? then IsLatest(s.looked, a, result.value) else NoMatch(s.looked, a)
  }

  // The waiter's place agrees with what its last lookup saw.
  ghost predicate PlaceFits(s: Monitor, a: Ask)
  {
    && (s.place.LoopTop? || s.place.Waiting? || s.place.Woken? || s.place.Empty? || s.place.Resetting? ==>
          NoMatch(s.looked, a))
    && (s.place.Leaving? || s.place.Returned? ==> ResultFits(s, a, s.place.result))
  }

  predicate OfType(rs: seq<Rec>, msgType: string)
  {
    exists i :: 0 <= i < |rs| && rs[i].msgType == msgType
  }

  // Inside wait_for, the event is set exactly when a record of its type came since the waiter
  // registered or last reset it.
  predicate EventFits(s: Monitor, me: nat, a: Ask)
  {
    && (Inside(s.place) ==> (me in s.shared.raised <==> OfType(s.sinceReset, a.msgType)))
    && (s.place.Outside? ==> me !in s.shared.raised)
  }

  predicate IsTail(short: seq<Rec>, long: seq<Rec>)
  {
    |short| <= |long| && long[|long| - |short|..] == short
  }

  // At the loop's top and in the wait, after the first reset: the reset came after the lookup.
  predicate ResetLast(s: Monitor)
  {
    s.rounds > 0 && (s.place.LoopTop? || s.place.Waiting? || s.place.Woken?)
  }

  // What is recorded came with or after the last lookup; and which came last, lookup or reset.
  predicate SinceFits(s: Monitor)
  {
    Inside(s.place) ==>
      && (!s.place.Registered? ==>
            forall i :: 0 <= i < |s.shared.records| ==>
              s.shared.records[i] in s.looked || s.shared.records[i] in s.sinceLook)
      && (s.place.Registered? ==> s.rounds == 0)
      && (!s.place.Leaving? ==>
            if ResetLast(s) then IsTail(s.sinceReset, s.sinceLook) else IsTail(s.sinceLook, s.sinceReset))
  }

  ghost predicate Inv(s: Monitor, others: Waiters, me: nat, a: Ask)
  {
    && ListsFit(s, others, me, a) && PlaceFits(s, a) && EventFits(s, me, a) && SinceFits(s)
    && (s.place.Outside? ==> s.rounds == 0)
  }

  lemma Assoc(a: seq<nat>, b: seq<nat>, c: seq<nat>)
    ensures a + b + c == a + (b + c)
  {
  }

  lemma {:induction false} RemovedConcat(a: seq<nat>, b: seq<nat>, ev: nat)
    ensures Removed(a + b, ev) == if ev in a then Removed(a, ev) + b else a + Removed(b, ev)
  {
    if a == [] {
      assert a + b == b && a + Removed(b, ev) == Removed(b, ev);
    } else {
      var head, rest := [a[0]], a[1..];
      assert a == head + rest && (a + b)[1..] == rest + b;
      if a[0] != ev {
        RemovedConcat(rest, b, ev);
        Assoc(head, Removed(rest, ev), b);
        Assoc(head, rest, Removed(b, ev));
      }
    }
  }

  lemma RemovedFirst(a: seq<nat>, me: nat, b: seq<nat>)
    requires me !in a
    ensures Removed(a + [me] + b, me) == a + b
  {
    RemovedConcat(a, [me] + b, me);
    assert a + [me] + b == a + ([me] + b) && ([me] + b)[1..] == b;
  }

  lemma WithSplit(a: seq<nat>, me: nat, b: seq<nat>)
    requires me !in a + b
    ensures With(a + [me] + b, me, a + b)
  {
    var others := a + b;
    assert others[..|a|] == a && others[|a|..] == b;
  }

  lemma RemovedOther(evs: seq<nat>, me: nat, others: seq<nat>, ev: nat)
    requires With(evs, me, others) && ev != me
    ensures With(Removed(evs, ev), me, Removed(others, ev))
  {
    RemovedShrinks(others, ev);
    var i :| 0 <= i <= |others| && evs == others[..i] + [me] + others[i..];
    var a, b := others[..i], others[i..];
    assert others == a + b;
    RemovedConcat(a, b, ev);
    RemovedConcat(a + [me], b, ev);
    if ev in a {
      RemovedConcat(a, [me], ev);
      WithSplit(Removed(a, ev), me, b);
    } else {
      WithSplit(a, me, Removed(b, ev));
    }
  }

  lemma {:induction false} RemovedShrinks(evs: seq<nat>, ev: nat)
    ensures forall e :: e in Removed(evs, ev) ==> e in evs
  {
    if evs != [] {
      RemovedShrinks(evs[1..], ev);
    }
  }

  lemma ListedAfter(m: Waiters, t: string, evs: seq<nat>)
    ensures Listed(m[t := evs], t) == evs
    ensures forall u :: u != t ==> Listed(m[t := evs], u) == Listed(m, u)
  {
  }

  lemma WithPush(evs: seq<nat>, me: nat, others: seq<nat>, ev: nat)
    requires With(evs, me, others) && ev != me
    ensures With(evs + [ev], me, others + [ev])
  {
    var i :| 0 <= i <= |others| && evs == others[..i] + [me] + others[i..];
    var more := others + [ev];
    assert more[..i] == others[..i] && more[i..] == others[i..] + [ev];
    assert evs + [ev] == more[..i] + [me] + more[i..];
  }

  // Changing one list, here and in the others' view, to lists that still fit each other.
  lemma ListsChange(waiters: Waiters, others: Waiters, inside: bool, me: nat, t0: string,
                    t: string, mine: seq<nat>, theirs: seq<nat>)
    requires MapsFit(waiters, others, inside, me, t0) && me !in theirs
    requires if t == t0 && inside then With(mine, me, theirs) else mine == theirs
    ensures MapsFit(waiters[t := mine], others[t := theirs], inside, me, t0)
  {
    ListedAfter(others, t, theirs);
    ListedAfter(waiters, t, mine);
    var waiters', others' := waiters[t := mine], others[t := theirs];
    forall u ensures me !in Listed(others', u) {
      assert me !in Listed(others, u);
    }
    forall u | u != t0 || !inside ensures Listed(waiters', u) == Listed(others', u) {
      assert Listed(waiters, u) == Listed(others, u);
    }
  }

  lemma JoinLists(waiters: Waiters, others: Waiters, inside: bool, me: nat, t0: string, t: string, ev: nat)
    requires MapsFit(waiters, others, inside, me, t0) && ev != me
    ensures MapsFit(Joined(waiters, t, ev), Joined(others, t, ev), inside, me, t0)
  {
    var mine, theirs := Listed(waiters, t), Listed(others, t);
    assert me !in theirs + [ev];
    if t == t0 && inside {
      WithPush(mine, me, theirs, ev);
    }
    ListsChange(waiters, others, inside, me, t0, t, mine + [ev], theirs + [ev]);
  }

  lemma WithHas(evs: seq<nat>, me: nat, others: seq<nat>, ev: nat)
    requires With(evs, me, others) && ev != me
    ensures ev in evs <==> ev in others
  {
    var i :| 0 <= i <= |others| && evs == others[..i] + [me] + others[i..];
    assert others == others[..i] + others[i..];
  }

  lemma QuitLists(waiters: Waiters, others: Waiters, inside: bool, me: nat, t0: string, t: string, ev: nat)
    requires MapsFit(waiters, others, inside, me, t0) && ev != me
    ensures MapsFit(LeftBy(waiters, t, ev), LeftBy(others, t, ev), inside, me, t0)
  {
    var mine, theirs := Listed(waiters, t), Listed(others, t);
    RemovedShrinks(theirs, ev);
    if t == t0 && inside {
      WithHas(mine, me, theirs, ev);
      RemovedOther(mine, me, theirs, ev);
    }
    if ev in theirs {
      ListsChange(waiters, others, inside, me, t0, t, Removed(mine, ev), Removed(theirs, ev));
    }
  }

  lemma CallLists(waiters: Waiters, others: Waiters, me: nat, t0: string)
    requires MapsFit(waiters, others, false, me, t0)
    ensures MapsFit(Joined(waiters, t0, me), others, true, me, t0)
  {
    var theirs := Listed(others, t0);
    ListedAfter(waiters, t0, theirs + [me]);
    WithSplit(theirs, me, []);
    assert theirs + [me] + [] == theirs + [me] && theirs + [] == theirs;
    assert Listed(waiters, t0) == theirs;
  }

  lemma LeaveLists(waiters: Waiters, others: Waiters, me: nat, t0: string)
    requires MapsFit(waiters, others, true, me, t0)
    ensures MapsFit(LeftBy(waiters, t0, me), others, false, me, t0)
  {
    var mine, theirs := Listed(waiters, t0), Listed(others, t0);
    var i :| 0 <= i <= |theirs| && mine == theirs[..i] + [me] + theirs[i..];
    RemovedFirst(theirs[..i], me, theirs[i..]);
    assert theirs[..i] + theirs[i..] == theirs;
    var waiters' := LeftBy(waiters, t0, me);
    assert me in mine && waiters' == waiters[t0 := theirs];
    ListedAfter(waiters, t0, theirs);
    forall u ensures Listed(waiters', u) == Listed(others, u) {
      assert u != t0 ==> Listed(waiters, u) == Listed(others, u);
    }
  }

  lemma ListsStep(s: Monitor, others: Waiters, x: Action, me: nat, a: Ask)
    requires ListsFit(s, others, me, a)
    ensures ListsFit(Step(s, x, me, a), OthersAfter(others, x, me), me, a)
  {
    if IsForeign(x) {
      ForeignLists(s, others, x, me, a);
    } else {
      OwnLists(s, others, x, me, a);
    }
  }

  lemma ForeignLists(s: Monitor, others: Waiters, x: Action, me: nat, a: Ask)
    requires ListsFit(s, others, me, a) && IsForeign(x)
    ensures MapsFit(Foreign(s.shared, x, me).waiters, OthersAfter(others, x, me), Inside(s.place), me, a.msgType)
  {
    if x.Join? && x.ev != me {
      JoinLists(s.shared.waiters, others, Inside(s.place), me, a.msgType, x.msgType, x.ev);
    } else if x.Quit? && x.ev != me {
      QuitLists(s.shared.waiters, others, Inside(s.place), me, a.msgType, x.msgType, x.ev);
    }
  }

  lemma OwnLists(s: Monitor, others: Waiters, x: Action, me: nat, a: Ask)
    requires ListsFit(s, others, me, a) && !IsForeign(x)
    ensures ListsFit(Own(s, x, me, a), others, me, a)
  {
    if x.Call? && s.place.Outside? {
      CallLists(s.shared.waiters, others, me, a.msgType);
    } else if x.Leave? && s.place.Leaving? {
      LeaveLists(s.shared.waiters, others, me, a.msgType);
    }
  }

  lemma PlaceStep(s: Monitor, x: Action, me: nat, a: Ask)
    requires PlaceFits(s, a)
    ensures PlaceFits(Step(s, x, me, a), a)
  {
    if x.Lookup? {
      LastFoundIsLatest(s.shared.records, a);
    }
  }

  lemma OfTypePush(rs: seq<Rec>, r: Rec, msgType: string)
    ensures OfType(rs + [r], msgType) <==> OfType(rs, msgType) || r.msgType == msgType
  {
    var all := rs + [r];
    assert all[|rs|] == r;
    assert forall i :: 0 <= i < |rs| ==> all[i] == rs[i];
  }

  // Recording a message sets the event exactly when the waiter is listed under its type.
  lemma RecordRaises(s: Monitor, r: Rec, me: nat, a: Ask)
    requires EventFits(s, me, a)
    requires me in Listed(s.shared.waiters, r.msgType) <==> Inside(s.place) && r.msgType == a.msgType
    ensures EventFits(Step(s, Record(r), me, a), me, a)
  {
    OfTypePush(s.sinceReset, r, a.msgType);
  }

  lemma EventStep(s: Monitor, x: Action, me: nat, a: Ask)
    requires EventFits(s, me, a)
    requires x.Record? ==>
               (me in Listed(s.shared.waiters, x.r.msgType) <==> Inside(s.place) && x.r.msgType == a.msgType)
    ensures EventFits(Step(s, x, me, a), me, a)
  {
    if x.Record? {
      RecordRaises(s, x.r, me, a);
    } else if IsForeign(x) {
      assert s.sinceReset + [] == s.sinceReset;
    }
  }

  lemma TailPush(short: seq<Rec>, long: seq<Rec>, r: Rec)
    requires IsTail(short, long)
    ensures IsTail(short + [r], long + [r])
  {
  }

  lemma SinceRecorded(s: Monitor, r: Rec, me: nat, a: Ask)
    requires SinceFits(s)
    ensures SinceFits(Step(s, Record(r), me, a))
  {
    if Inside(s.place) && !s.place.Leaving? {
      if ResetLast(s) {
        TailPush(s.sinceReset, s.sinceLook, r);
      } else {
        TailPush(s.sinceLook, s.sinceReset, r);
      }
    }
  }

  lemma SinceForeign(s: Monitor, x: Action, me: nat, a: Ask)
    requires SinceFits(s) && IsForeign(x)
    ensures SinceFits(Step(s, x, me, a))
  {
    if x.Record? {
      SinceRecorded(s, x.r, me, a);
    } else {
      assert s.sinceLook + [] == s.sinceLook && s.sinceReset + [] == s.sinceReset;
    }
  }

  lemma SinceOwn(s: Monitor, x: Action, me: nat, a: Ask)
    requires SinceFits(s) && !IsForeign(x) && (s.place.Outside? ==> s.rounds == 0)
    ensures SinceFits(Own(s, x, me, a))
  {
  }

  lemma StepKeeps(s: Monitor, others: Waiters, x: Action, me: nat, a: Ask)
    requires Inv(s, others, me, a)
    ensures Inv(Step(s, x, me, a), OthersAfter(others, x, me), me, a)
  {
    ListsStep(s, others, x, me, a);
    PlaceStep(s, x, me, a);
    if x.Record? {
      ListedIffInside(s, others, x.r.msgType, me, a);
    }
    EventStep(s, x, me, a);
    if IsForeign(x) {
      SinceForeign(s, x, me, a);
    } else {
      SinceOwn(s, x, me, a);
    }
  }

  lemma ListedIffInside(s: Monitor, others: Waiters, t: string, me: nat, a: Ask)
    requires ListsFit(s, others, me, a)
    ensures me in Listed(s.shared.waiters, t) <==> Inside(s.place) && t == a.msgType
  {
    assert me !in Listed(others, t);
    if Inside(s.place) {
      assert me in Listed(s.shared.waiters, a.msgType);
    }
  }

  lemma {:induction false} RunKeeps(start: Monitor, actions: seq<Action>, me: nat, a: Ask)
    requires Initial(start, me)
    ensures Inv(Run(start, actions, me, a), Others(start, actions, me), me, a)
  {
    if actions != [] {
      var before := actions[..|actions| - 1];
      RunKeeps(start, before, me, a);
      StepKeeps(Run(start, before, me, a), Others(start, before, me), actions[|actions| - 1], me, a);
    }
  }

  /** However recorders, clearers and other waiters interleave: a returned record is the latest
      match at the waiter's last lookup, None means that lookup had no match, and on return the
      waiter lists are exactly what they would be had this waiter never come. */
  lemma WaitForIsHonest(start: Monitor, actions: seq<Action>, me: nat, a: Ask)
    requires Initial(start, me) && Run(start, actions, me, a).place.Returned?
    ensures var s := Run(start, actions, me, a);
            && (s.place.result.Some? ==> IsLatest(s.looked, a, s.place.result.value))
            && (s.place.result.None? ==> NoMatch(s.looked, a))
            && (forall t :: Listed(s.shared.waiters, t) == Listed(Others(start, actions, me), t))
  {
    RunKeeps(start, actions, me, a);
  }

  /** Inside `wait_for`, at every point of every interleaving, the event is set if and only if a
      record of the awaited type came since the waiter registered or last reset the event. So no
      wait sleeps through a match that comes after the reset before it, the first wait through
      none since the registration. */
  lemma EventIsSetIffRecorded(start: Monitor, actions: seq<Action>, me: nat, a: Ask)
    requires Initial(start, me) && Inside(Run(start, actions, me, a).place)
    ensures var s := Run(start, actions, me, a);
            && (me in s.shared.raised <==> OfType(s.sinceReset, a.msgType))
            && ((exists i :: 0 <= i < |s.sinceReset| && Matches(s.sinceReset[i], a)) ==> me in s.shared.raised)
  {
    RunKeeps(start, actions, me, a);
  }

  // The waiter waits, its event is not set, and there is a match to be found.
  predicate SleepsThrough(s: Monitor, me: nat, a: Ask)
  {
    s.place.Waiting? && me !in s.shared.raised && !NoMatch(s.shared.records, a)
  }

  // What was recorded between the last, failed lookup and the reset after it.
  function Early(s: Monitor): seq<Rec>
  {
    if ResetLast(s) && |s.sinceReset| <= |s.sinceLook| then s.sinceLook[..|s.sinceLook| - |s.sinceReset|] else []
  }

  /** A wait sleeps through a match if and only if there is one, this is not the first wait, and
      everything of the awaited type since the last lookup, which failed, was recorded before the
      reset that followed it. The matches it misses all came in that gap. */
  lemma SleepsThroughIff(start: Monitor, actions: seq<Action>, me: nat, a: Ask)
    requires Initial(start, me) && Run(start, actions, me, a).place.Waiting?
    ensures var s := Run(start, actions, me, a);
            && (SleepsThrough(s, me, a) <==>
                  && !NoMatch(s.shared.records, a) && s.rounds > 0
                  && s.sinceLook == Early(s) + s.sinceReset && !OfType(s.sinceReset, a.msgType))
            && (SleepsThrough(s, me, a) ==>
                  forall i :: 0 <= i < |s.shared.records| && Matches(s.shared.records[i], a) ==>
                    s.shared.records[i] in Early(s))
  {
    RunKeeps(start, actions, me, a);
    var s := Run(start, actions, me, a);
    if ResetLast(s) {
      assert s.sinceLook == Early(s) + s.sinceReset;
    }
    forall i | 0 <= i < |s.shared.records| && Matches(s.shared.records[i], a)
      ensures s.shared.records[i] in s.sinceLook
    {
      MatchIsNew(s, a, s.shared.records[i]);
    }
    if !NoMatch(s.shared.records, a) && s.rounds == 0 {
      var i :| 0 <= i < |s.shared.records| && Matches(s.shared.records[i], a);
      TailHas(s.sinceLook, s.sinceReset, s.shared.records[i]);
    }
  }

  lemma MatchIsNew(s: Monitor, a: Ask, r: Rec)
    requires NoMatch(s.looked, a) && Matches(r, a) && (r in s.looked || r in s.sinceLook)
    ensures r in s.sinceLook
  {
  }

  lemma TailHas(short: seq<Rec>, long: seq<Rec>, r: Rec)
    requires IsTail(short, long) && r in short
    ensures r in long && OfType(long, r.msgType)
  {
    var i :| 0 <= i < |short| && short[i] == r;
    assert long[|long| - |short| + i] == r;
  }

  /** It does happen: whenever a lookup has failed while the event is set, a match recorded before
      the event is reset leaves the waiter waiting with its event clear. When the clock ends that
      wait, the lookup after it still finds the match. */
  lemma LaterWaitCanOversleep(s: Monitor, me: nat, a: Ask, r: Rec)
    requires s.place.Empty? && me in s.shared.raised && Matches(r, a)
    ensures var s1 := Step(Step(s, Record(r), me, a), TestEvent, me, a);
            var s2 := Step(Step(s1, ClearEvent, me, a), CheckClock(false), me, a);
            && SleepsThrough(s2, me, a) && s2.shared.records == s.shared.records + [r]
            && Step(Step(s2, Wake, me, a), Lookup, me, a).place == Leaving(Some(r))
  {
    FindPush(s.shared.records, r, a);
    assert (s.shared.records + [r])[|s.shared.records|] == r;
  }

  lemma FindPush(records: seq<Rec>, r: Rec, a: Ask)
    requires Matches(r, a)
    ensures Find(records + [r], a) == Some(r)
  {
    FindAllConcat(records, [r], a);
    assert [r][1..] == [];
    assert FindAll([r], a) == [r];
  }

  // ----- what ends a wait, and what a clear does -----

  /** `wait_for` leaves its loop exactly so: with the latest match of a lookup that has one, or with None
      when the time is over before a wait, or when a wait ended without its event. */
  lemma LeavesExactlyWhen(s: Monitor, x: Action, me: nat, a: Ask)
    requires Inside(s.place) && !s.place.Leaving?
    ensures var s' := Step(s, x, me, a);
            && (s'.place.Leaving? && s'.place.result.Some? <==>
                  x.Lookup? && (s.place.Registered? || s.place.Woken?) && !NoMatch(s.shared.records, a))
            && (s'.place.Leaving? && s'.place.result.Some? ==> IsLatest(s.shared.records, a, s'.place.result.value))
            && (s'.place.Leaving? && s'.place.result.None? <==>
                  (s.place.LoopTop? && x == CheckClock(true))
                  || (s.place.Empty? && x.TestEvent? && me !in s.shared.raised))
  {
    LastFoundIsLatest(s.shared.records, a);
  }

  // r was recorded by one of the actions.
  predicate RecordedIn(actions: seq<Action>, r: Rec)
  {
    Record(r) in actions
  }

  predicate OnlyFrom(s: Monitor, actions: seq<Action>)
  {
    && (forall i :: 0 <= i < |s.shared.records| ==> RecordedIn(actions, s.shared.records[i]))
    && ((s.place.Leaving? || s.place.Returned?) && s.place.result.Some? ==> RecordedIn(actions, s.place.result.value))
  }

  lemma OnlyFromStep(s: Monitor, actions: seq<Action>, x: Action, me: nat, a: Ask)
    requires OnlyFrom(s, actions)
    ensures OnlyFrom(Step(s, x, me, a), actions + [x])
  {
    assert forall r :: RecordedIn(actions, r) ==> RecordedIn(actions + [x], r);
    if x.Record? {
      assert (actions + [x])[|actions|] == Record(x.r);
    } else if x.Lookup? {
      LastFoundIsLatest(s.shared.records, a);
    }
  }

  /** After a clear only records made later are there, and only those can be returned by a waiter that had
      not found its record before. */
  lemma {:induction false} ClearForgetsTheRecords(s: Monitor, later: seq<Action>, me: nat, a: Ask)
    requires !s.place.Leaving? && !s.place.Returned?
    ensures OnlyFrom(Run(Step(s, Clear, me, a), later, me, a), later)
    decreases |later|
  {
    if later != [] {
      var before, last := later[..|later| - 1], later[|later| - 1];
      assert later == before + [last];
      ClearForgetsTheRecords(s, before, me, a);
      OnlyFromStep(Run(Step(s, Clear, me, a), before, me, a), before, last, me, a);
    }
  }

  // ----- the recorder object -----

  lemma RunPush(start: Monitor, actions: seq<Action>, x: Action, me: nat, a: Ask)
    ensures Run(start, actions + [x], me, a) == Step(Run(start, actions, me, a), x, me, a)
  {
    assert (actions + [x])[..|actions|] == actions;
  }

  lemma FirstStep(start: Monitor, me: nat, a: Ask)
    requires start.place.Outside?
    ensures var s := Run(start, [Call], me, a);
            && s.place == Registered
            && s.shared == start.shared.(waiters := Joined(start.shared.waiters, a.msgType, me))
  {
    RunPush(start, [], Call, me, a);
    assert [] + [Call] == [Call];
  }

  class MessageRecorder {
    var records: seq<Rec>
    var waiters: Waiters
    var raised: set<nat>

    function View(): Shared
      reads this
    {
      Shared(records, waiters, raised)
    }

    constructor ()
      ensures View() == Shared([], map[], {})
    {
      records, waiters, raised := [], map[], {};
    }

    // `record`, under the lock: append, then set every waiter's event of that type.
    method RecordMessage(r: Rec)
      modifies this
      ensures View() == Recorded(old(View()), r)
    {
      records := records + [r];
      var evs := Listed(waiters, r.msgType);
      for i := 0 to |evs|
        invariant raised == old(raised) + Raise(evs[..i])
        invariant records == old(records) + [r] && waiters == old(waiters)
      {
        raised := raised + {evs[i]};
        assert evs[..i + 1] == evs[..i] + [evs[i]];
      }
      assert evs[..|evs|] == evs;
    }

    // `_find`: the latest match, or nothing exactly when there is no match.
    method FindLatest(a: Ask) returns (found: Option<Rec>)
      ensures found == Find(records, a)
      ensures found.Some? ==> IsLatest(records, a, found.value)
      ensures found.Some? ==> found.value.msgType == a.msgType
      ensures found.Some? && a.direction.Some? ==> found.value.direction == a.direction.value
      ensures found.None? <==>
                forall i :: 0 <= i < |records| && records[i].msgType == a.msgType ==>
                  a.direction.Some? && records[i].direction != a.direction.value
    {
      var matches: seq<Rec> := [];
      for i := 0 to |records|
        invariant matches == FindAll(records[..i], a)
      {
        assert records[..i + 1] == records[..i] + [records[i]];
        FindAllConcat(records[..i], [records[i]], a);
        assert [records[i]][1..] == [];
        if Matches(records[i], a) {
          matches := matches + [records[i]];
        }
      }
      assert records[..|records|] == records;
      LastFoundIsLatest(records, a);
      found := if matches == [] then None else Some(matches[|matches| - 1]);
    }

    // The `finally` block: remove the event if it is listed.
    method Deregister(t: string, ev: nat)
      modifies this`waiters
      ensures waiters == LeftBy(old(waiters), t, ev)
      ensures Listed(waiters, t) == Removed(Listed(old(waiters), t), ev)
      ensures forall u :: u != t ==> Listed(waiters, u) == Listed(old(waiters), u)
    {
      if t in waiters && ev in waiters[t] {
        waiters := waiters[t := Removed(waiters[t], ev)];
      } else {
        RemovedNothing(Listed(waiters, t), ev);
      }
    }

    // The monitor run `trace` has led to the recorder as it is now, with the waiter at `place`.
    ghost predicate At(start: Monitor, trace: seq<Action>, me: nat, a: Ask, place: Place)
      reads this
    {
      Run(start, trace, me, a).shared == View() && Run(start, trace, me, a).place == place
    }

    // What other threads do between two steps of the waiter `me`.
    method Interfere(batch: seq<Action>, me: nat, ghost start: Monitor, ghost done: seq<Action>, ghost a: Ask,
                     ghost place: Place)
      returns (ghost more: seq<Action>)
      requires At(start, done, me, a, place)
      modifies this
      ensures At(start, more, me, a, place)
    {
      more := done;
      for i := 0 to |batch|
        invariant At(start, more, me, a, place)
      {
        if IsForeign(batch[i]) {
          RunPush(start, more, batch[i], me, a);
          more := more + [batch[i]];
          Act(batch[i], me);
        }
      }
    }

    // One action of another thread, by the recorder's own entry points.
    method Act(x: Action, me: nat)
      requires IsForeign(x)
      modifies this
      ensures View() == Foreign(old(View()), x, me)
    {
      match x
      case Record(r) => RecordMessage(r);
      case Clear => records := [];
      case Join(t, ev) =>
        if ev != me {
          waiters := waiters[t := Listed(waiters, t) + [ev]];
        }
      case Quit(t, ev) =>
        if ev != me {
          Deregister(t, ev);
        }
      case Reset(ev) =>
        if ev != me {
          raised := raised - {ev};
        }
    }

    // Either lookup of `wait_for`.
    method Look(a: Ask, me: nat, ghost start: Monitor, ghost done: seq<Action>, ghost place: Place)
      returns (found: Option<Rec>, ghost more: seq<Action>)
      requires At(start, done, me, a, place) && (place.Registered? || place.Woken?)
      modifies this
      ensures At(start, more, me, a,
                 if found.Some? then Leaving(found) else if place.Registered? then LoopTop else Empty)
    {
      RunPush(start, done, Lookup, me, a);
      more := done + [Lookup];
      found := FindLatest(a);
    }

    // The wait itself: it may end at any time.
    method Wait(a: Ask, me: nat, ghost start: Monitor, ghost done: seq<Action>) returns (ghost more: seq<Action>)
      requires At(start, done, me, a, Waiting)
      modifies this
      ensures At(start, more, me, a, Woken)
    {
      RunPush(start, done, Wake, me, a);
      more := done + [Wake];
    }

    method CheckTheClock(expired: bool, ghost a: Ask, ghost me: nat, ghost start: Monitor, ghost done: seq<Action>)
      returns (ghost more: seq<Action>)
      requires At(start, done, me, a, LoopTop)
      modifies this
      ensures At(start, more, me, a, if expired then Leaving(None) else Waiting)
    {
      RunPush(start, done, CheckClock(expired), me, a);
      more := done + [CheckClock(expired)];
    }

    method TestTheEvent(a: Ask, me: nat, ghost start: Monitor, ghost done: seq<Action>)
      returns (set_: bool, ghost more: seq<Action>)
      requires At(start, done, me, a, Empty)
      modifies this
      ensures At(start, more, me, a, if set_ then Resetting else Leaving(None))
    {
      RunPush(start, done, TestEvent, me, a);
      more := done + [TestEvent];
      set_ := me in raised;
    }

    method ResetTheEvent(a: Ask, me: nat, ghost start: Monitor, ghost done: seq<Action>)
      returns (ghost more: seq<Action>)
      requires At(start, done, me, a, Resetting)
      modifies this
      ensures At(start, more, me, a, LoopTop)
    {
      RunPush(start, done, ClearEvent, me, a);
      more := done + [ClearEvent];
      raised := raised - {me};
    }

    // One turn of the loop, with other threads between any two of its steps.
    method Turn(a: Ask, me: nat, env: nat -> seq<Action>, expired: bool, ghost start: Monitor, ghost done: seq<Action>)
      returns (leaving: bool, result: Option<Rec>, ghost more: seq<Action>)
      requires At(start, done, me, a, LoopTop)
      modifies this
      ensures At(start, more, me, a, if leaving then Leaving(result) else LoopTop)
      ensures expired ==> leaving
    {
      result := None;
      more := Interfere(env(0), me, start, done, a, LoopTop);
      more := CheckTheClock(expired, a, me, start, more);
      if expired {
        leaving := true;
        return;
      }
      more := Interfere(env(1), me, start, more, a, Waiting);
      more := Wait(a, me, start, more);
      more := Interfere(env(2), me, start, more, a, Woken);
      result, more := Look(a, me, start, more, Woken);
      if result.Some? {
        leaving := true;
        return;
      }
      more := Interfere(env(3), me, start, more, a, Empty);
      var isSet;
      isSet, more := TestTheEvent(a, me, start, more);
      if !isSet {
        leaving := true;
        return;
      }
      more := Interfere(env(4), me, start, more, a, Resetting);
      more := ResetTheEvent(a, me, start, more);
      leaving := false;
    }

    /** `wait_for`. `env` says what other threads do at each point where they can come in between,
        turn by turn, and `turns` after how many turns of the loop the clock has run out. Every run
        is a run of the monitor, from the recorder as it was to the recorder as it is; so what is
        proved of all those runs is true of the value returned. */
    method WaitFor(a: Ask, me: nat, env: (nat, nat) -> seq<Action>, turns: nat)
      returns (result: Option<Rec>, ghost trace: seq<Action>)
      requires Initial(Monitor(View(), Outside, [], 0, [], []), me)
      modifies this
      ensures var start := Monitor(old(View()), Outside, [], 0, [], []);
              var end := Run(start, trace, me, a);
              && end.shared == View() && end.place == Returned(result)
              && (result.Some? ==> IsLatest(end.looked, a, result.value))
              && (result.None? ==> NoMatch(end.looked, a))
              && forall t :: Listed(waiters, t) == Listed(Others(start, trace, me), t)
    {
      ghost var start := Monitor(View(), Outside, [], 0, [], []);
      trace := Register(a, me, start);
      trace := Interfere(env(0, 0), me, start, trace, a, Registered);
      result, trace := Look(a, me, start, trace, Registered);
      var leaving, turn := result.Some?, 0;
      while !leaving
        invariant At(start, trace, me, a, if leaving then Leaving(result) else LoopTop)
        invariant turn <= turns || leaving
        decreases turns + 1 - turn, !leaving
      {
        leaving, result, trace := Turn(a, me, (i: nat) => env(turn + 1, i), turn >= turns, start, trace);
        turn := turn + 1;
      }
      trace := Interfere(env(turn + 1, 0), me, start, trace, a, Leaving(result));
      trace := Finally(a, me, start, trace, result);
      WaitForIsHonest(start, trace, me, a);
    }

    // The event joins the list of its type before the first lookup.
    method Register(a: Ask, me: nat, ghost start: Monitor) returns (ghost more: seq<Action>)
      requires start.shared == View() && start.place.Outside?
      modifies this
      ensures At(start, more, me, a, Registered)
    {
      FirstStep(start, me, a);
      more := [Call];
      waiters := waiters[a.msgType := Listed(waiters, a.msgType) + [me]];
    }

    method Finally(a: Ask, me: nat, ghost start: Monitor, ghost done: seq<Action>, ghost result: Option<Rec>)
      returns (ghost more: seq<Action>)
      requires At(start, done, me, a, Leaving(result))
      modifies this
      ensures At(start, more, me, a, Returned(result))
    {
      RunPush(start, done, Leave, me, a);
      more := done + [Leave];
      Deregister(a.msgType, me);
    }
  }

  lemma {:induction false} RemovedNothing(evs: seq<nat>, ev: nat)
    requires ev !in evs
    ensures Removed(evs, ev) == evs
  {
    if evs != [] {
      RemovedNothing(evs[1..], ev);
      assert evs == [evs[0]] + evs[1..];
    }
  }
}
