/**
 From the run to the checker: in every run that lets a satellite's messages through, in any
 interleaving, assert_fifo_order accepts what the master recorded (hivescope/node.py with
 hivescope/assertions.py).
 */
module FifoRuns {
  import opened Options
  import opened Lists
  import opened Wire
  import opened WireDrain
  import opened WireSteps
  import opened WireUpstream
  import opened WireRuns
  import Assertions

  // How connections are named.
  type Naming = (nat, nat) -> string

  // How an injection appears in the master's recorder.
  function AsRecord(r: Injected, name: Naming): Assertions.Rec
  {
    Assertions.Rec("bus_inject", name(r.sat, r.conn), r.msgType, Some(r.mark))
  }

  function AsRecords(injected: seq<Injected>, name: Naming): seq<Assertions.Rec>
  {
    if injected == [] then [] else [AsRecord(injected[0], name)] + AsRecords(injected[1..], name)
  }

  // The recorder also holds records of other directions; these are its injections.
  function Injections(records: seq<Assertions.Rec>): seq<Assertions.Rec>
  {
    if records == [] then []
    else (if records[0].direction == "bus_inject" then [records[0]] else []) + Injections(records[1..])
  }

  lemma {:induction false} OnlyInjectionsAreSelected(records: seq<Assertions.Rec>, peer: string, msgType: string)
    ensures Assertions.Selected(records, peer, msgType) == Assertions.Selected(Injections(records), peer, msgType)
  {
    if records != [] {
      var rest := Injections(records[1..]);
      if records[0].direction == "bus_inject" {
        assert ([records[0]] + rest)[1..] == rest;
      } else {
        assert Injections(records) == rest;
      }
      OnlyInjectionsAreSelected(records[1..], peer, msgType);
    }
  }

  // The marker of an injection under a peer name and a type.
  function Marker(name: Naming, peer: string, msgType: string): Injected -> seq<Option<int>>
  {
    (r: Injected) => if name(r.sat, r.conn) == peer && r.msgType == msgType then [Some(r.mark as int)] else []
  }

  lemma {:induction false} SelectedAreTheInjections(injected: seq<Injected>, name: Naming, peer: string,
                                                    msgType: string)
    ensures Assertions.Selected(AsRecords(injected, name), peer, msgType)
            == Collect(injected, Marker(name, peer, msgType))
  {
    if injected != [] {
      var later := AsRecords(injected[1..], name);
      assert ([AsRecord(injected[0], name)] + later)[1..] == later;
      SelectedAreTheInjections(injected[1..], name, peer, msgType);
    }
  }

  // The markers of the messages of one type.
  function MarkerOf(msgType: string): Message -> seq<Option<int>>
  {
    (m: Message) => if m.msgType == msgType then [Some(m.mark as int)] else []
  }

  function MarkersOf(ms: seq<Message>, msgType: string): seq<Option<int>>
  {
    Collect(ms, MarkerOf(msgType))
  }

  // The peer name is used for no other satellite's injections than those of s.
  predicate OnlyNames(injected: seq<Injected>, name: Naming, s: nat, peer: string)
  {
    forall i :: 0 <= i < |injected| && name(injected[i].sat, injected[i].conn) == peer ==> injected[i].sat == s
  }

  // And for all of those.
  predicate Names(injected: seq<Injected>, name: Naming, s: nat, peer: string)
  {
    forall i :: 0 <= i < |injected| ==> (name(injected[i].sat, injected[i].conn) == peer <==> injected[i].sat == s)
  }

  lemma NamedInjections(injected: seq<Injected>, name: Naming, s: nat, peer: string, msgType: string)
    requires Names(injected, name, s, peer)
    ensures Collect(injected, Marker(name, peer, msgType)) == MarkersOf(Collect(injected, InjectedFrom(s)), msgType)
  {
    forall r | r in injected
      ensures Collect(InjectedFrom(s)(r), MarkerOf(msgType)) == Marker(name, peer, msgType)(r)
    {
      var m := Message(r.mark, r.msgType, true);
      assert [m][1..] == [];
    }
    CollectTwice(injected, InjectedFrom(s), MarkerOf(msgType), Marker(name, peer, msgType));
  }

  predicate Ascends(marks: seq<Option<int>>)
  {
    Assertions.Marked(marks) && Assertions.Increases(marks)
  }

  lemma AscendsCons(m: int, marks: seq<Option<int>>)
    requires Ascends(marks) && forall x :: x in marks ==> x.Some? && m < x.value
    ensures Ascends([Some(m)] + marks)
  {
    var all := [Some(m)] + marks;
    forall i | 1 <= i < |all| ensures all[i] == marks[i - 1] && marks[i - 1] in marks {}
  }

  // Of marks that increase, those selected ascend.
  lemma {:induction false} SelectedAscend(injected: seq<Injected>, name: Naming, s: nat, peer: string, msgType: string)
    requires OnlyNames(injected, name, s, peer) && Increasing(Collect(injected, MarkFrom(s)))
    ensures var marks := Collect(injected, Marker(name, peer, msgType));
            Ascends(marks) && forall x :: x in marks ==> x.Some? && x.value in Collect(injected, MarkFrom(s))
  {
    if injected != [] {
      var r := injected[0];
      var later, marks := Collect(injected[1..], MarkFrom(s)), Collect(injected[1..], Marker(name, peer, msgType));
      IncreasingSplit(MarkFrom(s)(r), later);
      SelectedAscend(injected[1..], name, s, peer, msgType);
      if name(r.sat, r.conn) == peer && r.msgType == msgType {
        assert r.mark in MarkFrom(s)(r);
        AscendsCons(r.mark, marks);
      } else {
        assert Collect(injected, Marker(name, peer, msgType)) == marks;
      }
    }
  }

  lemma BatchAscends(marks: seq<Option<int>>, count: nat)
    requires Ascends(marks)
    ensures Ascends(Assertions.Batch(marks, count))
  {
  }

  /** In every run at all, closes and leftovers included, what the checker finds under a name that no
      other satellite bears ascends: messages may be missing, but never out of order. */
  lemma NoRunIsReordered(n: nat, calls: seq<Cmd>, records: seq<Assertions.Rec>, name: Naming,
                         s: nat, peer: string, msgType: string, count: nat)
    requires s < |History(n, calls).sats|
    requires Injections(records) == AsRecords(History(n, calls).injected, name)
    requires OnlyNames(History(n, calls).injected, name, s, peer)
    ensures Assertions.FifoVerdictOf(records, peer, msgType, count)
            == if count <= |Assertions.Selected(records, peer, msgType)| then Assertions.InOrder else Assertions.TooFew
  {
    var injected := History(n, calls).injected;
    InjectionsFollowSendOrder(n, calls, s, 0, msgType);
    OnlyInjectionsAreSelected(records, peer, msgType);
    SelectedAreTheInjections(injected, name, peer, msgType);
    SelectedAscend(injected, name, s, peer, msgType);
    BatchAscends(Assertions.Selected(records, peer, msgType), count);
  }

  // Records made since, all of one satellite under that name, come behind those made before.
  lemma SelectedSince(before: seq<Injected>, since: seq<Injected>, name: Naming, s: nat, peer: string, msgType: string)
    requires Names(since, name, s, peer)
    ensures Assertions.Selected(AsRecords(before + since, name), peer, msgType)
            == Assertions.Selected(AsRecords(before, name), peer, msgType)
               + MarkersOf(Collect(since, InjectedFrom(s)), msgType)
  {
    SelectedAreTheInjections(before + since, name, peer, msgType);
    SelectedAreTheInjections(before, name, peer, msgType);
    CollectConcat(before, since, Marker(name, peer, msgType));
    NamedInjections(since, name, s, peer, msgType);
  }

  // The name is used for all injections of s from number n on.
  predicate NamesFrom(injected: seq<Injected>, n: nat, name: Naming, s: nat, peer: string)
  {
    forall i :: n <= i < |injected| && injected[i].sat == s ==> name(injected[i].sat, injected[i].conn) == peer
  }

  lemma FoundSince(before: seq<Injected>, all: seq<Injected>, records: seq<Assertions.Rec>, name: Naming,
                   s: nat, peer: string, msgType: string)
    requires before <= all && Injections(records) == AsRecords(all, name)
    requires OnlyNames(all, name, s, peer) && NamesFrom(all, |before|, name, s, peer)
    ensures Assertions.Selected(records, peer, msgType)
            == Assertions.Selected(AsRecords(before, name), peer, msgType)
               + MarkersOf(Collect(Since(before, all), InjectedFrom(s)), msgType)
  {
    var since := Since(before, all);
    assert all == before + since;
    forall i | 0 <= i < |since| ensures since[i] == all[|before| + i] {}
    assert Names(since, name, s, peer);
    SelectedSince(before, since, name, s, peer, msgType);
    OnlyInjectionsAreSelected(records, peer, msgType);
  }

  /** A satellite that marks what it sends with strictly increasing numbers passes the check. From any
      point of any run at which it is connected, or has nothing waiting, whatever was closed before,
      and until the pump is idle after calls that do not close it, whatever raised, whatever other
      satellites and nested sends did: the checker finds, after what it would have found then, exactly
      the admitted messages of the type that were waiting or were sent since, in order. So it accepts
      every `count` up to their number, and rejects one only for being more than all it found. The
      premise on names: since that point the name is that of this satellite's injections and of no
      other's; before, of no other's. */
  lemma RunsPassTheFifoCheck(n: nat, calls: seq<Cmd>, later: seq<Cmd>, records: seq<Assertions.Rec>, name: Naming,
                             s: nat, peer: string, msgType: string, count: nat)
    requires s < |History(n, calls).sats| && Ready(History(n, calls), s)
    requires SparesQueue(History(n, calls).queue, Some(s))
    requires SparesCalls(later, Some(s)) && History(n, calls + later).queue == []
    requires Injections(records) == AsRecords(History(n, calls + later).injected, name)
    requires OnlyNames(History(n, calls + later).injected, name, s, peer)
    requires NamesFrom(History(n, calls + later).injected, |History(n, calls).injected|, name, s, peer)
    ensures SafeSince(History(n, calls), History(n, calls + later), s)
    ensures var w, x := History(n, calls), History(n, calls + later);
            var sent := Collect(w.queue, PendingFrom(s)) + Since(w.sats[s].sent, x.sats[s].sent);
            var found := Assertions.Selected(AsRecords(w.injected, name), peer, msgType)
                         + MarkersOf(Collect(sent, AdmittedOnly()), msgType);
            && Assertions.Selected(records, peer, msgType) == found
            && Assertions.FifoVerdictOf(records, peer, msgType, count)
               == if count <= |found| then Assertions.InOrder else Assertions.TooFew
  {
    EverySentMessageArrives(n, calls, later, s);
    FoundSince(History(n, calls).injected, History(n, calls + later).injected, records, name, s, peer, msgType);
    NoRunIsReordered(n, calls + later, records, name, s, peer, msgType, count);
  }
}
