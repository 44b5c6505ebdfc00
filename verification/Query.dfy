/**
 Concurrent natural-language queries on one agent bus (hivescope/plugins/agent.py,
 `natural_language_query`, default mode). Each query subscribes to the bus, keeps the events that
 carry its own id in a queue, and yields from that queue until the end-of-query sentinel.
 */
module Query {
  import opened Options
  import opened Lists

  // What a query's queue holds and its generator yields: an answer chunk, or None.
  datatype Item = Chunk(text: string) | End

  // Speak and Handled are bus events with a query id. Next is a consumer's step that finds
  // something queued; TimeOut is one that gave up on an empty queue.
  datatype Event =
    | Start(id: nat)
    | Speak(id: nat, utterance: Option<string>)
    | Handled(id: nat)
    | Next(id: nat)
    | TimeOut(id: nat)

  datatype Query = Query(queue: seq<Item>, out: seq<Item>, finished: bool, timedOut: bool)

  type Queries = map<nat, Query>

  // A null utterance is put as None, which is the sentinel.
  function ItemOf(utterance: Option<string>): Item
  {
    if utterance.Some? then Chunk(utterance.value) else End
  }

  predicate Listening(s: Queries, id: nat)
  {
    id in s && !s[id].finished
  }

  function Put(s: Queries, id: nat, item: Item): Queries
  {
    if Listening(s, id) then s[id := s[id].(queue := s[id].queue + [item])] else s
  }

  function Step(s: Queries, e: Event): Queries
  {
    match e
    case Start(id) => if id in s then s else s[id := Query([], [], false, false)]
    case Speak(id, utterance) => Put(s, id, ItemOf(utterance))
    case Handled(id) => Put(s, id, End)
    case Next(id) =>
      if Listening(s, id) && s[id].queue != [] then
        var q := s[id];
        s[id := Query(q.queue[1..], q.out + [q.queue[0]], q.queue[0].End?, false)]
      else s
    case TimeOut(id) =>
      if Listening(s, id) && s[id].queue == [] then
        s[id := Query([], s[id].out + [End], true, true)]
      else s
  }

  function Run(events: seq<Event>): Queries
  {
    if events == [] then map[] else Step(Run(events[..|events| - 1]), events[|events| - 1])
  }

  // ----- what was said to a query -----

  predicate Started(events: seq<Event>, id: nat)
  {
    Start(id) in events
  }

  // What the bus said to query id since it started: its speaks and completions.
  function Addressed(events: seq<Event>, id: nat): seq<Event>
  {
    if events == [] then [] else
      var before, last := events[..|events| - 1], events[|events| - 1];
      if !Started(before, id) then []
      else Addressed(before, id) + if IsFor(last, id) then [last] else []
  }

  predicate IsFor(e: Event, id: nat)
  {
    (e.Speak? || e.Handled?) && e.id == id
  }

  // What a handler puts for such an event.
  function ItemFor(e: Event): Item
  {
    if e.Speak? then ItemOf(e.utterance) else End
  }

  function Items(events: seq<Event>): seq<Item>
  {
    seq(|events|, i requires 0 <= i < |events| => ItemFor(events[i]))
  }

  // The items of query id since it started.
  function Heard(events: seq<Event>, id: nat): seq<Item>
  {
    Items(Addressed(events, id))
  }

  function UpToEnd(items: seq<Item>): seq<Item>
  {
    if items == [] then [] else if items[0].End? then [End] else [items[0]] + UpToEnd(items[1..])
  }

  predicate NoEnd(items: seq<Item>)
  {
    forall i :: 0 <= i < |items| ==> items[i].Chunk?
  }

  lemma {:induction false} UpToEndSplits(a: seq<Item>, b: seq<Item>)
    requires NoEnd(a)
    ensures UpToEnd(a + [End] + b) == a + [End]
  {
    if a == [] {
      assert a + [End] + b == [End] + b;
    } else {
      assert (a + [End] + b)[1..] == a[1..] + [End] + b;
      UpToEndSplits(a[1..], b);
    }
  }

  // ----- the invariant of one query -----

  predicate Fits(q: Query, heard: seq<Item>)
  {
    if !q.finished then q.out + q.queue == heard && NoEnd(q.out)
    else
      && q.out != [] && q.out[|q.out| - 1].End?
      && NoEnd(q.out[..|q.out| - 1])
      && q.out[..|q.out| - 1] <= heard
      && (!q.timedOut ==> q.out <= heard)
  }

  lemma PutFits(q: Query, heard: seq<Item>, item: Item)
    requires Fits(q, heard)
    ensures Fits(if q.finished then q else q.(queue := q.queue + [item]), heard + [item])
  {
    assert q.out + (q.queue + [item]) == q.out + q.queue + [item];
  }

  lemma TakeFits(q: Query, heard: seq<Item>)
    requires Fits(q, heard) && !q.finished && q.queue != []
    ensures Fits(Query(q.queue[1..], q.out + [q.queue[0]], q.queue[0].End?, false), heard)
  {
    var out' := q.out + [q.queue[0]];
    assert q.out + q.queue == out' + q.queue[1..];
    assert out'[..|out'| - 1] == q.out;
  }

  lemma TimeOutFits(q: Query, heard: seq<Item>)
    requires Fits(q, heard) && !q.finished && q.queue == []
    ensures Fits(Query([], q.out + [End], true, true), heard)
  {
    assert (q.out + [End])[..|q.out|] == q.out;
  }

  // Any other event than one for it, for a query that had started before.
  lemma OtherStepFits(s: Queries, e: Event, id: nat, heard: seq<Item>)
    requires id in s && Fits(s[id], heard) && !IsFor(e, id)
    ensures id in Step(s, e) && Fits(Step(s, e)[id], heard)
  {
    if e == Next(id) && !s[id].finished && s[id].queue != [] {
      TakeFits(s[id], heard);
    } else if e == TimeOut(id) && !s[id].finished && s[id].queue == [] {
      TimeOutFits(s[id], heard);
    }
  }

  // One event, for a query that had started before it.
  lemma StepFits(s: Queries, e: Event, id: nat, heard: seq<Item>)
    requires id in s && Fits(s[id], heard)
    ensures id in Step(s, e) && Fits(Step(s, e)[id], heard + if IsFor(e, id) then [ItemFor(e)] else [])
  {
    if IsFor(e, id) {
      PutFits(s[id], heard, ItemFor(e));
    } else {
      assert heard + [] == heard;
      OtherStepFits(s, e, id, heard);
    }
  }

  lemma ItemsPush(events: seq<Event>, e: Event)
    ensures Items(events + [e]) == Items(events) + [ItemFor(e)]
  {
  }

  lemma HeardPush(before: seq<Event>, last: Event, id: nat)
    requires Started(before, id)
    ensures Heard(before + [last], id) == Heard(before, id) + if IsFor(last, id) then [ItemFor(last)] else []
  {
    var events := before + [last];
    assert events[..|events| - 1] == before;
    if IsFor(last, id) {
      ItemsPush(Addressed(before, id), last);
    } else {
      assert Addressed(events, id) == Addressed(before, id);
      assert Heard(before, id) + [] == Heard(before, id);
    }
  }

  lemma {:induction false} RunFits(events: seq<Event>, id: nat)
    ensures id in Run(events) <==> Started(events, id)
    ensures id in Run(events) ==> Fits(Run(events)[id], Heard(events, id))
  {
    if events != [] {
      var before, last := events[..|events| - 1], events[|events| - 1];
      assert events == before + [last];
      RunFits(before, id);
      if Started(before, id) {
        StepFits(Run(before), last, id, Heard(before, id));
        HeardPush(before, last, id);
      }
    }
  }

  /** A query run to its end yields chunks and then exactly one None: everything said to it up to
      its first completion when it did not time out, and otherwise a prefix of that. */
  lemma QueryYieldsItsAnswer(events: seq<Event>, id: nat)
    requires id in Run(events) && Run(events)[id].finished
    ensures var q, heard := Run(events)[id], Heard(events, id);
            && (!q.timedOut ==> q.out == UpToEnd(heard))
            && (exists chunks :: NoEnd(chunks) && q.out == chunks + [End] && chunks <= heard)
  {
    RunFits(events, id);
    var q, heard := Run(events)[id], Heard(events, id);
    var chunks := q.out[..|q.out| - 1];
    assert q.out == chunks + [End];
    if !q.timedOut {
      assert heard == chunks + [End] + heard[|q.out|..];
      UpToEndSplits(chunks, heard[|q.out|..]);
    }
  }

  // The events that concern query id.
  function Only(events: seq<Event>, id: nat): seq<Event>
  {
    if events == [] then [] else
      Only(events[..|events| - 1], id) + if events[|events| - 1].id == id then [events[|events| - 1]] else []
  }

  /** Queries do not see each other: in any interleaving, a query is where it would be if it had
      been alone on the bus. */
  lemma {:induction false} QueriesAreIndependent(events: seq<Event>, id: nat)
    ensures id in Run(events) <==> id in Run(Only(events, id))
    ensures id in Run(events) ==> Run(events)[id] == Run(Only(events, id))[id]
  {
    if events != [] {
      var before, last := events[..|events| - 1], events[|events| - 1];
      QueriesAreIndependent(before, id);
      if last.id == id {
        assert Only(events, id)[..|Only(events, id)| - 1] == Only(before, id);
      } else {
        assert Only(events, id) == Only(before, id);
      }
    }
  }

  predicate IsNull(e: Event)
  {
    e.Speak? && e.utterance.None?
  }

  // A completion came, and no null utterance before it.
  predicate CompletedFirst(heard: seq<Event>)
  {
    exists c :: 0 <= c < |heard| && heard[c].Handled? && forall i :: 0 <= i < c ==> !IsNull(heard[i])
  }

  /** What ended a query that did not time out, of what the bus said to it since its start: the first
      completion or null utterance. It was a completion if and only if no null utterance came before
      the first completion. */
  lemma CompletionEndsIff(events: seq<Event>, id: nat)
    requires id in Run(events) && Run(events)[id].finished && !Run(events)[id].timedOut
    ensures var n, heard := |Run(events)[id].out|, Addressed(events, id);
            && 0 < n <= |heard|
            && (heard[n - 1].Handled? || IsNull(heard[n - 1]))
            && (forall i :: 0 <= i < n - 1 ==> !heard[i].Handled? && !IsNull(heard[i]))
            && (heard[n - 1].Handled? <==> CompletedFirst(heard))
  {
    RunFits(events, id);
    AddressedAreForIt(events, id);
    var q, heard := Run(events)[id], Addressed(events, id);
    var n := |q.out|;
    assert q.out <= Items(heard);
    forall i | 0 <= i < n ensures q.out[i] == ItemFor(heard[i]) {
      assert q.out[i] == Items(heard)[i];
    }
    forall i | 0 <= i < n - 1 ensures ItemFor(heard[i]).Chunk? {
      assert q.out[..n - 1][i].Chunk?;
    }
    FirstEnds(heard, n - 1);
  }

  // Of the events heard, the one at m is the first that ends the query.
  lemma FirstEnds(heard: seq<Event>, m: nat)
    requires m < |heard| && forall i :: 0 <= i < |heard| ==> heard[i].Speak? || heard[i].Handled?
    requires ItemFor(heard[m]).End? && forall i :: 0 <= i < m ==> ItemFor(heard[i]).Chunk?
    ensures heard[m].Handled? || IsNull(heard[m])
    ensures forall i :: 0 <= i < m ==> !heard[i].Handled? && !IsNull(heard[i])
    ensures heard[m].Handled? <==> CompletedFirst(heard)
  {
    forall i | 0 <= i < m ensures !heard[i].Handled? && !IsNull(heard[i]) {
      assert ItemFor(heard[i]).Chunk?;
    }
    if CompletedFirst(heard) {
      var c :| 0 <= c < |heard| && heard[c].Handled? && forall i :: 0 <= i < c ==> !IsNull(heard[i]);
      assert m <= c;
    }
  }

  lemma {:induction false} AddressedAreForIt(events: seq<Event>, id: nat)
    ensures forall i :: 0 <= i < |Addressed(events, id)| ==> IsFor(Addressed(events, id)[i], id)
  {
    if events != [] {
      AddressedAreForIt(events[..|events| - 1], id);
    }
  }

  /** At every point of every run, the chunks a query has yielded are the texts of the first utterances that
      the bus addressed to it since its start, in order. */
  lemma ChunksAreTheUtterances(events: seq<Event>, id: nat, i: nat)
    requires id in Run(events) && i < |Run(events)[id].out| && Run(events)[id].out[i].Chunk?
    ensures var heard, item := Addressed(events, id), Run(events)[id].out[i];
            && i < |heard| && heard[i].Speak? && heard[i].id == id && heard[i].utterance == Some(item.text)
  {
    RunFits(events, id);
    AddressedAreForIt(events, id);
    var q, heard := Run(events)[id], Addressed(events, id);
    if q.finished {
      assert q.out[..|q.out| - 1] <= Items(heard);
      assert q.out[i] == q.out[..|q.out| - 1][i];
    }
    assert q.out[i] == Items(heard)[i];
  }

  // The consumer of query id takes n times.
  function Takes(s: Queries, id: nat, n: nat): Queries
  {
    if n == 0 then s else Step(Takes(s, id, n - 1), Next(id))
  }

  /** A consumer gets on: each step takes the oldest queued item, and with the first completion or null
      utterance queued at position n it has everything up to it after n + 1 steps, and is finished then and
      not before. */
  lemma {:induction false} TakingFinishes(s: Queries, id: nat, n: nat, k: nat)
    requires Listening(s, id) && n < |s[id].queue| && k <= n + 1
    requires s[id].queue[n].End? && forall i :: 0 <= i < n ==> s[id].queue[i].Chunk?
    ensures var t := Takes(s, id, k);
            && id in t && t[id].out == s[id].out + s[id].queue[..k] && t[id].queue == s[id].queue[k..]
            && (t[id].finished <==> k == n + 1)
  {
    if k > 0 {
      TakingFinishes(s, id, n, k - 1);
      assert s[id].queue[k - 1..][1..] == s[id].queue[k..];
      assert s[id].queue[..k] == s[id].queue[..k - 1] + [s[id].queue[k - 1]];
    }
  }

  /** A consumer that waited in vain yields the sentinel and is done; with something queued it does not
      give up. */
  lemma TimeOutEndsOnlyAnEmptyQuery(s: Queries, id: nat)
    requires Listening(s, id)
    ensures var t := Step(s, TimeOut(id));
            && id in t && (t[id].finished <==> s[id].queue == [])
            && t[id].out == (if s[id].queue == [] then s[id].out + [End] else s[id].out)
  {
  }

  /** A null utterance does too: the query ends there, without a completion. */
  lemma NullUtteranceEndsAQuery(id: nat, text: string)
    ensures var events := [Start(id), Speak(id, None), Speak(id, Some(text)), Next(id)];
            && id in Run(events) && Run(events)[id].finished && !Run(events)[id].timedOut
            && Run(events)[id].out == [End] && Handled(id) !in events
  {
    var e0, e1 := [Start(id)], [Start(id), Speak(id, None)];
    var e2 := [Start(id), Speak(id, None), Speak(id, Some(text))];
    var e3 := [Start(id), Speak(id, None), Speak(id, Some(text)), Next(id)];
    assert e0[..0] == [] && e1[..1] == e0 && e2[..2] == e1 && e3[..3] == e2;
    assert Run(e0)[id] == Query([], [], false, false);
    assert Run(e1)[id].queue == [End];
    assert Run(e2)[id].queue == [End, Chunk(text)];
  }

  // ----- the handlers on the bus -----

  class AgentBus {
    // The queries whose `_on_speak`, and whose `_on_done`, are subscribed.
    var onSpeak: seq<nat>
    var onDone: seq<nat>
    // Utterances emitted for queries.
    var asked: seq<nat>
    var queries: Queries

    ghost predicate Valid()
      reads this
    {
      && Distinct(onSpeak) && Distinct(onDone)
      && (forall id :: id in onSpeak <==> Listening(queries, id))
      && (forall id :: id in onDone <==> Listening(queries, id))
    }

    constructor ()
      ensures Valid() && queries == Run([]) && asked == []
    {
      onSpeak, onDone, asked, queries := [], [], [], map[];
    }

    // The generator's first step: subscribe both handlers, then emit the utterance.
    method Begin(id: nat)
      requires Valid() && id !in queries
      modifies this
      ensures Valid() && queries == Step(old(queries), Start(id))
      ensures onSpeak == old(onSpeak) + [id] && onDone == old(onDone) + [id] && asked == old(asked) + [id]
    {
      assert id !in onSpeak && id !in onDone;
      onSpeak := onSpeak + [id];
      onDone := onDone + [id];
      queries := queries[id := Query([], [], false, false)];
      asked := asked + [id];
    }

    // A `speak` on the bus: every `_on_speak` is called, and only the addressed query's puts.
    method AnnounceSpeak(id: nat, utterance: Option<string>)
      requires Valid()
      modifies this`queries
      ensures Valid() && queries == Step(old(queries), Speak(id, utterance))
    {
      CallEach(onSpeak, id, ItemOf(utterance));
    }

    // `ovos.utterance.handled` on the bus.
    method AnnounceHandled(id: nat)
      requires Valid()
      modifies this`queries
      ensures Valid() && queries == Step(old(queries), Handled(id))
    {
      CallEach(onDone, id, End);
    }

    method CallEach(handlers: seq<nat>, id: nat, item: Item)
      requires Distinct(handlers) && forall k :: k in handlers <==> Listening(queries, k)
      modifies this`queries
      ensures queries == Put(old(queries), id, item)
      ensures forall k :: Listening(queries, k) <==> Listening(old(queries), k)
    {
      for i := 0 to |handlers|
        invariant queries == if id in handlers[..i] then Put(old(queries), id, item) else old(queries)
      {
        assert handlers[..i + 1] == handlers[..i] + [handlers[i]];
        if handlers[i] == id {
          assert id in handlers && id !in handlers[..i];
          queries := queries[id := queries[id].(queue := queries[id].queue + [item])];
        }
      }
      assert handlers[..|handlers|] == handlers;
    }

    // `q.get` finds an item: yield it, and unsubscribe after the sentinel.
    method Take(id: nat) returns (item: Item)
      requires Valid() && Listening(queries, id) && queries[id].queue != []
      modifies this
      ensures Valid() && queries == Step(old(queries), Next(id)) && item == old(queries)[id].queue[0]
    {
      var q := queries[id];
      item := q.queue[0];
      queries := queries[id := Query(q.queue[1..], q.out + [item], item.End?, false)];
      if item.End? {
        Unsubscribe(id);
      }
    }

    // `queue.Empty`: yield the sentinel and unsubscribe.
    method GiveUp(id: nat)
      requires Valid() && Listening(queries, id) && queries[id].queue == []
      modifies this
      ensures Valid() && queries == Step(old(queries), TimeOut(id))
    {
      queries := queries[id := Query([], queries[id].out + [End], true, true)];
      Unsubscribe(id);
    }

    // The `finally` of the generator: both handlers leave the bus.
    method Unsubscribe(id: nat)
      requires Distinct(onSpeak) && Distinct(onDone) && !Listening(queries, id)
      requires forall k :: k in onSpeak <==> Listening(queries, k) || k == id
      requires forall k :: k in onDone <==> Listening(queries, k) || k == id
      modifies this`onSpeak, this`onDone
      ensures Valid() && onSpeak == Without(old(onSpeak), id) && onDone == Without(old(onDone), id)
    {
      WithoutIsSublist(onSpeak, id);
      WithoutIsSublist(onDone, id);
      onSpeak := Without(onSpeak, id);
      onDone := Without(onDone, id);
    }
  }
}
