/**
 The checkers of hivescope/assertions.py as decision procedures over a snapshot of the records.
 */
module Assertions {
  import opened Options
  import opened Lists

  // ----- assert_fifo_order -----

  // A record of the master, with the `_fifo_seq` marker its message carries, if any.
  datatype Rec = Rec(direction: string, peer: string, msgType: string, mark: Option<int>)

  datatype FifoVerdict = InOrder | TooFew | Reordered | NoMarker

  function Selected(records: seq<Rec>, peer: string, msgType: string): seq<Option<int>>
  {
    if records == [] then [] else
      (if records[0].direction == "bus_inject" && records[0].peer == peer && records[0].msgType == msgType
       then [records[0].mark] else []) + Selected(records[1..], peer, msgType)
  }

  // The slice `[-count:]`: all of the list when count is 0.
  function Batch<T>(xs: seq<T>, count: nat): seq<T>
  {
    if count == 0 || |xs| <= count then xs else xs[|xs| - count..]
  }

  predicate Marked(xs: seq<Option<int>>)
  {
    forall i :: 0 <= i < |xs| ==> xs[i].Some?
  }

  predicate Increases(xs: seq<Option<int>>)
    requires Marked(xs)
  {
    forall i, j :: 0 <= i < j < |xs| ==> xs[i].value < xs[j].value
  }

  // What the checker says of a snapshot of the records.
  function FifoVerdictOf(records: seq<Rec>, peer: string, msgType: string, count: nat): FifoVerdict
  {
    var all := Selected(records, peer, msgType);
    var xs := Batch(all, count);
    if |all| < count then TooFew
    else if !Marked(xs) then NoMarker
    else if Increases(xs) then InOrder
    else Reordered
  }

  // Comparing neighbours is enough.
  lemma {:induction false} NeighboursDecide(xs: seq<Option<int>>, i: nat, j: nat)
    requires Marked(xs) && i < j < |xs|
    requires forall k :: 0 < k < |xs| ==> xs[k - 1].value < xs[k].value
    ensures xs[i].value < xs[j].value
    decreases j
  {
    if i + 1 < j {
      NeighboursDecide(xs, i, j - 1);
    }
  }

  // The position at which the judged records begin: count 0 stands for all of them.
  function Start(n: nat, count: nat): nat
    requires count <= n
  {
    if count == 0 then 0 else n - count
  }

  predicate MarkedFrom(all: seq<Option<int>>, start: nat)
  {
    forall i :: start <= i < |all| ==> all[i].Some?
  }

  // Position i has a mark, and a later position j one that is not greater.
  predicate OutOfOrder(all: seq<Option<int>>, i: nat, j: nat)
  {
    i < j < |all| && all[i].Some? && all[j].Some? && all[j].value <= all[i].value
  }

  predicate RisesFrom(all: seq<Option<int>>, start: nat)
    requires MarkedFrom(all, start)
  {
    forall i, j :: start <= i < j < |all| ==> all[i].value < all[j].value
  }

  lemma LastMarked(all: seq<Option<int>>, count: nat)
    requires count <= |all|
    ensures Batch(all, count) == all[Start(|all|, count)..]
    ensures Marked(Batch(all, count)) <==> MarkedFrom(all, Start(|all|, count))
  {
    var start, xs := Start(|all|, count), Batch(all, count);
    assert xs == all[start..];
    forall i | start <= i < |all| ensures all[i] == xs[i - start] {}
  }

  lemma LastRises(all: seq<Option<int>>, count: nat)
    requires count <= |all| && MarkedFrom(all, Start(|all|, count)) && Marked(Batch(all, count))
    ensures Increases(Batch(all, count)) <==> RisesFrom(all, Start(|all|, count))
  {
    var start, xs := Start(|all|, count), Batch(all, count);
    LastMarked(all, count);
    forall i | start <= i < |all| ensures all[i] == xs[i - start] {}
  }

  lemma NotRising(all: seq<Option<int>>, start: nat)
    requires MarkedFrom(all, start)
    ensures !RisesFrom(all, start) <==> exists i, j :: start <= i < j && OutOfOrder(all, i, j)
  {
    if !RisesFrom(all, start) {
      var i, j :| start <= i < j < |all| && all[i].value >= all[j].value;
      assert OutOfOrder(all, i, j);
    }
  }

  /** What each verdict means, of the marks of the selected records: too few of them; one of the last
      `count` without a mark; all marked and pairwise strictly increasing; or all marked and some pair of
      them not. */
  lemma VerdictMeans(records: seq<Rec>, peer: string, msgType: string, count: nat)
    ensures var all, verdict := Selected(records, peer, msgType), FifoVerdictOf(records, peer, msgType, count);
            && (verdict.TooFew? <==> |all| < count)
            && (|all| >= count ==>
                  var start := Start(|all|, count);
                  && (verdict.NoMarker? <==> !MarkedFrom(all, start))
                  && (verdict.InOrder? <==> MarkedFrom(all, start) && RisesFrom(all, start))
                  && (verdict.Reordered? <==>
                        MarkedFrom(all, start) && exists i, j :: start <= i < j && OutOfOrder(all, i, j)))
  {
    var all := Selected(records, peer, msgType);
    if |all| >= count {
      LastMarked(all, count);
      if MarkedFrom(all, Start(|all|, count)) {
        LastRises(all, count);
        NotRising(all, Start(|all|, count));
      }
    }
  }

  /** It polls until there are `count` records or the time is up, one snapshot a poll, and judges a
      last snapshot: it accepts exactly when that one has `count` records and the markers of its last
      `count` are all there and pairwise strictly increasing. It stops polling early only for a
      snapshot with enough records. */
  method AssertFifoOrder(polls: seq<seq<Rec>>, final: seq<Rec>, peer: string, msgType: string, count: nat)
    returns (verdict: FifoVerdict, used: nat)
    ensures verdict == FifoVerdictOf(final, peer, msgType, count)
    ensures var all := Selected(final, peer, msgType);
            var start := if count == 0 then 0 else |all| - count;
            && (verdict.TooFew? <==> |all| < count)
            && (|all| >= count ==>
                  && (verdict.NoMarker? <==> exists i :: start <= i < |all| && all[i].None?)
                  && (verdict.InOrder? <==>
                        && (forall i :: start <= i < |all| ==> all[i].Some?)
                        && (forall i, j :: start <= i < j < |all| && all[i].Some? && all[j].Some? ==>
                              all[i].value < all[j].value))
                  && (verdict.Reordered? <==>
                        && (forall i :: start <= i < |all| ==> all[i].Some?)
                        && (exists i, j :: start <= i < j && OutOfOrder(all, i, j))))
    ensures used <= |polls| && forall i :: 0 <= i < used ==> |Selected(polls[i], peer, msgType)| < count
    ensures used < |polls| ==> |Selected(polls[used], peer, msgType)| >= count
  {
    used := 0;
    while used < |polls|
      invariant used <= |polls| && forall i :: 0 <= i < used ==> |Selected(polls[i], peer, msgType)| < count
    {
      if |Selected(polls[used], peer, msgType)| >= count {
        break;
      }
      used := used + 1;
    }
    verdict := Judge(final, peer, msgType, count);
    VerdictMeans(final, peer, msgType, count);
  }

  method Judge(records: seq<Rec>, peer: string, msgType: string, count: nat) returns (verdict: FifoVerdict)
    ensures verdict == FifoVerdictOf(records, peer, msgType, count)
  {
    var xs := Batch(Selected(records, peer, msgType), count);
    if |xs| < count {
      return TooFew;
    }
    if !Marked(xs) {
      return NoMarker;
    }
    var errors := Reorders(xs);
    verdict := if errors > 0 then Reordered else InOrder;
  }

  // The reorder messages: there are none exactly when the markers increase.
  method Reorders(xs: seq<Option<int>>) returns (errors: nat)
    requires Marked(xs)
    ensures errors == 0 <==> Increases(xs)
  {
    errors := 0;
    ghost var reorder := 0;
    var i := 1;
    while i < |xs|
      invariant 1 <= i
      invariant errors == 0 ==> forall k :: 0 < k < i && k < |xs| ==> xs[k - 1].value < xs[k].value
      invariant errors > 0 ==> 0 < reorder < |xs| && xs[reorder].value <= xs[reorder - 1].value
    {
      if xs[i].value <= xs[i - 1].value {
        errors := errors + 1;
        reorder := i;
      }
      i := i + 1;
    }
    if errors == 0 {
      forall i, j | 0 <= i < j < |xs| ensures xs[i].value < xs[j].value {
        NeighboursDecide(xs, i, j);
      }
    }
  }

  // ----- session ids -----

  function Namespaced(ns: string, declared: string): string
  {
    ns + ":" + declared
  }

  predicate NoColon(s: string)
  {
    forall i :: 0 <= i < |s| ==> s[i] != ':'
  }

  // `s.split(":", 1)`: before the first colon, and after it.
  function Before(s: string): string
  {
    if s == [] || s[0] == ':' then [] else [s[0]] + Before(s[1..])
  }

  function Behind(s: string): string
  {
    if s == [] then [] else if s[0] == ':' then s[1..] else Behind(s[1..])
  }

  /** Splitting at the first colon undoes the namespacing. */
  lemma {:induction false} NamespaceRoundTrip(ns: string, declared: string)
    requires NoColon(ns)
    ensures Before(Namespaced(ns, declared)) == ns && Behind(Namespaced(ns, declared)) == declared
  {
    var s := Namespaced(ns, declared);
    if ns == [] {
      assert s[1..] == declared;
    } else {
      assert s[1..] == Namespaced(ns[1..], declared);
      NamespaceRoundTrip(ns[1..], declared);
    }
  }

  /** And an id that has a colon is its two parts, namespaced. */
  lemma {:induction false} SplitIsNamespaced(id: string)
    requires ':' in id
    ensures id == Namespaced(Before(id), Behind(id)) && NoColon(Before(id))
  {
    if id[0] == ':' {
      assert id == [':'] + id[1..];
    } else {
      assert ':' in id[1..];
      SplitIsNamespaced(id[1..]);
      assert id == [id[0]] + id[1..];
    }
  }

  /** So namespaced ids collide only for the same namespace and the same declared id. */
  lemma NamespaceIsInjective(ns: string, declared: string, ns': string, declared': string)
    requires NoColon(ns) && NoColon(ns')
    ensures Namespaced(ns, declared) == Namespaced(ns', declared') <==> ns == ns' && declared == declared'
  {
    NamespaceRoundTrip(ns, declared);
    NamespaceRoundTrip(ns', declared');
  }

  // Different pairs of a namespace and a declared id never share a namespaced id.
  ghost predicate Separates(namespaces: set<string>)
  {
    forall ns, ns', declared, declared' :: ns in namespaces && ns' in namespaces ==>
      Namespaced(ns, declared) == Namespaced(ns', declared') ==> ns == ns' && declared == declared'
  }

  // No namespace, its colon included, begins another one.
  predicate PrefixFree(namespaces: set<string>)
  {
    forall ns, ns' :: ns in namespaces && ns' in namespaces && ns + ":" <= ns' + ":" ==> ns == ns'
  }

  // Two namespaces of one id: one of them, colon included, begins the other.
  lemma SharedIdNests(ns: string, declared: string, ns': string, declared': string)
    requires Namespaced(ns, declared) == Namespaced(ns', declared') && |ns| <= |ns'|
    ensures ns + ":" <= ns' + ":"
    ensures ns == ns' ==> declared == declared'
  {
    var id := Namespaced(ns, declared);
    assert ns + ":" == id[..|ns| + 1] && ns' + ":" == id[..|ns'| + 1];
    if ns == ns' {
      assert declared == id[|ns| + 1..] == declared';
    }
  }

  /** For which sets of namespaces that is so, colons allowed: exactly those where no namespace
      followed by its colon begins another one followed by its colon. */
  lemma NamespacesSeparateIff(namespaces: set<string>)
    ensures Separates(namespaces) <==> PrefixFree(namespaces)
  {
    if PrefixFree(namespaces) {
      forall ns, ns', declared, declared' |
        ns in namespaces && ns' in namespaces && Namespaced(ns, declared) == Namespaced(ns', declared')
        ensures ns == ns' && declared == declared'
      {
        if |ns| <= |ns'| {
          SharedIdNests(ns, declared, ns', declared');
        } else {
          SharedIdNests(ns', declared', ns, declared);
        }
      }
    }
    if Separates(namespaces) {
      forall ns, ns' | ns in namespaces && ns' in namespaces && ns + ":" <= ns' + ":" ensures ns == ns' {
        var rest := (ns' + ":")[|ns| + 1..];
        assert Namespaced(ns, rest) == ns' + ":" == Namespaced(ns', "");
      }
    }
  }

  datatype NattedVerdict = Natted | NoPeer | NoRecord | NotConnected | Mismatch

  /** assert_session_id_natted: the last injected id must be the declared id, under the
      connection's namespace unless the satellite is an admin. */
  method AssertSessionIdNatted(hasPeer: bool, injected: seq<Option<string>>, namespace_: Option<string>,
                               declared: string, admin: bool) returns (verdict: NattedVerdict)
    ensures verdict.Natted? <==>
              && hasPeer && injected != [] && (admin || namespace_.Some?)
              && injected[|injected| - 1] == Some(if admin then declared else Namespaced(namespace_.value, declared))
    ensures hasPeer && injected != [] && !admin && namespace_.Some? && NoColon(namespace_.value) ==>
              (verdict.Natted? <==>
                 exists id :: injected[|injected| - 1] == Some(id)
                              && ':' in id && Before(id) == namespace_.value && Behind(id) == declared)
    ensures verdict.NoPeer? <==> !hasPeer
    ensures verdict.NoRecord? <==> hasPeer && injected == []
    ensures verdict.NotConnected? <==> hasPeer && injected != [] && !admin && namespace_.None?
  {
    if !hasPeer {
      return NoPeer;
    }
    if injected == [] {
      return NoRecord;
    }
    var expected := declared;
    if !admin {
      if namespace_.None? {
        return NotConnected;
      }
      expected := Namespaced(namespace_.value, declared);
    }
    if !admin && NoColon(namespace_.value) {
      NamespaceRoundTrip(namespace_.value, declared);
      assert expected[|namespace_.value|] == ':';
      forall id: string | ':' in id && Before(id) == namespace_.value && Behind(id) == declared
        ensures id == expected
      {
        SplitIsNamespaced(id);
      }
    }
    verdict := if injected[|injected| - 1] == Some(expected) then Natted else Mismatch;
  }

  // ----- assert_sessions_isolated -----

  predicate EndsWith(s: string, suffix: string)
  {
    |s| >= |suffix| && s[|s| - |suffix|..] == suffix
  }

  // The first injected id of the peer that ends in ":" and the declared id.
  function FirstMatch(ids: seq<string>, declared: string): Option<string>
  {
    if ids == [] then None
    else if EndsWith(ids[0], ":" + declared) then Some(ids[0])
    else FirstMatch(ids[1..], declared)
  }

  /** The id found for a declared one: the first that ends in a colon and it, and none if none does. */
  lemma {:induction false} FirstMatchIsFirst(ids: seq<string>, declared: string) returns (n: nat)
    ensures n <= |ids| && forall i :: 0 <= i < n ==> forall p: string :: ids[i] != p + (":" + declared)
    ensures FirstMatch(ids, declared) == if n == |ids| then None else Some(ids[n])
    ensures n < |ids| ==> exists p: string :: ids[n] == p + (":" + declared)
  {
    n := 0;
    if ids != [] {
      var tail := ":" + declared;
      if EndsWith(ids[0], tail) {
        assert ids[0] == ids[0][..|ids[0]| - |tail|] + tail;
      } else {
        forall p: string ensures ids[0] != p + tail {
          assert (p + tail)[|p + tail| - |tail|..] == tail;
        }
        var m := FirstMatchIsFirst(ids[1..], declared);
        n := m + 1;
        assert forall i :: 0 < i < |ids| ==> ids[i] == ids[1..][i - 1];
      }
    }
  }

  predicate AllFound(ids: seq<string>, declared: seq<string>)
  {
    forall i :: 0 <= i < |declared| ==> FirstMatch(ids, declared[i]).Some?
  }

  function Layer1(ids: seq<string>, declared: seq<string>): (found: seq<string>)
    requires AllFound(ids, declared)
    ensures |found| == |declared| && forall i :: 0 <= i < |declared| ==> found[i] == FirstMatch(ids, declared[i]).value
  {
    seq(|declared|, i requires 0 <= i < |declared| => FirstMatch(ids, declared[i]).value)
  }

  predicate OnePrefix(xs: seq<string>)
  {
    xs != [] && forall i :: 0 <= i < |xs| ==> Before(xs[i]) == Before(xs[0])
  }

  /** Two ids with different parts before the first colon are rejected, and so is no id at all. */
  lemma OnePrefixMeans(xs: seq<string>)
    ensures OnePrefix(xs) <==> xs != [] && forall i, j :: 0 <= i < j < |xs| ==> Before(xs[i]) == Before(xs[j])
  {
  }

  datatype IsolationVerdict = Isolated | Missing | NotDistinct | Prefixes

  lemma {:induction false} DistinctByCount(xs: seq<string>)
    ensures |set x | x in xs| <= |xs|
    ensures |set x | x in xs| == |xs| <==> Distinct(xs)
  {
    if xs != [] {
      var n := |xs| - 1;
      var init, last := xs[..n], xs[n];
      DistinctByCount(init);
      assert xs == init + [last];
      assert (set x | x in xs) == (set x | x in init) + {last};
      if Distinct(xs) {
        assert last !in init;
      } else if last !in init {
        var i, j :| 0 <= i < j < |xs| && xs[i] == xs[j];
        assert j < n;
        assert init[i] == init[j];
      }
    }
  }

  lemma OnlyOne(xs: set<string>, x: string, y: string)
    requires |xs| == 1 && x in xs && y in xs
    ensures x == y
  {
    assert |xs - {x}| == 0;
  }

  lemma OnePrefixByCount(xs: seq<string>, prefixes: set<string>)
    requires forall x :: x in xs ==> Before(x) in prefixes
    requires forall p :: p in prefixes ==> exists x :: x in xs && Before(x) == p
    ensures |prefixes| == 1 <==> OnePrefix(xs)
  {
    if |prefixes| == 1 {
      forall i | 0 <= i < |xs| ensures Before(xs[i]) == Before(xs[0]) {
        OnlyOne(prefixes, Before(xs[i]), Before(xs[0]));
      }
      var p :| p in prefixes;
    }
    if OnePrefix(xs) {
      assert prefixes == {Before(xs[0])};
    }
  }

  lemma ValuesAreFound(byDeclared: map<string, string>, ids: seq<string>, declared: seq<string>)
    requires AllFound(ids, declared) && forall d :: d in byDeclared <==> d in declared
    requires forall d :: d in byDeclared ==> FirstMatch(ids, d) == Some(byDeclared[d])
    ensures (set d | d in byDeclared :: byDeclared[d]) == set x | x in Layer1(ids, declared)
  {
    var found, values := Layer1(ids, declared), set d | d in byDeclared :: byDeclared[d];
    forall x ensures x in values <==> x in found {
      if x in values {
        var d :| d in byDeclared && byDeclared[d] == x;
        var i :| 0 <= i < |declared| && declared[i] == d;
        assert found[i] == x;
      }
      if x in found {
        var i :| 0 <= i < |found| && found[i] == x;
        assert declared[i] in byDeclared && byDeclared[declared[i]] == x;
      }
    }
  }

  /** Accepts exactly when every declared id was found, the ids found for the declared list are
      pairwise distinct, and there is at least one and all share the part before the first colon.
      (The declared list may not be empty: no prefix at all is not exactly one prefix.) */
  method AssertSessionsIsolated(ids: seq<string>, declared: seq<string>) returns (verdict: IsolationVerdict)
    ensures verdict.Missing? <==> !AllFound(ids, declared)
    ensures verdict.Isolated? <==>
              AllFound(ids, declared) && Distinct(Layer1(ids, declared)) && OnePrefix(Layer1(ids, declared))
    ensures verdict.NotDistinct? <==> AllFound(ids, declared) && !Distinct(Layer1(ids, declared))
  {
    var byDeclared: map<string, string> := map[];
    for i := 0 to |declared|
      invariant AllFound(ids, declared[..i])
      invariant forall d :: d in byDeclared <==> d in declared[..i]
      invariant forall d :: d in byDeclared ==> FirstMatch(ids, d) == Some(byDeclared[d])
    {
      assert declared[..i + 1] == declared[..i] + [declared[i]];
      var found := FirstMatch(ids, declared[i]);
      if found.None? {
        return Missing;
      }
      byDeclared := byDeclared[declared[i] := found.value];
    }
    assert declared[..|declared|] == declared;
    ghost var found := Layer1(ids, declared);
    var values := set d | d in byDeclared :: byDeclared[d];
    ValuesAreFound(byDeclared, ids, declared);
    DistinctByCount(found);
    if |values| != |declared| {
      return NotDistinct;
    }
    var prefixes := set x | x in values :: Before(x);
    OnePrefixByCount(found, prefixes);
    verdict := if |prefixes| != 1 then Prefixes else Isolated;
  }

  // Every id was injected under one namespace, from a declared id without a colon.
  predicate OneNamespace(ids: seq<string>, ns: string)
  {
    NoColon(ns) && forall i :: 0 <= i < |ids| ==> Before(ids[i]) == ns && NoColon(Behind(ids[i]))
                                                  && ids[i] == Namespaced(ns, Behind(ids[i]))
  }

  // The characters of a namespaced id, counted from its end.
  lemma FromTheEnd(ns: string, declared: string, k: nat)
    requires k <= |declared|
    ensures var s := Namespaced(ns, declared);
            s[|s| - 1 - k] == if k == |declared| then ':' else declared[|declared| - 1 - k]
  {
  }

  lemma SuffixIsTheDeclaredId(ns: string, injected: string, declared: string)
    requires NoColon(injected) && NoColon(declared)
    ensures EndsWith(Namespaced(ns, injected), ":" + declared) <==> injected == declared
  {
    var s, tail := Namespaced(ns, injected), Namespaced("", declared);
    assert tail == ":" + declared;
    if EndsWith(s, tail) {
      var k := if |declared| < |injected| then |declared| else |injected|;
      assert s[|s| - 1 - k] == s[|s| - |tail|..][|tail| - 1 - k];
      FromTheEnd(ns, injected, k);
      FromTheEnd("", declared, k);
      assert |declared| == |injected|;
      assert s[|s| - |injected|..] == injected;
      assert s[|s| - |tail|..][1..] == declared;
    }
    if injected == declared {
      assert s[|s| - |tail|..] == tail;
    }
  }

  lemma {:induction false} FoundIffInjected(ids: seq<string>, ns: string, declared: string)
    requires OneNamespace(ids, ns) && NoColon(declared)
    ensures FirstMatch(ids, declared) ==
              if Namespaced(ns, declared) in ids then Some(Namespaced(ns, declared)) else None
  {
    if ids != [] {
      var d := Behind(ids[0]);
      assert ids[0] == Namespaced(ns, d) && NoColon(d);
      SuffixIsTheDeclaredId(ns, d, declared);
      NamespaceIsInjective(ns, d, ns, declared);
      FoundIffInjected(ids[1..], ns, declared);
    }
  }

  /** On one connection whose injected ids all carry its namespace, a non-empty list of distinct
      colon-free declared ids is accepted if and only if every one of them was injected. */
  lemma IsolatedIffAllInjected(ids: seq<string>, ns: string, declared: seq<string>)
    requires OneNamespace(ids, ns) && declared != [] && Distinct(declared)
    requires forall i :: 0 <= i < |declared| ==> NoColon(declared[i])
    ensures (AllFound(ids, declared) && Distinct(Layer1(ids, declared)) && OnePrefix(Layer1(ids, declared)))
            <==> forall i :: 0 <= i < |declared| ==> Namespaced(ns, declared[i]) in ids
  {
    forall i | 0 <= i < |declared|
      ensures FirstMatch(ids, declared[i]) ==
                if Namespaced(ns, declared[i]) in ids then Some(Namespaced(ns, declared[i])) else None
    {
      FoundIffInjected(ids, ns, declared[i]);
    }
    if AllFound(ids, declared) {
      var found := Layer1(ids, declared);
      forall i | 0 <= i < |declared| ensures found[i] == Namespaced(ns, declared[i]) && Before(found[i]) == ns {
        NamespaceRoundTrip(ns, declared[i]);
      }
      forall i, j | 0 <= i < j < |found| ensures found[i] != found[j] {
        NamespaceIsInjective(ns, declared[i], ns, declared[j]);
      }
    }
  }

  // ----- _denied_records -----

  // An inbound record of a satellite: its envelope type, and for a BUS envelope the inner type and
  // the three places where a denial may echo the type it denied.
  datatype Inbound = Inbound(direction: string, envelope: string, inner: string,
                             deniedType: Option<string>, msgType: Option<string>, type_: Option<string>)

  // Python's `a or b`: an empty string is passed over.
  function Or(a: Option<string>, b: Option<string>): Option<string>
  {
    if a.Some? && a.value != "" then a else b
  }

  function Reported(r: Inbound): Option<string>
  {
    Or(r.deniedType, Or(r.msgType, r.type_))
  }

  /** The type a denial echoes: the first of its three places that is there and not empty; with none, what
      the last place has, so an empty string there is an echo of no type and not the lack of one. */
  lemma FirstEcho(r: Inbound)
    ensures r.deniedType.Some? && r.deniedType.value != "" ==> Reported(r) == r.deniedType
    ensures (r.deniedType.None? || r.deniedType.value == "") && r.msgType.Some? && r.msgType.value != "" ==>
              Reported(r) == r.msgType
    ensures (r.deniedType.None? || r.deniedType.value == "") && (r.msgType.None? || r.msgType.value == "") ==>
              Reported(r) == r.type_
  {
  }

  predicate IsDenial(r: Inbound)
  {
    r.direction == "in" && r.envelope == "bus" && r.inner == "hive.policy.denied"
  }

  predicate Echoes(r: Inbound, asked: Option<string>)
  {
    IsDenial(r) && (asked.None? || Reported(r) == asked)
  }

  predicate Untyped(r: Inbound)
  {
    IsDenial(r) && Reported(r).None?
  }

  function Filter<T>(p: T -> bool, xs: seq<T>): seq<T>
  {
    if xs == [] then [] else (if p(xs[0]) then [xs[0]] else []) + Filter(p, xs[1..])
  }

  lemma {:induction false} FilterPush<T>(p: T -> bool, xs: seq<T>, x: T)
    ensures Filter(p, xs + [x]) == Filter(p, xs) + if p(x) then [x] else []
  {
    if xs == [] {
      assert xs + [x] == [x] && [x][1..] == [];
      assert Filter(p, [x][1..]) == [];
    } else {
      var head, rest := if p(xs[0]) then [xs[0]] else [], Filter(p, xs[1..]);
      assert (xs + [x])[1..] == xs[1..] + [x];
      FilterPush(p, xs[1..], x);
      var last := if p(x) then [x] else [];
      assert Filter(p, xs + [x]) == head + (rest + last);
      assert head + (rest + last) == head + rest + last;
    }
  }

  lemma {:induction false} FilterKeepsOnly<T>(p: T -> bool, xs: seq<T>, x: T)
    ensures x in Filter(p, xs) <==> x in xs && p(x)
  {
    if xs != [] {
      FilterKeepsOnly(p, xs[1..], x);
    }
  }

  /** None stands for the ValueError about an envelope type. Otherwise the result is, in record
      order, the denials that echo the asked type; only when there are none and the caller is not
      strict, the denials that echo no type at all. So a strict typed query returns a record if and
      only if it is a denial that echoes exactly that type, and never passes on unrelated traffic. */
  method DeniedRecords(records: seq<Inbound>, asked: Option<string>, strict: bool, envelopes: set<string>)
    returns (denied: Option<seq<Inbound>>)
    ensures denied.None? <==> asked.Some? && asked.value in envelopes
    ensures denied.Some? ==>
              var typed := Filter((r: Inbound) => Echoes(r, asked), records);
              denied.value == if typed != [] || asked.None? || strict then typed else Filter(Untyped, records)
    ensures denied.Some? && strict ==>
              forall r :: r in denied.value <==>
                && r in records && r.direction == "in" && r.envelope == "bus" && r.inner == "hive.policy.denied"
                && (asked.None? || Reported(r) == asked)
    ensures denied.Some? && asked.Some? && !strict ==>
              forall r :: r in denied.value ==>
                && r in records && IsDenial(r)
                && (Reported(r) == asked || (Reported(r).None? && forall x :: x in records ==> !Echoes(x, asked)))
  {
    if asked.Some? && asked.value in envelopes {
      return None;
    }
    ghost var echoes := (r: Inbound) => Echoes(r, asked);
    var typed: seq<Inbound>, untyped: seq<Inbound> := [], [];
    for i := 0 to |records|
      invariant typed == Filter(echoes, records[..i])
      invariant asked.Some? ==> untyped == Filter(Untyped, records[..i])
    {
      var r := records[i];
      assert records[..i + 1] == records[..i] + [r];
      FilterPush(echoes, records[..i], r);
      FilterPush(Untyped, records[..i], r);
      if IsDenial(r) {
        if asked.None? {
          typed := typed + [r];
        } else if Reported(r).None? {
          untyped := untyped + [r];
        } else if Reported(r) == asked {
          typed := typed + [r];
        }
      }
    }
    assert records[..|records|] == records;
    forall r ensures r in typed <==> r in records && Echoes(r, asked) {
      FilterKeepsOnly(echoes, records, r);
    }
    if asked.Some? {
      forall r ensures r in untyped <==> r in records && Untyped(r) {
        FilterKeepsOnly(Untyped, records, r);
      }
    }
    denied := if typed != [] || asked.None? || strict then Some(typed) else Some(untyped);
  }
}
