/**
 The in-memory credential store of hivescope/database.py. `Store` and `Apply` say what each call
 does to the rows; class `ClientDatabase` does it in place on shared `Client` objects. The lemmas
 read a whole history of calls: ids are never reissued, and every row is a replay of its calls.
 */
module Database {
  import opened Options
  import opened Lists

  // One client. The two blacklists live in its metadata; None is an absent metadata key.
  datatype Row = Row(key: string, id: int, name: string, password: Option<string>, allowed: seq<string>,
                     intents: Option<seq<string>>, skills: Option<seq<string>>, flags: Flags)

  datatype Flags = Flags(admin: bool, escalate: bool, propagate: bool, broadcast: bool)

  // The arguments of add_client; the ignored message_blacklist is left out.
  datatype Args = Args(name: string, password: Option<string>, allowed: Option<seq<string>>,
                       intents: Option<seq<string>>, skills: Option<seq<string>>, flags: Flags)

  datatype Op = Add(key: string, args: Args) | Update(row: Row) | Delete(key: string)

  datatype Store = Store(rows: map<string, Row>, nextId: nat)

  // ----- one call -----

  predicate Full<T>(xs: Option<seq<T>>)
  {
    xs.Some? && xs.value != []
  }

  // What a blacklist argument leaves in the metadata.
  function Listed(now: Option<seq<string>>, asked: Option<seq<string>>): Option<seq<string>>
  {
    if asked.None? then now else if asked.value == [] then None else asked
  }

  function Created(key: string, id: int, a: Args): Row
  {
    Row(key, id, a.name, a.password, if a.allowed.Some? then a.allowed.value else [],
        Listed(None, a.intents), Listed(None, a.skills), a.flags)
  }

  function Amended(row: Row, a: Args): Row
  {
    Row(row.key, row.id, if a.name != "" then a.name else row.name,
        if Full(a.password) then a.password else row.password,
        if a.allowed.Some? then a.allowed.value else row.allowed,
        Listed(row.intents, a.intents), Listed(row.skills, a.skills), a.flags)
  }

  function Apply(s: Store, op: Op): Store
  {
    match op
    case Add(key, a) =>
      if key in s.rows then s.(rows := s.rows[key := Amended(s.rows[key], a)])
      else Store(s.rows[key := Created(key, s.nextId + 1, a)], s.nextId + 1)
    case Update(row) => s.(rows := s.rows[row.key := row])
    case Delete(key) => s.(rows := s.rows - {key})
  }

  function History(ops: seq<Op>): Store
  {
    if ops == [] then Store(map[], 0) else Apply(History(Init(ops)), Last(ops))
  }

  // The same from a given store on.
  function Run(s: Store, ops: seq<Op>): Store
  {
    if ops == [] then s else Apply(Run(s, Init(ops)), Last(ops))
  }

  // ----- ids -----

  predicate DistinctIds(s: Store)
  {
    forall k, k' :: k in s.rows && k' in s.rows && k != k' ==> s.rows[k].id != s.rows[k'].id
  }

  // An update puts back a live row under its own id.
  predicate KeepsId(s: Store, op: Op)
  {
    op.Update? ==> op.row.key in s.rows && s.rows[op.row.key].id == op.row.id
  }

  predicate IdPreserving(ops: seq<Op>)
  {
    ops != [] ==> IdPreserving(Init(ops)) && KeepsId(History(Init(ops)), Last(ops))
  }

  // The keys that calls of add_client created a row for, in order: creation number i is Births[i - 1].
  function Births(ops: seq<Op>): seq<string>
  {
    if ops == [] then [] else Births(Init(ops)) + Born(History(Init(ops)), Last(ops))
  }

  function Born(s: Store, op: Op): seq<string>
  {
    if op.Add? && op.key !in s.rows then [op.key] else []
  }

  // Each live row carries the number of the latest creation under its key.
  predicate NumberedByBirth(s: Store, births: seq<string>)
  {
    && s.nextId == |births|
    && (forall k :: k in s.rows ==> s.rows[k].key == k && 1 <= s.rows[k].id <= |births|)
    && (forall k, i :: k in s.rows && 0 <= i < |births| && births[i] == k ==> i < s.rows[k].id)
    && (forall k :: k in s.rows ==> births[s.rows[k].id - 1] == k)
  }

  // A new row takes the next number.
  lemma BirthKeepsNumbering(s: Store, births: seq<string>, key: string, a: Args)
    requires NumberedByBirth(s, births) && key !in s.rows
    ensures NumberedByBirth(Apply(s, Add(key, a)), births + [key])
  {
    var t, births' := Apply(s, Add(key, a)), births + [key];
    assert t.rows[key].id == |births'|;
    forall k | k in s.rows ensures t.rows[k] == s.rows[k] && births'[t.rows[k].id - 1] == k {
      assert births[s.rows[k].id - 1] == k;
    }
    forall k, i | k in t.rows && 0 <= i < |births'| && births'[i] == k ensures i < t.rows[k].id {
      if i < |births| && k != key {
        assert births[i] == k;
      }
    }
  }

  // Rows that keep key and id keep their numbers.
  lemma SameNumbers(s: Store, births: seq<string>, t: Store)
    requires NumberedByBirth(s, births) && t.nextId == s.nextId
    requires forall k :: k in t.rows ==> k in s.rows && t.rows[k].key == k && t.rows[k].id == s.rows[k].id
    ensures NumberedByBirth(t, births)
  {
  }

  lemma CallsKeepNumbering(s: Store, births: seq<string>, op: Op)
    requires NumberedByBirth(s, births) && KeepsId(s, op)
    ensures NumberedByBirth(Apply(s, op), births + Born(s, op))
  {
    if op.Add? && op.key !in s.rows {
      BirthKeepsNumbering(s, births, op.key, op.args);
    } else {
      SameNumbers(s, births, Apply(s, op));
      assert births + Born(s, op) == births;
    }
  }

  /** For every history whose updates keep their row's id, the id of a live row is the number of the
      creation that made it. Creations are numbered 1, 2, 3, ... without gaps, so no id is ever
      given out twice, not even after its row was deleted, and live ids are pairwise distinct. */
  lemma {:induction false} IdsAreNeverReissued(ops: seq<Op>)
    requires IdPreserving(ops)
    ensures NumberedByBirth(History(ops), Births(ops))
    ensures DistinctIds(History(ops))
  {
    if ops != [] {
      IdsAreNeverReissued(Init(ops));
      CallsKeepNumbering(History(Init(ops)), Births(Init(ops)), Last(ops));
    }
  }

  // ----- updates that install an id -----

  predicate Bounded(s: Store)
  {
    forall k :: k in s.rows ==> s.rows[k].id <= s.nextId
  }

  predicate NoUpdates(ops: seq<Op>)
  {
    forall i :: 0 <= i < |ops| ==> !ops[i].Update?
  }

  // However adds and deletes go on from here, live ids are distinct.
  ghost predicate SafeForever(s: Store)
  {
    forall ops :: NoUpdates(ops) ==> DistinctIds(Run(s, ops))
  }

  lemma CallKeepsBound(s: Store, op: Op)
    requires DistinctIds(s) && Bounded(s) && !op.Update?
    ensures DistinctIds(Apply(s, op)) && Bounded(Apply(s, op))
  {
    var t := Apply(s, op);
    forall k | k in t.rows ensures t.rows[k].id == if k in s.rows then s.rows[k].id else s.nextId + 1 {}
  }

  lemma {:induction false} RunKeepsBound(s: Store, ops: seq<Op>)
    requires DistinctIds(s) && Bounded(s) && NoUpdates(ops)
    ensures DistinctIds(Run(s, ops)) && Bounded(Run(s, ops))
  {
    if ops != [] {
      RunKeepsBound(s, Init(ops));
      CallKeepsBound(Run(s, Init(ops)), Last(ops));
    }
  }

  // d adds under keys longer than n, each longer than the one before.
  function LongKey(n: nat): string
  {
    seq(n, _ => 'k')
  }

  function FreshAdds(n: nat, d: nat, a: Args): seq<Op>
  {
    if d == 0 then [] else FreshAdds(n, d - 1, a) + [Add(LongKey(n + d), a)]
  }

  predicate UpTo(keys: set<string>, n: nat)
  {
    forall k :: k in keys ==> |k| <= n
  }

  predicate KeysUpTo(s: Store, n: nat)
  {
    UpTo(s.rows.Keys, n)
  }

  lemma OneFreshAdd(s: Store, n: nat, a: Args)
    requires KeysUpTo(s, n)
    ensures var t := Apply(s, Add(LongKey(n + 1), a));
            && KeysUpTo(t, n + 1) && t.nextId == s.nextId + 1
            && LongKey(n + 1) in t.rows && t.rows[LongKey(n + 1)].id == s.nextId + 1
            && forall k :: k in s.rows ==> k in t.rows && t.rows[k] == s.rows[k]
  {
    assert |LongKey(n + 1)| == n + 1;
  }

  lemma FreshAddsUnfold(n: nat, d: nat, a: Args)
    requires d > 0
    ensures FreshAdds(n, d, a) != [] && Init(FreshAdds(n, d, a)) == FreshAdds(n, d - 1, a)
    ensures Last(FreshAdds(n, d, a)) == Add(LongKey(n + d), a)
  {
  }

  // After d such adds the counter stands d higher, on the last one's id, and all rows are still there.
  predicate Counted(s: Store, t: Store, n: nat, d: nat)
  {
    && KeysUpTo(t, n + d) && t.nextId == s.nextId + d
    && (forall k :: k in s.rows ==> k in t.rows && t.rows[k] == s.rows[k])
    && (d > 0 ==> LongKey(n + d) in t.rows && t.rows[LongKey(n + d)].id == s.nextId + d)
  }

  lemma {:induction false} FreshAddsCount(s: Store, n: nat, d: nat, a: Args)
    requires KeysUpTo(s, n)
    ensures NoUpdates(FreshAdds(n, d, a)) && Counted(s, Run(s, FreshAdds(n, d, a)), n, d)
    decreases d
  {
    if d > 0 {
      FreshAddsCount(s, n, d - 1, a);
      FreshAddsUnfold(n, d, a);
      OneFreshAdd(Run(s, FreshAdds(n, d - 1, a)), n + d - 1, a);
    }
  }

  lemma {:induction false} LongestKey(keys: set<string>)
    ensures exists n: nat :: UpTo(keys, n)
    decreases |keys|
  {
    if keys == {} {
      assert UpTo(keys, 0);
    } else {
      var key :| key in keys;
      LongestKey(keys - {key});
      var n: nat :| UpTo(keys - {key}, n);
      var m: nat := if n < |key| then |key| else n;
      forall k | k in keys ensures |k| <= m {
        if k != key {
          assert k in keys - {key};
        }
      }
      assert UpTo(keys, m);
    }
  }

  // A live id above the counter will be given out again.
  lemma HighIdCollides(s: Store, key: string, a: Args)
    requires key in s.rows && s.rows[key].id > s.nextId
    ensures !SafeForever(s)
  {
    LongestKey(s.rows.Keys);
    var n: nat :| UpTo(s.rows.Keys, n);
    var d := s.rows[key].id - s.nextId;
    FreshAddsCount(s, n, d, a);
    var t := Run(s, FreshAdds(n, d, a));
    assert |LongKey(n + d)| == n + d > |key|;
    assert t.rows[key].id == t.rows[LongKey(n + d)].id;
    assert !DistinctIds(t);
  }

  /** From a store, however adds and deletes go on, live ids stay distinct if and only if they are
      distinct now and none is above the counter. */
  lemma SafeForeverIff(s: Store)
    ensures SafeForever(s) <==> DistinctIds(s) && Bounded(s)
  {
    if DistinctIds(s) && Bounded(s) {
      forall ops | NoUpdates(ops) ensures DistinctIds(Run(s, ops)) {
        RunKeepsBound(s, ops);
      }
    }
    if SafeForever(s) {
      assert NoUpdates([]) && Run(s, []) == s;
      if !Bounded(s) {
        var key :| key in s.rows && s.rows[key].id > s.nextId;
        HighIdCollides(s, key, Args("", None, None, None, None, Flags(false, false, false, false)));
      }
    }
  }

  // What a caller can check before update_item: no other row has the id, and it was given out.
  predicate MayInstall(s: Store, row: Row)
  {
    row.id <= s.nextId && forall k :: k in s.rows && k != row.key ==> s.rows[k].id != row.id
  }

  // For the store as it is, it is enough that nobody else has the id.
  lemma UpdateKeepsIdsDistinctIff(s: Store, row: Row)
    requires DistinctIds(s)
    ensures DistinctIds(Apply(s, Update(row)))
            <==> forall k :: k in s.rows && k != row.key ==> s.rows[k].id != row.id
  {
    var t := Apply(s, Update(row));
    if DistinctIds(t) {
      forall k | k in s.rows && k != row.key ensures s.rows[k].id != row.id {
        assert t.rows[k] == s.rows[k] && t.rows[row.key] == row;
      }
    }
  }

  /** The exact condition for an update to be harmless for ever: the caller's check. */
  lemma UpdateIsSafeIff(s: Store, row: Row)
    requires SafeForever(s)
    ensures SafeForever(Apply(s, Update(row))) <==> MayInstall(s, row)
  {
    var t := Apply(s, Update(row));
    SafeForeverIff(s);
    SafeForeverIff(t);
    UpdateKeepsIdsDistinctIff(s, row);
    assert t.rows[row.key] == row;
  }

  predicate Checked(ops: seq<Op>)
  {
    ops != [] ==>
      Checked(Init(ops)) && (Last(ops).Update? ==> MayInstall(History(Init(ops)), Last(ops).row))
  }

  /** So in every history whose updates pass the check, live ids are distinct and stay so. */
  lemma {:induction false} CheckedHistoriesAreSafe(ops: seq<Op>)
    requires Checked(ops)
    ensures DistinctIds(History(ops)) && SafeForever(History(ops))
  {
    SafeForeverIff(History(ops));
    if ops != [] {
      var s := History(Init(ops));
      CheckedHistoriesAreSafe(Init(ops));
      SafeForeverIff(s);
      if Last(ops).Update? {
        UpdateIsSafeIff(s, Last(ops).row);
      } else {
        CallKeepsBound(s, Last(ops));
      }
    }
  }

  /** An update can break it: it installs an id that was not given out yet, and add_client later
      gives out the same one. */
  lemma AnUpdateCanCollide(a: Args)
    ensures var row := Created("x", 1, a);
            !DistinctIds(History([Update(row), Add("y", a)])) && !MayInstall(History([]), row)
  {
    var forged := Update(Created("x", 1, a));
    var ops := [forged, Add("y", a)];
    assert Init(ops) == [forged] && Init([forged]) == [];
    var s := History([forged]);
    assert Last([forged]) == forged && History([]) == Store(map[], 0);
    assert s == Apply(Store(map[], 0), forged);
    assert s == Store(map["x" := Created("x", 1, a)], 0);
    assert History(ops) == Apply(s, Add("y", a));
    assert "x" != "y" by { assert |"x"| == 1 && "x"[0] != "y"[0]; }
    assert History(ops).rows["x"].id == 1 && History(ops).rows["y"].id == 1;
  }

  // ----- rows as a replay -----

  // What decides the row of a key: the last update_item of it since its last delete, if any, and
  // the add_client calls after that.
  datatype Since = Since(base: Option<Row>, calls: seq<Args>)

  function SinceReset(ops: seq<Op>, key: string): Since
  {
    if ops == [] then Since(None, []) else
      var before := SinceReset(Init(ops), key);
      match Last(ops)
      case Add(k, a) => if k == key then before.(calls := before.calls + [a]) else before
      case Update(row) => if row.key == key then Since(Some(row), []) else before
      case Delete(k) => if k == key then Since(None, []) else before
  }

  function Latest(calls: seq<Args>, says: Args -> bool): (r: Option<Args>)
    ensures r.Some? ==> says(r.value) && r.value in calls
    ensures r.None? ==> forall a :: a in calls ==> !says(a)
  {
    if calls == [] then None
    else if says(Last(calls)) then Some(Last(calls))
    else Latest(Init(calls), says)
  }

  predicate NamesIt(a: Args) { a.name != "" }
  predicate SetsPassword(a: Args) { Full(a.password) }
  predicate SetsAllowed(a: Args) { a.allowed.Some? }
  predicate SetsIntents(a: Args) { a.intents.Some? }
  predicate SetsSkills(a: Args) { a.skills.Some? }

  // A blacklist as stored: an empty one is not kept.
  function Kept(xs: Option<seq<string>>): Option<seq<string>>
  {
    if Full(xs) then xs else None
  }

  // What the calls since the reset make of each field: that of the latest call that sets it, and
  // otherwise the base row's, or a new row's.
  function NameSince(s: Since): string
  {
    var c := Latest(s.calls, NamesIt);
    if c.Some? then c.value.name else if s.base.Some? then s.base.value.name else ""
  }

  function PasswordSince(s: Since): Option<string>
  {
    var c := Latest(s.calls, SetsPassword);
    if c.Some? then c.value.password
    else if s.base.Some? then s.base.value.password
    else if s.calls != [] then s.calls[0].password else None
  }

  function AllowedSince(s: Since): seq<string>
  {
    var c := Latest(s.calls, SetsAllowed);
    if c.Some? then c.value.allowed.value else if s.base.Some? then s.base.value.allowed else []
  }

  function IntentsSince(s: Since): Option<seq<string>>
  {
    var c := Latest(s.calls, SetsIntents);
    if c.Some? then Kept(c.value.intents) else if s.base.Some? then s.base.value.intents else None
  }

  function SkillsSince(s: Since): Option<seq<string>>
  {
    var c := Latest(s.calls, SetsSkills);
    if c.Some? then Kept(c.value.skills) else if s.base.Some? then s.base.value.skills else None
  }

  function FlagsSince(s: Since): Flags
    requires Live(s)
  {
    if s.calls != [] then Last(s.calls).flags else s.base.value.flags
  }

  predicate Live(s: Since)
  {
    s.base.Some? || s.calls != []
  }

  predicate IsReplay(row: Row, s: Since)
  {
    && Live(s)
    && row == Row(row.key, row.id, NameSince(s), PasswordSince(s), AllowedSince(s),
                  IntentsSince(s), SkillsSince(s), FlagsSince(s))
  }

  lemma LatestPush(calls: seq<Args>, a: Args, says: Args -> bool)
    ensures Latest(calls + [a], says) == if says(a) then Some(a) else Latest(calls, says)
  {
    assert Init(calls + [a]) == calls;
  }

  function Push(s: Since, a: Args): Since
  {
    s.(calls := s.calls + [a])
  }

  // One more call, field by field.
  lemma NameAfter(s: Since, a: Args)
    ensures NameSince(Push(s, a)) == if a.name != "" then a.name else NameSince(s)
  {
    LatestPush(s.calls, a, NamesIt);
  }

  lemma PasswordAfter(s: Since, a: Args)
    ensures PasswordSince(Push(s, a)) ==
              if Full(a.password) then a.password else if Live(s) then PasswordSince(s) else a.password
  {
    LatestPush(s.calls, a, SetsPassword);
  }

  lemma ListsAfter(s: Since, a: Args)
    ensures AllowedSince(Push(s, a)) == if a.allowed.Some? then a.allowed.value else AllowedSince(s)
    ensures IntentsSince(Push(s, a)) == Listed(IntentsSince(s), a.intents)
    ensures SkillsSince(Push(s, a)) == Listed(SkillsSince(s), a.skills)
  {
    LatestPush(s.calls, a, SetsAllowed);
    LatestPush(s.calls, a, SetsIntents);
    LatestPush(s.calls, a, SetsSkills);
  }

  lemma FirstCallIsReplayed(s: Since, key: string, id: int, a: Args)
    requires !Live(s)
    ensures IsReplay(Created(key, id, a), Push(s, a))
  {
    NameAfter(s, a);
    PasswordAfter(s, a);
    ListsAfter(s, a);
  }

  lemma CallIsReplayed(row: Row, s: Since, a: Args)
    requires IsReplay(row, s)
    ensures IsReplay(Amended(row, a), Push(s, a))
  {
    NameAfter(s, a);
    PasswordAfter(s, a);
    ListsAfter(s, a);
  }

  /** For every history: a key is live exactly when it was added or updated since its last delete,
      and then every field of its row is the one its latest relevant call gave. */
  lemma {:induction false} RowsReplayTheirCalls(ops: seq<Op>, key: string)
    ensures var s := SinceReset(ops, key);
            && (key in History(ops).rows <==> Live(s))
            && (key in History(ops).rows ==> IsReplay(History(ops).rows[key], s))
  {
    if ops != [] {
      var init, s := Init(ops), SinceReset(Init(ops), key);
      RowsReplayTheirCalls(init, key);
      var before := History(init);
      match Last(ops)
      case Add(k, a) =>
        if k == key {
          if key in before.rows {
            CallIsReplayed(before.rows[key], s, a);
          } else {
            FirstCallIsReplayed(s, key, before.nextId + 1, a);
          }
        }
      case Update(_) =>
      case Delete(_) =>
    }
  }

  // ----- the rows in place -----

  class Client {
    const apiKey: string
    const id: int
    var name: string
    var password: Option<string>
    var allowed: seq<string>
    var intents: Option<seq<string>>
    var skills: Option<seq<string>>
    var admin: bool
    var canEscalate: bool
    var canPropagate: bool
    var canBroadcast: bool

    constructor (key: string, id: int, a: Args)
      ensures AsRow() == Created(key, id, a)
    {
      apiKey := key;
      this.id := id;
      name := a.name;
      password := a.password;
      allowed := if a.allowed.Some? then a.allowed.value else [];
      intents := if Full(a.intents) then a.intents else None;
      skills := if Full(a.skills) then a.skills else None;
      admin, canEscalate, canPropagate, canBroadcast :=
        a.flags.admin, a.flags.escalate, a.flags.propagate, a.flags.broadcast;
    }

    method Amend(a: Args)
      modifies this
      ensures AsRow() == Amended(old(AsRow()), a)
    {
      AmendLists(a);
      if a.name != "" {
        name := a.name;
      }
      admin := a.flags.admin;
      if Full(a.password) {
        password := a.password;
      }
      canEscalate := a.flags.escalate;
      canPropagate := a.flags.propagate;
      canBroadcast := a.flags.broadcast;
    }

    // An empty blacklist is taken out of the metadata, an empty whitelist is stored.
    method AmendLists(a: Args)
      modifies this`intents, this`skills, this`allowed
      ensures intents == Listed(old(intents), a.intents) && skills == Listed(old(skills), a.skills)
      ensures allowed == if a.allowed.Some? then a.allowed.value else old(allowed)
    {
      if a.intents.Some? {
        intents := if a.intents.value != [] then a.intents else None;
      }
      if a.skills.Some? {
        skills := if a.skills.value != [] then a.skills else None;
      }
      if a.allowed.Some? {
        allowed := a.allowed.value;
      }
    }

    ghost function AsRow(): Row
      reads this
    {
      Row(apiKey, id, name, password, allowed, intents, skills,
          Flags(admin, canEscalate, canPropagate, canBroadcast))
    }
  }

  class ClientDatabase {
    var clients: map<string, Client>
    // The keys of `clients` as a dict keeps them, in the order they were first inserted.
    var order: seq<string>
    var nextId: nat

    // A row is filed under its own key, so no object is filed twice.
    ghost predicate Valid()
      reads this
    {
      && (forall k :: k in clients ==> clients[k].apiKey == k)
      && Distinct(order) && forall k :: k in order <==> k in clients
    }

    ghost function Contents(): Store
      reads this, clients.Values
    {
      Store(map k | k in clients :: clients[k].AsRow(), nextId)
    }

    constructor ()
      ensures Valid() && Contents() == History([])
    {
      clients, order, nextId := map[], [], 0;
    }

    /** An existing row is amended in place: whoever holds the object sees the change. */
    method AddClient(key: string, a: Args)
      requires Valid()
      modifies this, if key in clients then {clients[key]} else {}
      ensures Valid() && order == Filed(old(order), key)
      ensures Contents() == Apply(old(Contents()), Add(key, a))
      ensures key in clients
      ensures if key in old(clients) then clients == old(clients)
              else fresh(clients[key]) && clients == old(clients)[key := clients[key]]
    {
      if key in clients {
        AmendExisting(key, a);
      } else {
        Create(key, a);
      }
    }

    // Filing the row again where it is changes nothing.
    method AmendExisting(key: string, a: Args)
      requires Valid() && key in clients
      modifies clients[key]
      ensures Valid() && Contents() == Apply(old(Contents()), Add(key, a))
    {
      var existing := clients[key];
      ghost var rows := Contents().rows;
      existing.Amend(a);
      RowsAfter(rows, key, a);
    }

    // The contents with one row filed, new or not.
    lemma RowFiled(rows: map<string, Row>, key: string)
      requires Valid() && key in clients && clients.Keys == rows.Keys + {key}
      requires forall k :: k in clients && k != key ==> clients[k].AsRow() == rows[k]
      ensures Contents().rows == rows[key := clients[key].AsRow()]
    {
    }

    // Row by row.
    lemma RowsAfter(rows: map<string, Row>, key: string, a: Args)
      requires Valid() && key in clients && rows.Keys == clients.Keys
      requires clients[key].AsRow() == Amended(rows[key], a)
      requires forall k :: k in clients && k != key ==> clients[k].AsRow() == rows[k]
      ensures Contents().rows == rows[key := Amended(rows[key], a)]
    {
    }

    method Create(key: string, a: Args)
      requires Valid() && key !in clients
      modifies this
      ensures Valid() && order == old(order) + [key]
      ensures Contents() == Apply(old(Contents()), Add(key, a))
      ensures key in clients && fresh(clients[key]) && clients == old(clients)[key := clients[key]]
    {
      ghost var rows := Contents().rows;
      nextId := nextId + 1;
      var client := new Client(key, nextId, a);
      assert Contents().rows == rows;
      File(client);
      assert Contents().rows == rows[key := Created(key, nextId, a)];
    }

    // `self._clients[client.api_key] = client`
    method File(client: Client)
      requires Valid()
      modifies this`clients, this`order
      ensures Valid() && order == Filed(old(order), client.apiKey)
      ensures clients == old(clients)[client.apiKey := client]
      ensures Contents() == old(Contents()).(rows := old(Contents()).rows[client.apiKey := client.AsRow()])
    {
      ghost var rows := Contents().rows;
      FiledIsLonger(order, client.apiKey);
      clients, order := clients[client.apiKey := client], Filed(order, client.apiKey);
      RowFiled(rows, client.apiKey);
    }

    method UpdateItem(client: Client)
      requires Valid()
      modifies this
      ensures Valid() && order == Filed(old(order), client.apiKey)
      ensures Contents() == Apply(old(Contents()), Update(old(client.AsRow())))
      ensures clients == old(clients)[client.apiKey := client]
    {
      File(client);
    }

    method DeleteClient(key: string) returns (deleted: bool)
      requires Valid()
      modifies this
      ensures Valid() && order == Without(old(order), key)
      ensures deleted == (key in old(clients))
      ensures Contents() == Apply(old(Contents()), Delete(key))
      ensures clients == old(clients) - {key}
    {
      deleted := key in clients;
      if deleted {
        Unfile(key);
      } else {
        WithoutAbsentKey(key);
      }
    }

    lemma WithoutAbsentKey(key: string)
      requires Valid() && key !in clients
      ensures Without(order, key) == order && clients - {key} == clients
    {
      WithoutAbsent(order, key);
    }

    // `del self._clients[key]`
    method Unfile(key: string)
      requires Valid()
      modifies this`clients, this`order
      ensures Valid() && order == Without(old(order), key) && clients == old(clients) - {key}
    {
      WithoutIsSublist(order, key);
      clients, order := clients - {key}, Without(order, key);
    }

    /** The lookup by id: the first row that has it, in insertion order. When live ids are distinct
        it inverts the lookup by key. */
    method GetClientById(clientId: int) returns (found: Client?)
      requires Valid()
      ensures found == null <==> forall k :: k in clients ==> clients[k].id != clientId
      ensures found != null ==>
                exists i :: 0 <= i < |order| && order[i] in clients && clients[order[i]] == found
                            && found.id == clientId
                            && forall j :: 0 <= j < i ==> order[j] in clients && clients[order[j]].id != clientId
      ensures DistinctIds(Contents()) ==>
                forall k :: k in clients && clients[k].id == clientId ==> found == clients[k]
    {
      for i := 0 to |order|
        invariant forall j :: 0 <= j < i ==> order[j] in clients && clients[order[j]].id != clientId
      {
        assert order[i] in clients;
        if clients[order[i]].id == clientId {
          assert DistinctIds(Contents()) ==> forall k :: k in clients && k != order[i] ==>
              Contents().rows[k].id != Contents().rows[order[i]].id;
          return clients[order[i]];
        }
      }
      return null;
    }
  }
}
