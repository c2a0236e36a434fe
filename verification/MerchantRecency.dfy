/** The merchant store evicts the least recently used entry (x402/store.ts): over any run
    the order of its map is the order of last use. */
module MerchantRecency {
  import opened Options
  import opened OrderedMaps
  import opened MerchantStore
  import opened MerchantLifecycle

  /** The entry an operation uses: stores, finds alive, or patches. */
  function UsedBy(m: Entries, op: Op): Option<string> {
    match op
    case Record(id, finding, now) =>
      if UpdatedIf(m, id, WriteFor(finding, now).0, WriteFor(finding, now).1, now).1 then Some(id) else None
    case Deliver(id, expected, patch, condition, now) =>
      if DeliveredIf(m, id, expected, patch, condition, now).1.Some? then Some(id) else None
    case Fetch(id, now) => if Fetched(m, id, now).1.Some? then Some(id) else None
    case Offer(id, _, _) => Some(id)
    case Delete(_) => None
  }

  /** When each entry was last used, on a clock that ticks once an operation. */
  datatype Clock = Clock(now: nat, lastUse: map<string, nat>)

  function Tick(c: Clock, m: Entries, op: Op): Clock {
    Clock(c.now + 1, if UsedBy(m, op).Some? then c.lastUse[UsedBy(m, op).value := c.now] else c.lastUse)
  }

  function Ticks(c: Clock, m: Entries, ops: seq<Op>, cap: Option<int>): Clock
    decreases |ops|
  {
    if ops == [] then c else Ticks(Tick(c, m, ops[0]), Do(m, ops[0], cap), ops[1..], cap)
  }

  ghost predicate InOrder(m: Entries, c: Clock) {
    && Unique(m)
    && (forall i | 0 <= i < |m| :: m[i].0 in c.lastUse && c.lastUse[m[i].0] < c.now)
    && (forall i, j | 0 <= i < j < |m| ::
          m[i].0 in c.lastUse && m[j].0 in c.lastUse && c.lastUse[m[i].0] < c.lastUse[m[j].0])
  }

  /** `n` is `m` with some entries left out. */
  ghost predicate Within(n: Entries, m: Entries) {
    exists at: seq<nat> :: Places(n, m, at)
  }

  ghost predicate Places(n: Entries, m: Entries, at: seq<nat>) {
    && |at| == |n|
    && (forall i | 0 <= i < |n| :: at[i] < |m| && n[i].0 == m[at[i]].0)
    && (forall i, j | 0 <= i < j < |n| :: at[i] < at[j])
  }

  lemma WithinOrder(n: Entries, m: Entries, c: Clock)
    requires InOrder(m, c) && Within(n, m) && Unique(n)
    ensures InOrder(n, c)
  {
    var at :| Places(n, m, at);
  }

  function UpTo(n: nat): (at: seq<nat>)
    ensures |at| == n && forall i | 0 <= i < n :: at[i] == i
  {
    if n == 0 then [] else UpTo(n - 1) + [n - 1]
  }

  function Shift(at: seq<nat>): (r: seq<nat>)
    ensures |r| == |at| && forall i | 0 <= i < |at| :: r[i] == at[i] + 1
  {
    if at == [] then [] else Shift(at[..|at| - 1]) + [at[|at| - 1] + 1]
  }

  lemma TailWithin(m: Entries)
    requires m != []
    ensures Within(m[1..], m)
  {
    assert Places(m[1..], m, Shift(UpTo(|m| - 1)));
  }

  lemma ConsWithin(e: (string, Entry), n: Entries, m: Entries)
    requires Within(n, m)
    ensures Within([e] + n, [e] + m)
  {
    var at :| Places(n, m, at);
    assert Places([e] + n, [e] + m, [0] + Shift(at));
  }

  lemma {:induction false} RemoveWithin(m: Entries, id: string)
    ensures Within(Remove(m, id), m)
  {
    if m == [] {
      assert Places(Remove(m, id), m, []);
    } else if m[0].0 == id {
      TailWithin(m);
    } else {
      RemoveWithin(m[1..], id);
      ConsWithin(m[0], Remove(m[1..], id), m[1..]);
      assert [m[0]] + m[1..] == m;
    }
  }

  lemma {:induction false} PurgedWithin(m: Entries, now: int)
    ensures Within(Purged(m, now), m)
  {
    if m == [] {
      assert Places(Purged(m, now), m, []);
    } else {
      var last := |m| - 1;
      PurgedWithin(m[..last], now);
      var at :| Places(Purged(m[..last], now), m[..last], at);
      if Expired(m[last].1, now) {
        assert Places(Purged(m, now), m, at);
      } else {
        assert Places(Purged(m, now), m, at + [last]);
      }
    }
  }

  lemma RemoveInOrder(m: Entries, id: string, c: Clock)
    requires InOrder(m, c)
    ensures InOrder(Remove(m, id), c)
  {
    RemoveFacts(m, id);
    RemoveWithin(m, id);
    WithinOrder(Remove(m, id), m, c);
  }

  lemma AppendInOrder(rest: Entries, id: string, e: Entry, c: Clock)
    requires InOrder(rest, c) && forall i | 0 <= i < |rest| :: rest[i].0 != id
    ensures InOrder(rest + [(id, e)], Clock(c.now + 1, c.lastUse[id := c.now]))
  {
    var n, last := rest + [(id, e)], c.lastUse[id := c.now];
    forall i | 0 <= i < |rest| ensures n[i].0 in last && last[n[i].0] < c.now {
      assert n[i] == rest[i];
    }
    forall i, j | 0 <= i < j < |n| ensures n[i].0 != n[j].0 && last[n[i].0] < last[n[j].0] {
      assert n[i] == rest[i];
      if j < |rest| {
        assert n[j] == rest[j];
      }
    }
  }

  /** Using an entry now makes it the last one. */
  lemma TouchInOrder(m: Entries, id: string, e: Entry, c: Clock)
    requires InOrder(m, c)
    ensures InOrder(Touched(m, id, e), Clock(c.now + 1, c.lastUse[id := c.now]))
  {
    RemoveInOrder(m, id, c);
    RemoveFacts(m, id);
    TouchedFacts(m, id, e);
    var rest := Remove(m, id);
    forall i | 0 <= i < |rest| ensures rest[i].0 != id {
      assert rest[i].0 in Keys(rest);
    }
    AppendInOrder(rest, id, e, c);
  }

  lemma LaterInOrder(m: Entries, c: Clock)
    requires InOrder(m, c)
    ensures InOrder(m, Clock(c.now + 1, c.lastUse))
  {
  }

  lemma OfferInOrder(m: Entries, id: string, e: Entry, cap: Option<int>, now: int, c: Clock)
    requires InOrder(m, c)
    ensures InOrder(Put(m, id, e, cap, now), Clock(c.now + 1, c.lastUse[id := c.now]))
  {
    PurgedFacts(m, now);
    PurgedWithin(m, now);
    var kept := Purged(m, now);
    WithinOrder(kept, m, c);
    if kept != [] {
      RemoveInOrder(kept, kept[0].0, c);
    }
    TouchInOrder(MakeRoom(kept, id, cap), id, e, c);
  }

  /** The three ends of an operation on one entry: nothing, removal, or use. */
  lemma LeftOrUsed(m: Entries, id: string, e: Entry, c: Clock)
    requires InOrder(m, c)
    ensures InOrder(m, Clock(c.now + 1, c.lastUse))
    ensures InOrder(Remove(m, id), Clock(c.now + 1, c.lastUse))
    ensures InOrder(Touched(m, id, e), Clock(c.now + 1, c.lastUse[id := c.now]))
  {
    RemoveInOrder(m, id, c);
    TouchInOrder(m, id, e, c);
    LaterInOrder(m, c);
    LaterInOrder(Remove(m, id), c);
  }

  lemma OpInOrder(m: Entries, op: Op, cap: Option<int>, c: Clock)
    requires InOrder(m, c)
    ensures InOrder(Do(m, op, cap), Tick(c, m, op))
  {
    match op
    case Record(id, finding, now) =>
      if Get(m, id).Some? {
        LeftOrUsed(m, id, Patched(Get(m, id).value, WriteFor(finding, now).1, now), c);
      } else {
        LaterInOrder(m, c);
      }
    case Deliver(id, expected, patch, condition, now) =>
      if Get(m, id).Some? {
        var e := Get(m, id).value;
        LeftOrUsed(m, id, e.(merchantDelivery := Delivered(e.merchantDelivery, patch), updatedAt := now), c);
      } else {
        LaterInOrder(m, c);
      }
    case Fetch(id, now) =>
      if Get(m, id).Some? {
        LeftOrUsed(m, id, Get(m, id).value, c);
      } else {
        LaterInOrder(m, c);
      }
    case Offer(id, entry, now) => OfferInOrder(m, id, entry, cap, now, c);
    case Delete(id) =>
      RemoveInOrder(m, id, c);
      LaterInOrder(Remove(m, id), c);
  }

  lemma {:induction false} RunInOrder(m: Entries, ops: seq<Op>, cap: Option<int>, c: Clock)
    requires InOrder(m, c)
    ensures InOrder(After(m, ops, cap), Ticks(c, m, ops, cap))
    decreases |ops|
  {
    if ops != [] {
      OpInOrder(m, ops[0], cap, c);
      RunInOrder(Do(m, ops[0], cap), ops[1..], cap, Tick(c, m, ops[0]));
    }
  }

  /** Over any run, a live entry that a new offer evicts was used before every live entry
      that stays. */
  lemma VictimIsLeastRecentlyUsed(ops: seq<Op>, cap: Option<int>, id: string, e: Entry, now: int,
                                  victim: string, kept: string)
    requires var m := After([], ops, cap);
             && Get(m, victim).Some? && !Expired(Get(m, victim).value, now) && victim != id && kept != id
             && Get(Put(m, id, e, cap, now), victim).None? && Get(Put(m, id, e, cap, now), kept).Some?
    ensures var last := Ticks(Clock(0, map[]), [], ops, cap).lastUse;
            victim in last && kept in last && last[victim] < last[kept]
  {
    var m := After([], ops, cap);
    var c := Ticks(Clock(0, map[]), [], ops, cap);
    RunInOrder([], ops, cap, Clock(0, map[]));
    PurgedFacts(m, now);
    PurgedWithin(m, now);
    var live := Purged(m, now);
    WithinOrder(live, m, c);
    var room := MakeRoom(live, id, cap);
    if live != [] {
      RemoveFacts(live, live[0].0);
    }
    TouchedFacts(room, id, e);
    assert live != [] && victim == live[0].0;
    GetKeys(live, kept);
    var j :| 0 <= j < |live| && live[j].0 == kept;
    assert j > 0;
  }
}
