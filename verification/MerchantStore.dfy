/** The merchant's store of payment round trips (x402/store.ts, `InMemoryX402Store`). */
module MerchantStore {
  import opened Options
  import opened OrderedMaps

  datatype EntryStatus = Offered | Verified | Completed | Failed | Rejected

  datatype FailurePoint = AtClassify | AtVerify | AtSettle | ByClient

  datatype Failure = Failure(point: FailurePoint, code: string, reason: string, indeterminate: bool)

  /** What a facilitator reported as settled. */
  datatype Receipt = Receipt(transaction: string, network: string, payer: Option<string>, amount: Option<string>)

  datatype Timing = AfterSettlement | AfterVerification

  datatype Delivery = Delivery(
    timing: Timing, publicationStartedAt: Option<int>, publicationClosedAt: Option<int>,
    workCompletedAt: Option<int>, workFailedAt: Option<int>, settlementFailedAt: Option<int>)

  datatype DeliveryPatch = DeliveryPatch(
    timing: Option<Timing>, publicationStartedAt: Option<int>, publicationClosedAt: Option<int>,
    workCompletedAt: Option<int>, workFailedAt: Option<int>, settlementFailedAt: Option<int>)

  datatype Condition = Condition(
    publicationStarted: Option<bool>, publicationClosed: Option<bool>, notAfter: Option<int>)

  datatype Entry = Entry(
    accepts: seq<string>, status: EntryStatus, storedAt: int, updatedAt: int, expiresAt: Option<int>,
    verifiedAt: Option<int>, receipt: Option<Receipt>, failure: Option<Failure>, merchantDelivery: Option<Delivery>)

  /** Absent keys leave the entry's field alone. */
  datatype Patch = Patch(
    status: Option<EntryStatus>, verifiedAt: Option<int>, receipt: Option<Receipt>, failure: Option<Failure>)

  type Entries = OrderedMap<Entry>

  function Or<T>(next: Option<T>, current: Option<T>): Option<T> {
    if next.Some? then next else current
  }

  function Patched(e: Entry, patch: Patch, now: int): Entry {
    e.(status := if patch.status.Some? then patch.status.value else e.status,
       verifiedAt := Or(patch.verifiedAt, e.verifiedAt), receipt := Or(patch.receipt, e.receipt),
       failure := Or(patch.failure, e.failure), updatedAt := now)
  }

  predicate Expired(e: Entry, now: int) {
    e.expiresAt.Some? && e.expiresAt.value <= now
  }

  /** Delete and set again: the entry becomes the most recently used. */
  function Touched(m: Entries, id: string, e: Entry): Entries {
    Set(Remove(m, id), id, e)
  }

  lemma TouchedFacts(m: Entries, id: string, e: Entry)
    requires Unique(m)
    ensures Touched(m, id, e) == Remove(m, id) + [(id, e)]
    ensures Unique(Touched(m, id, e))
    ensures forall k :: Get(Touched(m, id, e), k) == if k == id then Some(e) else Get(m, k)
    ensures |Touched(m, id, e)| == |m| + (if Get(m, id).Some? then 0 else 1)
  {
    RemoveFacts(m, id);
    SetFacts(Remove(m, id), id, e);
    GetKeys(m, id);
  }

  /** The sweep of expired entries. */
  function Purged(m: Entries, now: int): Entries {
    if m == [] then []
    else Purged(m[..|m| - 1], now) + (if Expired(m[|m| - 1].1, now) then [] else [m[|m| - 1]])
  }

  lemma {:induction false} SnocGet(m: Entries, e: (string, Entry), k: string)
    ensures Get(m + [e], k) == if Get(m, k).Some? then Get(m, k) else if k == e.0 then Some(e.1) else None
  {
    if m == [] {
      assert ([] + [e])[1..] == [];
    } else {
      assert (m + [e])[1..] == m[1..] + [e];
      SnocGet(m[1..], e, k);
    }
  }

  /** The sweep removes exactly the expired entries. */
  lemma {:induction false} PurgedFacts(m: Entries, now: int)
    requires Unique(m)
    ensures Unique(Purged(m, now)) && |Purged(m, now)| <= |m| && Keys(Purged(m, now)) <= Keys(m)
    ensures forall k :: Get(Purged(m, now), k) ==
              if Get(m, k).Some? && Expired(Get(m, k).value, now) then None else Get(m, k)
  {
    if m != [] {
      var last := |m| - 1;
      var rest, purged := m[..last], Purged(m[..last], now);
      PurgedFacts(rest, now);
      assert m == rest + [m[last]];
      assert forall i | 0 <= i < last :: rest[i] == m[i];
      assert m[last].0 !in Keys(rest);
      GetKeys(rest, m[last].0);
      assert purged + [] == purged;
      forall k ensures Get(Purged(m, now), k) ==
              if Get(m, k).Some? && Expired(Get(m, k).value, now) then None else Get(m, k)
      {
        SnocGet(rest, m[last], k);
        SnocGet(purged, m[last], k);
      }
      PurgedKeys(m, now);
    }
  }

  lemma PurgedKeys(m: Entries, now: int)
    requires Unique(m) && m != []
    requires Unique(Purged(m[..|m| - 1], now)) && Keys(Purged(m[..|m| - 1], now)) <= Keys(m[..|m| - 1])
    ensures Unique(Purged(m, now)) && Keys(Purged(m, now)) <= Keys(m)
  {
    var last := |m| - 1;
    var purged := Purged(m[..last], now);
    forall i | 0 <= i < |purged| ensures purged[i].0 in Keys(m) && purged[i].0 != m[last].0 {
      assert purged[i].0 in Keys(purged);
      var j :| 0 <= j < last && m[..last][j].0 == purged[i].0;
      assert m[j].0 == purged[i].0;
    }
  }

  // ---- The operations, on values ------------------------------------------------------------

  /** At the cap a new key costs the least recently used entry. */
  function MakeRoom(kept: Entries, id: string, cap: Option<int>): Entries {
    if cap.Some? && |kept| >= cap.value && Get(kept, id).None? && kept != [] then Remove(kept, kept[0].0) else kept
  }

  function Put(m: Entries, id: string, e: Entry, cap: Option<int>, now: int): Entries {
    var kept := Purged(m, now);
    Touched(MakeRoom(kept, id, cap), id, e)
  }

  function Fetched(m: Entries, id: string, now: int): (Entries, Option<Entry>) {
    var e := Get(m, id);
    if e.None? then (m, None)
    else if Expired(e.value, now) then (Remove(m, id), None)
    else (Touched(m, id, e.value), e)
  }

  function UpdatedIf(m: Entries, id: string, expected: set<EntryStatus>, patch: Patch, now: int): (Entries, bool) {
    var e := Get(m, id);
    if e.None? || e.value.status !in expected then (m, false)
    else if Expired(e.value, now) then (Remove(m, id), false)
    else (Touched(m, id, Patched(e.value, patch, now)), true)
  }

  predicate Meets(d: Option<Delivery>, c: Condition, now: int) {
    && (c.publicationStarted.Some? ==> (d.Some? && d.value.publicationStartedAt.Some?) == c.publicationStarted.value)
    && (c.publicationClosed.Some? ==> (d.Some? && d.value.publicationClosedAt.Some?) == c.publicationClosed.value)
    && (c.notAfter.Some? ==> now < c.notAfter.value)
  }

  const NoDelivery := DeliveryPatch(None, None, None, None, None, None)

  function AsPatch(d: Option<Delivery>): DeliveryPatch {
    if d.None? then NoDelivery
    else DeliveryPatch(Some(d.value.timing), d.value.publicationStartedAt, d.value.publicationClosedAt,
                       d.value.workCompletedAt, d.value.workFailedAt, d.value.settlementFailedAt)
  }

  /** Markers already set win over the patch; nothing is written without a timing, or when
      both markers would be set. */
  function Delivered(d: Option<Delivery>, patch: DeliveryPatch): Option<Delivery> {
    var cur := AsPatch(d);
    var timing := Or(patch.timing, cur.timing);
    var started := Or(cur.publicationStartedAt, patch.publicationStartedAt);
    var closed := Or(cur.publicationClosedAt, patch.publicationClosedAt);
    if timing.None? || (started.Some? && closed.Some?) then None
    else Some(Delivery(timing.value, started, closed, Or(patch.workCompletedAt, cur.workCompletedAt),
                       Or(patch.workFailedAt, cur.workFailedAt),
                           Or(patch.settlementFailedAt, cur.settlementFailedAt)))
  }

  function DeliveredIf(m: Entries, id: string, expected: set<EntryStatus>, patch: DeliveryPatch, condition: Condition,
                       now: int): (Entries, Option<EntryStatus>) {
    var e := Get(m, id);
    if e.None? || e.value.status !in expected then (m, None)
    else if Expired(e.value, now) then (Remove(m, id), None)
    else if !Meets(e.value.merchantDelivery, condition, now) then (m, None)
    else
      var next := Delivered(e.value.merchantDelivery, patch);
      if next.None? then (m, None)
      else (Touched(m, id, e.value.(merchantDelivery := next, updatedAt := now)), Some(e.value.status))
  }

  class InMemoryX402Store {
    const maxEntries: Option<int>
    var entries: Entries

    ghost predicate Valid()
      reads this
    {
      Unique(entries)
    }

    constructor (maxEntries: Option<int>)
      ensures Valid() && entries == [] && this.maxEntries == maxEntries
    {
      this.maxEntries, entries := maxEntries, [];
    }

    method PurgeExpired(now: int)
      requires Valid()
      modifies this
      ensures Valid() && entries == Purged(old(entries), now)
    {
      var all, kept := entries, [];
      for i := 0 to |all|
        invariant kept == Purged(all[..i], now) && entries == all
      {
        assert all[..i + 1][..i] == all[..i];
        if !Expired(all[i].1, now) {
          kept := kept + [all[i]];
        }
      }
      assert all[..|all|] == all;
      PurgedFacts(all, now);
      entries := kept;
    }

    method PutEntry(id: string, entry: Entry, now: int)
      requires Valid()
      modifies this
      ensures Valid() && entries == Put(old(entries), id, entry, maxEntries, now)
    {
      PurgeExpired(now);
      if maxEntries.Some? && |entries| >= maxEntries.value && Get(entries, id).None? {
        if entries != [] {
          RemoveFacts(entries, entries[0].0);
          entries := Remove(entries, entries[0].0);
        }
      }
      TouchedFacts(entries, id, entry);
      entries := Touched(entries, id, entry);
    }

    method GetEntry(id: string, now: int) returns (entry: Option<Entry>)
      requires Valid()
      modifies this
      ensures Valid() && (entries, entry) == Fetched(old(entries), id, now)
    {
      entry := Get(entries, id);
      if entry.None? {
        return None;
      }
      RemoveFacts(entries, id);
      if Expired(entry.value, now) {
        entries := Remove(entries, id);
        return None;
      }
      TouchedFacts(entries, id, entry.value);
      entries := Touched(entries, id, entry.value);
    }

    method UpdateIfStatus(id: string, expected: set<EntryStatus>, patch: Patch, now: int) returns (ok: bool)
      requires Valid()
      modifies this
      ensures Valid() && (entries, ok) == UpdatedIf(old(entries), id, expected, patch, now)
    {
      var cur := Get(entries, id);
      if cur.None? || cur.value.status !in expected {
        return false;
      }
      RemoveFacts(entries, id);
      if Expired(cur.value, now) {
        entries := Remove(entries, id);
        return false;
      }
      TouchedFacts(entries, id, Patched(cur.value, patch, now));
      entries := Touched(entries, id, Patched(cur.value, patch, now));
      ok := true;
    }

    method UpdateMerchantDeliveryIfStatus(id: string, expected: set<EntryStatus>, patch: DeliveryPatch,
                                          condition: Condition, now: int) returns (status: Option<EntryStatus>)
      requires Valid()
      modifies this
      ensures Valid() && (entries, status) == DeliveredIf(old(entries), id, expected, patch, condition, now)
    {
      var cur := Get(entries, id);
      if cur.None? || cur.value.status !in expected {
        return None;
      }
      RemoveFacts(entries, id);
      if Expired(cur.value, now) {
        entries := Remove(entries, id);
        return None;
      }
      if !Meets(cur.value.merchantDelivery, condition, now) {
        return None;
      }
      var next := Delivered(cur.value.merchantDelivery, patch);
      if next.None? {
        return None;
      }
      var entry := cur.value.(merchantDelivery := next, updatedAt := now);
      TouchedFacts(entries, id, entry);
      entries := Touched(entries, id, entry);
      status := Some(cur.value.status);
    }

    method DeleteEntry(id: string)
      requires Valid()
      modifies this
      ensures Valid() && entries == Remove(old(entries), id)
    {
      RemoveFacts(entries, id);
      entries := Remove(entries, id);
    }
  }

  /** A put stores its entry, keeps the map within its cap (at least one), and drops a live
      entry only at the cap, for a new key, and then the least recently used one. */
  lemma PutEvictsOldest(m: Entries, id: string, e: Entry, cap: int, now: int)
    requires Unique(m) && (|m| <= cap || |m| <= 1)
    ensures var n := Put(m, id, e, Some(cap), now);
            && Unique(n) && Get(n, id) == Some(e) && (|n| <= cap || |n| <= 1)
            && (forall k | k != id && Get(m, k).Some? && !Expired(Get(m, k).value, now) ::
                  Get(n, k) == Get(m, k)
                  || (|Purged(m, now)| >= cap && Get(Purged(m, now), id).None?
                      && Purged(m, now) != [] && k == Purged(m, now)[0].0))
  {
    PurgedFacts(m, now);
    var kept := Purged(m, now);
    if |kept| >= cap && Get(kept, id).None? && kept != [] {
      RemoveFacts(kept, kept[0].0);
      GetKeys(kept, kept[0].0);
      TouchedFacts(Remove(kept, kept[0].0), id, e);
    } else {
      TouchedFacts(kept, id, e);
    }
  }
}
