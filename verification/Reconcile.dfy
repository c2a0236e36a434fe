/** `reconcileX402BatchSettlement` (x402/client.ts): bindings to trusted bounds,
    receipts to vouched entries, entries to storage writes. Storage calls may fail. */
module Reconcile {
  import opened Options
  import opened ChannelFold

  // ---- Channel ids -------------------------------------------------------------

  predicate IsHexDigit(c: char) {
    '0' <= c <= '9' || 'a' <= c <= 'f' || 'A' <= c <= 'F'
  }

  /** A bytes32 hex string: `0x` and 64 hexadecimal digits. */
  predicate Canonical(id: string) {
    |id| == 66 && id[0] == '0' && id[1] == 'x' && forall i | 2 <= i < 66 :: IsHexDigit(id[i])
  }

  function LowerChar(c: char): char {
    if 'A' <= c <= 'Z' then c - 'A' + 'a' else c
  }

  /** `toLowerCase` on the ASCII letters a canonical id can hold. */
  function Key(id: string): string {
    seq(|id|, i requires 0 <= i < |id| => LowerChar(id[i]))
  }

  function Lookup(records: map<string, ChannelState>, key: string): Option<ChannelState> {
    if key in records then Some(records[key]) else None
  }

  // ---- Trusted bounds per channel ------------------------------------------------

  datatype ReconcileError = DuplicateChannel(id: string) | BadBinding(error: BindingError) | StorageFailures(count: nat)

  datatype AllowedResult = Refused(error: ReconcileError) | Allowed(bounds: map<string, Bounds>)

  function Admit(allowed: map<string, Bounds>, binding: Binding): AllowedResult {
    if !Canonical(binding.channelId) then Allowed(allowed)
    else if Key(binding.channelId) in allowed then Refused(DuplicateChannel(binding.channelId))
    else match BoundsOf(binding)
      case Dropped => Allowed(allowed)
      case Rejected(error) => Refused(BadBinding(error))
      case Bounded(bounds) => Allowed(allowed[Key(binding.channelId) := bounds])
  }

  function AllowedBy(bindings: seq<Binding>): AllowedResult {
    if bindings == [] then Allowed(map[])
    else match AllowedBy(bindings[..|bindings| - 1])
      case Refused(error) => Refused(error)
      case Allowed(allowed) => Admit(allowed, bindings[|bindings| - 1])
  }

  // ---- Receipts the bounds vouch for -----------------------------------------------

  datatype Entry = Entry(receipt: Receipt, id: string, cumulative: nat, bounds: Bounds)

  function Vouch(r: Receipt, allowed: map<string, Bounds>): Option<Entry> {
    if !r.Receipt? || !r.success || r.channelId.None? || !Canonical(r.channelId.value) then None
    else
      var id := r.channelId.value;
      if Key(id) !in allowed then None
      else match Accepted(r, allowed[Key(id)])
        case None => None
        case Some(cumulative) => Some(Entry(r, id, cumulative, allowed[Key(id)]))
  }

  function Relevant(receipts: seq<Receipt>, allowed: map<string, Bounds>): seq<Entry> {
    if receipts == [] then []
    else
      var before := Relevant(receipts[..|receipts| - 1], allowed);
      match Vouch(receipts[|receipts| - 1], allowed)
      case None => before
      case Some(entry) => before + [entry]
  }

  // ---- Writing them --------------------------------------------------------------

  /** How the storage treats one receipt's read-check-write; a failing `set` may or may not have landed. */
  datatype Fault = Healthy | GetFails | SetFails(landed: bool)

  datatype Progress = Progress(records: map<string, ChannelState>, applied: seq<string>, failures: nat)

  predicate WellFormed(entries: seq<Entry>) {
    forall i | 0 <= i < |entries| :: entries[i].receipt.Receipt?
  }

  /** All entries of one channel were vouched for by the same binding. */
  ghost predicate Consistent(entries: seq<Entry>) {
    forall i, j | 0 <= i < |entries| && 0 <= j < |entries| && Key(entries[i].id) == Key(entries[j].id) ::
      entries[i].bounds == entries[j].bounds
  }

  function ApplyEntry(p: Progress, e: Entry, fault: Fault): Progress
    requires e.receipt.Receipt?
  {
    if fault.GetFails? then p.(failures := p.failures + 1)
    else
      match Commit(Lookup(p.records, Key(e.id)), e.bounds, e.cumulative, e.receipt)
      case None => p
      case Some(next) =>
        if fault.Healthy? then p.(records := p.records[Key(e.id) := next], applied := p.applied + [e.id])
        else if fault.landed then p.(records := p.records[Key(e.id) := next], failures := p.failures + 1)
        else p.(failures := p.failures + 1)
  }

  function ApplyAll(records: map<string, ChannelState>, entries: seq<Entry>, faults: seq<Fault>): Progress
    requires WellFormed(entries) && |entries| <= |faults|
    decreases |entries|
  {
    if entries == [] then Progress(records, [], 0)
    else
      var n := |entries| - 1;
      ApplyEntry(ApplyAll(records, entries[..n], faults), entries[n], faults[n])
  }

  datatype Outcome = Failed(error: ReconcileError) | Applied(ids: seq<string>)

  function OutcomeOf(p: Progress): Outcome {
    if p.failures > 0 then Failed(StorageFailures(p.failures)) else Applied(p.applied)
  }

  /** The caller's channel storage: an atomic get and set per lowercased channel key. */
  class ChannelStorage {
    var records: map<string, ChannelState>

    constructor ()
      ensures records == map[]
    {
      records := map[];
    }
  }

  method CollectBounds(bindings: seq<Binding>) returns (result: AllowedResult)
    ensures result == AllowedBy(bindings)
  {
    var allowed: map<string, Bounds> := map[];
    for i := 0 to |bindings|
      invariant AllowedBy(bindings[..i]) == Allowed(allowed)
      invariant forall j | i <= j <= |bindings| :: bindings[..j][..i] == bindings[..i]
    {
      assert bindings[..i + 1][..i] == bindings[..i];
      var step := Admit(allowed, bindings[i]);
      if step.Refused? {
        RefusalIsFinal(bindings, i + 1);
        return step;
      }
      allowed := step.bounds;
    }
    assert bindings[..|bindings|] == bindings;
    return Allowed(allowed);
  }

  lemma {:induction false} RefusalIsFinal(bindings: seq<Binding>, n: nat)
    requires n <= |bindings| && AllowedBy(bindings[..n]).Refused?
    ensures AllowedBy(bindings) == AllowedBy(bindings[..n])
    decreases |bindings| - n
  {
    if n < |bindings| {
      assert bindings[..n + 1][..n] == bindings[..n];
      RefusalIsFinal(bindings, n + 1);
    } else {
      assert bindings[..n] == bindings;
    }
  }

  /** Channel keys do not differ by the case of their letters, and only by that. */
  lemma KeyIgnoresCase(a: string, b: string)
    ensures Key(a) == Key(b) <==>
            |a| == |b| && forall i | 0 <= i < |a| ::
              || a[i] == b[i]
              || ('A' <= a[i] <= 'Z' && b[i] as int == a[i] as int + 32)
              || ('A' <= b[i] <= 'Z' && a[i] as int == b[i] as int + 32)
  {
    if Key(a) == Key(b) {
      forall i | 0 <= i < |a|
        ensures || a[i] == b[i]
                || ('A' <= a[i] <= 'Z' && b[i] as int == a[i] as int + 32)
                || ('A' <= b[i] <= 'Z' && a[i] as int == b[i] as int + 32)
      {
        assert Key(a)[i] == LowerChar(a[i]) && Key(b)[i] == LowerChar(b[i]);
      }
    }
  }

  /** A figure a snapshot may hold: none, or a natural number. */
  predicate Natural(n: Numeral) {
    n.Missing? || (n.Amount? && n.value >= 0)
  }

  predicate Readable(b: Binding) {
    b.ceiling.Amount? && !b.deposit.Garbage?
  }

  /** It says what the channel held, by natural numbers if any, and has an attempt id. */
  predicate Sane(b: Binding) {
    && !b.pre.OmittedKey? && b.attemptId != ""
    && (Readable(b) && b.pre.Taken? ==> Natural(b.pre.state.balance) && Natural(b.pre.state.cumulative))
  }

  /** A binding that takes part. */
  predicate TakesPart(b: Binding) {
    Canonical(b.channelId) && Readable(b) && Sane(b)
  }

  /** The binding makes the call fail: it is not sane, or its channel took part already. */
  predicate Spoils(bindings: seq<Binding>, i: nat)
    requires i < |bindings|
  {
    && Canonical(bindings[i].channelId)
    && (|| !Sane(bindings[i])
        || exists j | 0 <= j < i ::
             TakesPart(bindings[j]) && Key(bindings[j].channelId) == Key(bindings[i].channelId))
  }

  lemma BoundsExactly(b: Binding)
    ensures BoundsOf(b).Rejected? <==> !Sane(b)
    ensures BoundsOf(b).Bounded? <==> Readable(b) && Sane(b)
  {
  }

  /** The bounds are those of the bindings that take part. */
  ghost predicate BoundsAreTheirs(bindings: seq<Binding>, bounds: map<string, Bounds>) {
    && (forall i | 0 <= i < |bindings| && TakesPart(bindings[i]) ::
          var key := Key(bindings[i].channelId); key in bounds && BoundsOf(bindings[i]) == Bounded(bounds[key]))
    && (forall key | key in bounds ::
          exists i | 0 <= i < |bindings| :: TakesPart(bindings[i]) && Key(bindings[i].channelId) == key)
  }

  lemma AdmitRefuses(front: seq<Binding>, bounds: map<string, Bounds>, last: Binding)
    requires BoundsAreTheirs(front, bounds)
    ensures Admit(bounds, last).Refused? <==> Spoils(front + [last], |front|)
  {
    var all := front + [last];
    BoundsExactly(last);
    assert all[|front|] == last && forall j | 0 <= j < |front| :: all[j] == front[j];
    if Key(last.channelId) in bounds {
      var j :| 0 <= j < |front| && TakesPart(front[j]) && Key(front[j].channelId) == Key(last.channelId);
      assert TakesPart(all[j]);
    }
  }

  lemma AdmitAdds(front: seq<Binding>, bounds: map<string, Bounds>, last: Binding)
    requires BoundsAreTheirs(front, bounds) && Admit(bounds, last).Allowed?
    ensures BoundsAreTheirs(front + [last], Admit(bounds, last).bounds)
  {
    var all := front + [last];
    BoundsExactly(last);
    assert all[|front|] == last && forall j | 0 <= j < |front| :: all[j] == front[j];
    forall k | k in Admit(bounds, last).bounds
      ensures exists i | 0 <= i < |all| :: TakesPart(all[i]) && Key(all[i].channelId) == k
    {
      if k in bounds {
        var j :| 0 <= j < |front| && TakesPart(front[j]) && Key(front[j].channelId) == k;
        assert TakesPart(all[j]);
      } else {
        assert TakesPart(all[|front|]);
      }
    }
  }

  /** Exactly the bindings that take part are allowed, each with its own bounds, and the call
      fails if and only if some binding spoils it. */
  lemma {:induction false} AllowedExactly(bindings: seq<Binding>)
    ensures AllowedBy(bindings).Refused? <==> exists i | 0 <= i < |bindings| :: Spoils(bindings, i)
    ensures AllowedBy(bindings).Allowed? ==> BoundsAreTheirs(bindings, AllowedBy(bindings).bounds)
  {
    if bindings != [] {
      var n := |bindings| - 1;
      var front := bindings[..n];
      AllowedExactly(front);
      assert bindings == front + [bindings[n]];
      forall i | 0 <= i < n ensures Spoils(bindings, i) <==> Spoils(front, i) {
        assert forall j | 0 <= j < i :: bindings[j] == front[j];
      }
      if AllowedBy(front).Allowed? {
        AdmitRefuses(front, AllowedBy(front).bounds, bindings[n]);
        if AllowedBy(bindings).Allowed? {
          AdmitAdds(front, AllowedBy(front).bounds, bindings[n]);
        }
      } else {
        var i :| 0 <= i < n && Spoils(front, i);
        assert Spoils(bindings, i);
      }
    }
  }

  method CollectRelevant(receipts: seq<Receipt>, allowed: map<string, Bounds>) returns (entries: seq<Entry>)
    ensures entries == Relevant(receipts, allowed)
  {
    entries := [];
    for i := 0 to |receipts|
      invariant entries == Relevant(receipts[..i], allowed)
    {
      assert receipts[..i + 1][..i] == receipts[..i];
      var entry := Vouch(receipts[i], allowed);
      if entry.Some? {
        entries := entries + [entry.value];
      }
    }
    assert receipts[..|receipts|] == receipts;
  }

  lemma {:induction false} RelevantFacts(receipts: seq<Receipt>, allowed: map<string, Bounds>)
    ensures var es := Relevant(receipts, allowed);
            && |es| <= |receipts| && WellFormed(es) && Consistent(es)
            && forall i | 0 <= i < |es| ::
                 && es[i].receipt in receipts && Canonical(es[i].id)
                 && Key(es[i].id) in allowed && es[i].bounds == allowed[Key(es[i].id)]
                 && Accepted(es[i].receipt, es[i].bounds) == Some(es[i].cumulative)
  {
    if receipts != [] {
      RelevantFacts(receipts[..|receipts| - 1], allowed);
    }
  }

  /** The whole call. `faults` decides how storage behaves for each vouched receipt. */
  method ReconcileBatchSettlement(
    storage: ChannelStorage, receipts: seq<Receipt>, bindings: seq<Binding>, faults: seq<Fault>)
    returns (outcome: Outcome)
    requires |receipts| <= |faults|
    modifies storage
    ensures AllowedBy(bindings).Refused? ==>
              outcome == Failed(AllowedBy(bindings).error) && storage.records == old(storage.records)
    ensures AllowedBy(bindings).Allowed? ==>
              var es := Relevant(receipts, AllowedBy(bindings).bounds);
              && WellFormed(es) && |es| <= |faults|
              && var p := ApplyAll(old(storage.records), es, faults);
                 storage.records == p.records && outcome == OutcomeOf(p)
  {
    var allowed := CollectBounds(bindings);
    if allowed.Refused? {
      return Failed(allowed.error);
    }
    var entries := CollectRelevant(receipts, allowed.bounds);
    RelevantFacts(receipts, allowed.bounds);
    var failures: nat := 0;
    var applied: seq<string> := [];
    for i := 0 to |entries|
      invariant ApplyAll(old(storage.records), entries[..i], faults) == Progress(storage.records, applied, failures)
    {
      assert entries[..i + 1][..i] == entries[..i];
      var e := entries[i];
      if faults[i].GetFails? {
        failures := failures + 1;
      } else {
        var stored := Lookup(storage.records, Key(e.id));
        if !Declines(stored, e.bounds, e.cumulative) {
          if faults[i].Healthy? || faults[i].landed {
            storage.records := storage.records[Key(e.id) := Fold(e.bounds, e.cumulative, e.receipt, stored)];
          }
          if faults[i].Healthy? {
            applied := applied + [e.id];
          } else {
            failures := failures + 1;
          }
        }
      }
    }
    assert entries[..|entries|] == entries;
    return if failures > 0 then Failed(StorageFailures(failures)) else Applied(applied);
  }

  // ---- Properties of the call ------------------------------------------------------

  lemma {:induction false} OtherKeysUntouched(
    records: map<string, ChannelState>, entries: seq<Entry>, faults: seq<Fault>, key: string)
    requires WellFormed(entries) && |entries| <= |faults|
    requires forall i | 0 <= i < |entries| :: Key(entries[i].id) != key
    ensures Lookup(ApplyAll(records, entries, faults).records, key) == Lookup(records, key)
  {
    if entries != [] {
      OtherKeysUntouched(records, entries[..|entries| - 1], faults, key);
    }
  }

  /** Only channels this caller was bound to can change, whatever the receipts say. */
  lemma OtherChannelsUntouched(
    records: map<string, ChannelState>, receipts: seq<Receipt>, allowed: map<string, Bounds>,
    faults: seq<Fault>, key: string)
    requires |Relevant(receipts, allowed)| <= |faults| && key !in allowed
    ensures WellFormed(Relevant(receipts, allowed))
    ensures Lookup(ApplyAll(records, Relevant(receipts, allowed), faults).records, key) == Lookup(records, key)
  {
    RelevantFacts(receipts, allowed);
    OtherKeysUntouched(records, Relevant(receipts, allowed), faults, key);
  }

  /** Does some entry for `key` get past the guards against `stored`? */
  predicate Opens(stored: Option<ChannelState>, entries: seq<Entry>, key: string) {
    exists i | 0 <= i < |entries| :: Key(entries[i].id) == key
        && !Declines(stored, entries[i].bounds, entries[i].cumulative)
  }

  lemma OpensSplit(stored: Option<ChannelState>, entries: seq<Entry>, key: string)
    requires entries != []
    ensures var n := |entries| - 1;
            Opens(stored, entries, key) <==>
              || Opens(stored, entries[..n], key)
              || (Key(entries[n].id) == key && !Declines(stored, entries[n].bounds, entries[n].cumulative))
  {
    var n := |entries| - 1;
    var front := entries[..n];
    if Opens(stored, front, key) {
      var i :| 0 <= i < n && Key(front[i].id) == key && !Declines(stored, front[i].bounds, front[i].cumulative);
      assert Key(entries[i].id) == key && !Declines(stored, entries[i].bounds, entries[i].cumulative);
    }
    if Opens(stored, entries, key) {
      var i :| 0 <= i <= n && Key(entries[i].id) == key && !Declines(stored, entries[i].bounds,
          entries[i].cumulative);
      assert i < n ==> front[i] == entries[i];
    }
  }

  /** The last entry for `key`. */
  function Last(entries: seq<Entry>, key: string): Option<Entry> {
    if entries == [] then None
    else if Key(entries[|entries| - 1].id) == key then Some(entries[|entries| - 1])
    else Last(entries[..|entries| - 1], key)
  }

  lemma {:induction false} LastIsAnEntry(entries: seq<Entry>, key: string)
    ensures Last(entries, key).Some? <==> exists i | 0 <= i < |entries| :: Key(entries[i].id) == key
    ensures Last(entries, key).Some? ==>
              Last(entries, key).value in entries && Key(Last(entries, key).value.id) == key
  {
    if entries != [] {
      LastIsAnEntry(entries[..|entries| - 1], key);
    }
  }

  ghost predicate AllHealthy(faults: seq<Fault>) {
    forall i | 0 <= i < |faults| :: faults[i].Healthy?
  }

  /** On a healthy storage a channel's record ends as the fold of the LAST receipt
      vouched for it as soon as ANY of them gets past the guards against the record
      the call found, and is untouched otherwise. */
  lemma {:induction false} HealthyOutcome(
    records: map<string, ChannelState>, entries: seq<Entry>, faults: seq<Fault>, key: string)
    requires WellFormed(entries) && Consistent(entries) && |entries| <= |faults| && AllHealthy(faults)
    ensures var stored := Lookup(records, key);
            var last := Last(entries, key);
            Lookup(ApplyAll(records, entries, faults).records, key) ==
              if Opens(stored, entries, key) && last.Some? && last.value.receipt.Receipt?
              then Some(Fold(last.value.bounds, last.value.cumulative, last.value.receipt, stored))
              else stored
    ensures ApplyAll(records, entries, faults).failures == 0
    ensures Opens(Lookup(records, key), entries, key) ==>
              Last(entries, key).Some? && Last(entries, key).value.receipt.Receipt?
  {
    var stored := Lookup(records, key);
    if entries != [] {
      var n := |entries| - 1;
      var front, e := entries[..n], entries[n];
      HealthyOutcome(records, front, faults, key);
      OpensSplit(stored, entries, key);
      LastIsAnEntry(front, key);
      if Opens(stored, front, key) && Key(e.id) == key {
        var l := Last(front, key).value;
        var j :| 0 <= j < n && front[j] == l;
        assert entries[j].bounds == entries[n].bounds;
      }
    }
  }

  /** One entry leaves a channel's record alone, or replaces it by its own fold over it. */
  lemma EntryOutcome(p: Progress, e: Entry, fault: Fault, key: string)
    requires e.receipt.Receipt?
    ensures var before, now := Lookup(p.records, key), Lookup(ApplyEntry(p, e, fault).records, key);
            now == before
            || (&& Key(e.id) == key && !Declines(before, e.bounds, e.cumulative)
                && now == Some(Fold(e.bounds, e.cumulative, e.receipt, before)))
  {
  }

  /** Folding over a fold of the same binding is folding over what that one found. */
  lemma Refold(bounds: Bounds, first: nat, r: Receipt, second: nat, q: Receipt, stored: Option<ChannelState>)
    requires r.Receipt? && q.Receipt?
    ensures Fold(bounds, second, q, Some(Fold(bounds, first, r, stored))) == Fold(bounds, second, q, stored)
  {
  }

  /** Under any pattern of failures a record is either what it was or a fold over what it was. */
  lemma {:induction false} FaultyOutcome(
    records: map<string, ChannelState>, entries: seq<Entry>, faults: seq<Fault>, key: string) returns (source: Entry)
    requires WellFormed(entries) && Consistent(entries) && |entries| <= |faults|
    ensures var stored := Lookup(records, key);
            var now := Lookup(ApplyAll(records, entries, faults).records, key);
            now == stored
            || (&& source in entries && Key(source.id) == key && source.receipt.Receipt?
                && Opens(stored, entries, key)
                && now == Some(Fold(source.bounds, source.cumulative, source.receipt, stored)))
  {
    var stored := Lookup(records, key);
    source := Entry(Malformed, "", 0, Bounds(0, 0, None, 0, 0, ""));
    if entries != [] {
      var n := |entries| - 1;
      var front, e := entries[..n], entries[n];
      source := FaultyOutcome(records, front, faults, key);
      var p := ApplyAll(records, front, faults);
      EntryOutcome(p, e, faults[n], key);
      OpensSplit(stored, entries, key);
      if Lookup(ApplyEntry(p, e, faults[n]).records, key) != Lookup(p.records, key) {
        if Lookup(p.records, key) != stored {
          var j :| 0 <= j < n && front[j] == source;
          assert entries[j].bounds == entries[n].bounds;
          Refold(e.bounds, source.cumulative, source.receipt, e.cumulative, e.receipt, stored);
        }
        source := e;
      }
    }
  }

  /** Retrying converges: after any pattern of failed, lost or half-acknowledged
      storage calls, one healthy retry of the same call leaves exactly what an
      undisturbed call would have left. With no faults at all this says that
      reconciling the same receipts again changes nothing. */
  lemma RetryConverges(
    records: map<string, ChannelState>, entries: seq<Entry>, faults: seq<Fault>, healthy: seq<Fault>, key: string)
    requires WellFormed(entries) && Consistent(entries)
    requires |entries| <= |faults| && |entries| <= |healthy| && AllHealthy(healthy)
    ensures Lookup(ApplyAll(ApplyAll(records, entries, faults).records, entries, healthy).records, key)
            == Lookup(ApplyAll(records, entries, healthy).records, key)
  {
    var torn := ApplyAll(records, entries, faults).records;
    var stored := Lookup(records, key);
    var w := FaultyOutcome(records, entries, faults, key);
    HealthyOutcome(records, entries, healthy, key);
    HealthyOutcome(torn, entries, healthy, key);
    if Lookup(torn, key) != stored {
      var last := Last(entries, key).value;
      LastIsAnEntry(entries, key);
      var i :| 0 <= i < |entries| && entries[i] == w;
      var j :| 0 <= j < |entries| && entries[j] == last;
      assert entries[i].bounds == entries[j].bounds;
      assert Key(entries[j].id) == key && !Declines(Lookup(torn, key), entries[j].bounds, entries[j].cumulative);
    }
  }

  /** The desync report is exact for a single binding: an undisturbed call applies
      nothing precisely when no vouched receipt gets past the guards. */
  lemma {:induction false} AppliedExactlyWhenOpen(
    records: map<string, ChannelState>, entries: seq<Entry>, faults: seq<Fault>, key: string)
    requires WellFormed(entries) && Consistent(entries) && |entries| <= |faults| && AllHealthy(faults)
    requires forall i | 0 <= i < |entries| :: Key(entries[i].id) == key
    ensures ApplyAll(records, entries, faults).applied == [] <==> !Opens(Lookup(records, key), entries, key)
  {
    var stored := Lookup(records, key);
    if entries != [] {
      var n := |entries| - 1;
      var front := entries[..n];
      AppliedExactlyWhenOpen(records, front, faults, key);
      HealthyOutcome(records, front, faults, key);
      OpensSplit(stored, entries, key);
      if Opens(stored, front, key) {
        assert ApplyAll(records, front, faults).applied != [];
      }
    }
  }
}
