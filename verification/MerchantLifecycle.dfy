/** The store transitions of the payment pipeline (x402/context.ts) under any interleaving:
    every pipeline step ends in one conditional write, so concurrent turns are sequences
    of such writes. */
module MerchantLifecycle {
  import opened Options
  import opened OrderedMaps
  import opened MerchantStore
  import opened Decimal

  /** What `classify`, `verify` and `settle` found. Results that write nothing are left out. */
  datatype Finding =
    | BadSubmission(code: string, reason: string)
    | RejectedByClient(code: string, reason: string)
    | VerifyAccepted
    | VerifyRefused(code: string, reason: string)
    | SettleAccepted(receipt: Receipt)
    | SettleRefused(reason: string, indeterminate: bool)

  function FailWith(point: FailurePoint, code: string, reason: string, indeterminate: bool): Patch {
    Patch(Some(Failed), None, None, Some(Failure(point, code, reason, indeterminate)))
  }

  /** The statuses a step requires, and the patch it writes. */
  function WriteFor(f: Finding, now: int): (set<EntryStatus>, Patch) {
    match f
    case BadSubmission(code, reason) => ({Offered, Failed}, FailWith(AtClassify, code, reason, false))
    case RejectedByClient(code, reason) =>
      ({Offered, Failed}, Patch(Some(Rejected), None, None, Some(Failure(ByClient, code, reason, false))))
    case VerifyAccepted => ({Offered, Failed, Verified}, Patch(Some(Verified), Some(now), None, None))
    case VerifyRefused(code, reason) => ({Offered, Failed, Verified}, FailWith(AtVerify, code, reason, false))
    case SettleAccepted(receipt) => ({Offered, Failed, Verified}, Patch(Some(Completed), None, Some(receipt), None))
    case SettleRefused(reason, indeterminate) =>
      ({Offered, Failed, Verified}, FailWith(AtSettle, "settlement_failed", reason, indeterminate))
  }

  /** Everything that reaches the store. */
  datatype Op =
    | Record(id: string, finding: Finding, now: int)
    | Deliver(id: string, expected: set<EntryStatus>, patch: DeliveryPatch, condition: Condition, now: int)
    | Fetch(id: string, now: int)
    | Offer(id: string, entry: Entry, now: int)
    | Delete(id: string)

  function Do(m: Entries, op: Op, cap: Option<int>): Entries {
    match op
    case Record(id, finding, now) =>
      var (expected, patch) := WriteFor(finding, now);
      UpdatedIf(m, id, expected, patch, now).0
    case Deliver(id, expected, patch, condition, now) => DeliveredIf(m, id, expected, patch, condition, now).0
    case Fetch(id, now) => Fetched(m, id, now).0
    case Offer(id, entry, now) => Put(m, id, entry, cap, now)
    case Delete(id) => Remove(m, id)
  }

  function After(m: Entries, ops: seq<Op>, cap: Option<int>): Entries
    decreases |ops|
  {
    if ops == [] then m else After(Do(m, ops[0], cap), ops[1..], cap)
  }

  function Started(e: Entry): Option<int> {
    if e.merchantDelivery.Some? then e.merchantDelivery.value.publicationStartedAt else None
  }

  function Closed(e: Entry): Option<int> {
    if e.merchantDelivery.Some? then e.merchantDelivery.value.publicationClosedAt else None
  }

  predicate IsFinal(s: EntryStatus) {
    s == Completed || s == Rejected
  }

  /** A receipt exactly when completed, a failure whenever failed or rejected (by the client
      only then), a verification time when verified, never both markers. */
  predicate WellFormed(e: Entry) {
    && (e.status == Completed <==> e.receipt.Some?)
    && (e.status == Failed || e.status == Rejected ==> e.failure.Some?)
    && (e.status == Rejected ==> e.failure.value.point == ByClient)
    && (e.status == Failed ==> e.failure.value.point != ByClient)
    && (e.status == Verified ==> e.verifiedAt.Some?)
    && !(Started(e).Some? && Closed(e).Some?)
  }

  /** Completed and rejected absorb; the first receipt, and each marker once set, stay. */
  predicate Evolves(a: Entry, b: Entry) {
    && (IsFinal(a.status) ==> b.status == a.status && b.failure == a.failure && b.verifiedAt == a.verifiedAt)
    && (a.receipt.Some? ==> b.receipt == a.receipt)
    && (Started(a).Some? ==> Started(b) == Started(a))
    && (Closed(a).Some? ==> Closed(b) == Closed(a))
    && b.accepts == a.accepts && b.expiresAt == a.expiresAt && b.storedAt == a.storedAt
  }

  lemma RecordEvolves(m: Entries, id: string, finding: Finding, now: int, k: string)
    requires Unique(m) && (Get(m, k).Some? ==> WellFormed(Get(m, k).value))
    ensures var n := Do(m, Record(id, finding, now), None);
            && Unique(n) && (Get(n, k).Some? ==> Get(m, k).Some?)
            && (Get(n, k).Some? ==> WellFormed(Get(n, k).value) && Evolves(Get(m, k).value, Get(n, k).value))
  {
    var (expected, patch) := WriteFor(finding, now);
    RemoveFacts(m, id);
    if Get(m, id).Some? {
      TouchedFacts(m, id, Patched(Get(m, id).value, patch, now));
    }
  }

  /** What each finding leaves of a live entry. Verifying and settling apply to every entry
      not completed or rejected, so also to one whose verification or settlement failed
      before; classifying applies to offered and failed ones only. */
  lemma FindingLeaves(m: Entries, id: string, finding: Finding, now: int)
    requires Unique(m) && Get(m, id).Some? && !Expired(Get(m, id).value, now)
    ensures var e, n := Get(m, id).value, Do(m, Record(id, finding, now), None);
            && (forall k | k != id :: Get(n, k) == Get(m, k))
            && Get(n, id) == Some(
                 if IsFinal(e.status) || (e.status == Verified && (finding.BadSubmission? || finding.RejectedByClient?))
                 then e
                 else match finding
                   case SettleAccepted(receipt) => e.(status := Completed, receipt := Some(receipt), updatedAt := now)
                   case VerifyAccepted => e.(status := Verified, verifiedAt := Some(now), updatedAt := now)
                   case VerifyRefused(code, reason) =>
                     e.(status := Failed, failure := Some(Failure(AtVerify, code, reason, false)), updatedAt := now)
                   case SettleRefused(reason, indeterminate) =>
                     e.(status := Failed, updatedAt := now,
                        failure := Some(Failure(AtSettle, "settlement_failed", reason, indeterminate)))
                   case BadSubmission(code, reason) =>
                     e.(status := Failed, failure := Some(Failure(AtClassify, code, reason, false)), updatedAt := now)
                   case RejectedByClient(code, reason) =>
                     e.(status := Rejected, failure := Some(Failure(ByClient, code, reason, false)), updatedAt := now))
  {
    var (expected, patch) := WriteFor(finding, now);
    TouchedFacts(m, id, Patched(Get(m, id).value, patch, now));
  }

  lemma DeliverEvolves(m: Entries, id: string, expected: set<EntryStatus>, patch: DeliveryPatch, condition: Condition,
                       now: int, k: string)
    requires Unique(m) && (Get(m, k).Some? ==> WellFormed(Get(m, k).value))
    ensures var n := DeliveredIf(m, id, expected, patch, condition, now).0;
            && Unique(n) && (Get(n, k).Some? ==> Get(m, k).Some?)
            && (Get(n, k).Some? ==> WellFormed(Get(n, k).value) && Evolves(Get(m, k).value, Get(n, k).value))
  {
    RemoveFacts(m, id);
    if Get(m, id).Some? {
      var e := Get(m, id).value;
      TouchedFacts(m, id, e.(merchantDelivery := Delivered(e.merchantDelivery, patch), updatedAt := now));
    }
  }

  lemma OfferEvolves(m: Entries, id: string, entry: Entry, cap: Option<int>, now: int, k: string)
    requires Unique(m) && k != id
    ensures var n := Put(m, id, entry, cap, now);
            Unique(n) && (Get(n, k) == Get(m, k) || Get(n, k).None?)
  {
    PurgedFacts(m, now);
    var kept := Purged(m, now);
    if kept != [] {
      RemoveFacts(kept, kept[0].0);
    }
    TouchedFacts(MakeRoom(kept, id, cap), id, entry);
  }

  lemma OpEvolves(m: Entries, op: Op, cap: Option<int>, k: string)
    requires Unique(m) && (Get(m, k).Some? ==> WellFormed(Get(m, k).value))
    requires !(op.Offer? && op.id == k)
    ensures var n := Do(m, op, cap);
            && Unique(n) && (Get(n, k).Some? ==> Get(m, k).Some?)
            && (Get(n, k).Some? ==> WellFormed(Get(n, k).value) && Evolves(Get(m, k).value, Get(n, k).value))
  {
    match op
    case Record(id, finding, now) => RecordEvolves(m, id, finding, now, k);
    case Deliver(id, expected, patch, condition, now) => DeliverEvolves(m, id, expected, patch, condition, now, k);
    case Fetch(id, now) =>
      RemoveFacts(m, id);
      if Get(m, id).Some? {
        TouchedFacts(m, id, Get(m, id).value);
      }
    case Offer(id, entry, now) => OfferEvolves(m, id, entry, cap, now, k);
    case Delete(id) => RemoveFacts(m, id);
  }

  predicate NoReoffer(ops: seq<Op>, k: string) {
    forall op | op in ops :: !(op.Offer? && op.id == k)
  }

  /** Over any interleaving that does not offer the task anew: while its entry is stored,
      completed and rejected are never left, the receipt is the first one recorded, and the
      publication markers are write-once and never both set. */
  lemma {:induction false} Lifecycle(m: Entries, ops: seq<Op>, cap: Option<int>, k: string)
    requires Unique(m) && Get(m, k).Some? && WellFormed(Get(m, k).value) && NoReoffer(ops, k)
    ensures var n := After(m, ops, cap);
            Get(n, k).Some? ==> WellFormed(Get(n, k).value) && Evolves(Get(m, k).value, Get(n, k).value)
    decreases |ops|
  {
    if ops != [] {
      var n := Do(m, ops[0], cap);
      OpEvolves(m, ops[0], cap, k);
      if Get(n, k).Some? {
        Lifecycle(n, ops[1..], cap, k);
      } else {
        StaysAbsent(n, ops[1..], cap, k);
      }
    }
  }

  lemma {:induction false} StaysAbsent(m: Entries, ops: seq<Op>, cap: Option<int>, k: string)
    requires Unique(m) && Get(m, k).None? && NoReoffer(ops, k)
    ensures Get(After(m, ops, cap), k).None?
    decreases |ops|
  {
    if ops != [] {
      OpEvolves(m, ops[0], cap, k);
      StaysAbsent(Do(m, ops[0], cap), ops[1..], cap, k);
    }
  }

  /** A delivery write that reports success met its condition before its deadline, left the
      requested markers set, and changed no other entry. */
  lemma DeliveryHonoursCondition(m: Entries, id: string, expected: set<EntryStatus>, patch: DeliveryPatch,
                                 condition: Condition, now: int)
    requires Unique(m) && DeliveredIf(m, id, expected, patch, condition, now).1.Some?
    ensures Get(m, id).Some? && Get(m, id).value.status in expected
    ensures var before := Get(m, id).value;
            && DeliveredIf(m, id, expected, patch, condition, now).1 == Some(before.status)
            && (condition.publicationStarted.Some? ==> condition.publicationStarted.value == Started(before).Some?)
            && (condition.publicationClosed.Some? ==> condition.publicationClosed.value == Closed(before).Some?)
            && (condition.notAfter.Some? ==> now < condition.notAfter.value)
            && (before.expiresAt.Some? ==> now < before.expiresAt.value)
    ensures var n := DeliveredIf(m, id, expected, patch, condition, now).0;
            && Get(n, id).Some? && Get(n, id).value.merchantDelivery.Some?
            && (patch.publicationStartedAt.Some? ==> Started(Get(n, id).value).Some?)
            && (patch.publicationClosedAt.Some? ==> Closed(Get(n, id).value).Some?)
            && forall k | k != id :: Get(n, k) == Get(m, k)
  {
    var e := Get(m, id).value;
    TouchedFacts(m, id, e.(merchantDelivery := Delivered(e.merchantDelivery, patch), updatedAt := now));
  }

  /** A field a delivery write may set: an earlier marker wins, any other value is replaced. */
  predicate Sets(before: Option<int>, asked: Option<int>, after: Option<int>, once: bool) {
    after == if asked.None? || (once && before.Some?) then before else asked
  }

  /** Exactly which delivery writes succeed, and the delivery they leave: one on a live entry
      of an expected status that meets the condition, whose timing is known and that would
      not set both markers. */
  lemma DeliverySucceedsExactly(m: Entries, id: string, expected: set<EntryStatus>, patch: DeliveryPatch,
                                condition: Condition, now: int)
    requires Unique(m) && Get(m, id).Some?
    ensures var e := Get(m, id).value;
            var (n, r) := DeliveredIf(m, id, expected, patch, condition, now);
            && (r.Some? <==>
                  && e.status in expected && (e.expiresAt.Some? ==> now < e.expiresAt.value)
                  && (condition.publicationStarted.Some? ==> condition.publicationStarted.value == Started(e).Some?)
                  && (condition.publicationClosed.Some? ==> condition.publicationClosed.value == Closed(e).Some?)
                  && (condition.notAfter.Some? ==> now < condition.notAfter.value)
                  && (e.merchantDelivery.Some? || patch.timing.Some?)
                  && !((Started(e).Some? || patch.publicationStartedAt.Some?)
                       && (Closed(e).Some? || patch.publicationClosedAt.Some?)))
            && (r.Some? ==>
                  && Get(n, id).Some? && Get(n, id).value.merchantDelivery.Some?
                  && Get(n, id).value == e.(merchantDelivery := Get(n, id).value.merchantDelivery, updatedAt := now)
                  && var d := Get(n, id).value.merchantDelivery.value;
                     var work := if e.merchantDelivery.Some? then e.merchantDelivery.value.workCompletedAt else None;
                     var failed := if e.merchantDelivery.Some? then e.merchantDelivery.value.workFailedAt else None;
                     var unpaid := if e.merchantDelivery.Some? then e.merchantDelivery.value.settlementFailedAt
                                   else None;
                     && (patch.timing.Some? ==> d.timing == patch.timing.value)
                     && (patch.timing.None? ==> d.timing == e.merchantDelivery.value.timing)
                     && Sets(Started(e), patch.publicationStartedAt, d.publicationStartedAt, true)
                     && Sets(Closed(e), patch.publicationClosedAt, d.publicationClosedAt, true)
                     && Sets(work, patch.workCompletedAt, d.workCompletedAt, false)
                     && Sets(failed, patch.workFailedAt, d.workFailedAt, false)
                     && Sets(unpaid, patch.settlementFailedAt, d.settlementFailedAt, false))
  {
    var e := Get(m, id).value;
    TouchedFacts(m, id, e.(merchantDelivery := Delivered(e.merchantDelivery, patch), updatedAt := now));
  }

  // ---- At most one settlement is recorded -----------------------------------------------------

  /** The receipt this step's conditional write put into the entry. */
  function RecordedBy(m: Entries, op: Op, k: string): seq<Receipt> {
    if op.Record? && op.id == k && op.finding.SettleAccepted?
       && UpdatedIf(m, k, WriteFor(op.finding, op.now).0, WriteFor(op.finding, op.now).1, op.now).1
    then [op.finding.receipt] else []
  }

  function Recorded(m: Entries, ops: seq<Op>, cap: Option<int>, k: string): seq<Receipt>
    decreases |ops|
  {
    if ops == [] then [] else RecordedBy(m, ops[0], k) + Recorded(Do(m, ops[0], cap), ops[1..], cap, k)
  }

  lemma RecordedStep(m: Entries, op: Op, cap: Option<int>, k: string)
    requires Unique(m) && Get(m, k).Some? && WellFormed(Get(m, k).value) && !(op.Offer? && op.id == k)
    ensures var e, n := Get(m, k).value, Do(m, op, cap);
            && (e.receipt.Some? ==> RecordedBy(m, op, k) == [])
            && (Get(n, k).Some? && e.receipt.None? ==>
                  RecordedBy(m, op, k) == (if Get(n, k).value.receipt.Some? then [Get(n, k).value.receipt.value]
                      else []))
            && (Get(n, k).None? ==> RecordedBy(m, op, k) == [])
  {
    OpEvolves(m, op, cap, k);
    if op.Record? {
      RemoveFacts(m, op.id);
      if Get(m, op.id).Some? {
        TouchedFacts(m, op.id, Patched(Get(m, op.id).value, WriteFor(op.finding, op.now).1, op.now));
      }
    } else {
      assert RecordedBy(m, op, k) == [];
      OthersKeepReceipt(m, op, cap, k);
    }
  }

  lemma OthersKeepReceipt(m: Entries, op: Op, cap: Option<int>, k: string)
    requires Unique(m) && Get(m, k).Some? && !op.Record? && !(op.Offer? && op.id == k)
    ensures Get(Do(m, op, cap), k).Some? ==> Get(Do(m, op, cap), k).value.receipt == Get(m, k).value.receipt
  {
    match op
    case Deliver(id, expected, patch, condition, now) =>
      RemoveFacts(m, id);
      if Get(m, id).Some? {
        var e := Get(m, id).value;
        TouchedFacts(m, id, e.(merchantDelivery := Delivered(e.merchantDelivery, patch), updatedAt := now));
      }
    case Fetch(id, now) =>
      RemoveFacts(m, id);
      if Get(m, id).Some? {
        TouchedFacts(m, id, Get(m, id).value);
      }
    case Offer(id, entry, now) => OfferEvolves(m, id, entry, cap, now, k);
    case Delete(id) => RemoveFacts(m, id);
  }

  lemma {:induction false} NothingRecorded(m: Entries, ops: seq<Op>, cap: Option<int>, k: string)
    requires Unique(m) && NoReoffer(ops, k)
    requires Get(m, k).Some? ==> WellFormed(Get(m, k).value) && Get(m, k).value.receipt.Some?
    ensures Recorded(m, ops, cap, k) == []
    decreases |ops|
  {
    if ops != [] {
      OpEvolves(m, ops[0], cap, k);
      if Get(m, k).Some? {
        RecordedStep(m, ops[0], cap, k);
      }
      NothingRecorded(Do(m, ops[0], cap), ops[1..], cap, k);
    }
  }

  /** However many turns settle at once, at most one receipt is recorded for an offer, and
      a completed entry carries exactly that one. */
  lemma {:induction false} OneSettlementRecorded(m: Entries, ops: seq<Op>, cap: Option<int>, k: string)
    requires Unique(m) && Get(m, k).Some? && WellFormed(Get(m, k).value) && NoReoffer(ops, k)
    requires Get(m, k).value.receipt.None?
    ensures |Recorded(m, ops, cap, k)| <= 1
    ensures var n := After(m, ops, cap);
            Get(n, k).Some? ==>
              && WellFormed(Get(n, k).value)
              && Recorded(m, ops, cap, k) ==
                   if Get(n, k).value.status == Completed then [Get(n, k).value.receipt.value] else []
    decreases |ops|
  {
    if ops != [] {
      var n := Do(m, ops[0], cap);
      OpEvolves(m, ops[0], cap, k);
      RecordedStep(m, ops[0], cap, k);
      Lifecycle(m, ops, cap, k);
      if Get(n, k).None? {
        StaysAbsent(n, ops[1..], cap, k);
        NothingRecorded(n, ops[1..], cap, k);
      } else if Get(n, k).value.receipt.Some? {
        Lifecycle(n, ops[1..], cap, k);
        NothingRecorded(n, ops[1..], cap, k);
      } else {
        OneSettlementRecorded(n, ops[1..], cap, k);
      }
    }
  }

  /** The first accepted settlement that finds the entry live and not final. */
  function FirstAccepted(m: Entries, ops: seq<Op>, cap: Option<int>, k: string): Option<Receipt>
    decreases |ops|
  {
    if ops == [] then None
    else if ops[0].Record? && ops[0].id == k && ops[0].finding.SettleAccepted? && Get(m, k).Some?
            && !IsFinal(Get(m, k).value.status) && !Expired(Get(m, k).value, ops[0].now)
    then Some(ops[0].finding.receipt)
    else FirstAccepted(Do(m, ops[0], cap), ops[1..], cap, k)
  }

  lemma RecordedIsFirst(m: Entries, op: Op, k: string)
    requires Unique(m) && Get(m, k).Some? && WellFormed(Get(m, k).value)
    ensures RecordedBy(m, op, k) == (if FirstAccepted(m, [op], None, k).Some?
                                     then [FirstAccepted(m, [op], None, k).value] else [])
  {
  }

  /** An accepted settlement is not lost: over any interleaving, what is recorded is the
      first one that found the entry live and not final, and as long as the entry is stored
      it is completed with exactly that receipt. */
  lemma {:induction false} FirstAcceptedIsRecorded(m: Entries, ops: seq<Op>, cap: Option<int>, k: string)
    requires Unique(m) && Get(m, k).Some? && WellFormed(Get(m, k).value) && NoReoffer(ops, k)
    requires Get(m, k).value.receipt.None?
    ensures var first := FirstAccepted(m, ops, cap, k);
            Recorded(m, ops, cap, k) == if first.Some? then [first.value] else []
    ensures var first, n := FirstAccepted(m, ops, cap, k), After(m, ops, cap);
            Get(n, k).Some? ==>
              && Get(n, k).value.receipt == first
              && (Get(n, k).value.status == Completed <==> first.Some?)
    decreases |ops|
  {
    OneSettlementRecorded(m, ops, cap, k);
    if ops != [] {
      var n := Do(m, ops[0], cap);
      OpEvolves(m, ops[0], cap, k);
      RecordedStep(m, ops[0], cap, k);
      RecordedIsFirst(m, ops[0], k);
      if Get(n, k).None? {
        NothingRecorded(n, ops[1..], cap, k);
        NothingAccepted(n, ops[1..], cap, k);
      } else if Get(n, k).value.receipt.Some? {
        NothingRecorded(n, ops[1..], cap, k);
      } else {
        FirstAcceptedIsRecorded(n, ops[1..], cap, k);
      }
    }
  }

  lemma {:induction false} NothingAccepted(m: Entries, ops: seq<Op>, cap: Option<int>, k: string)
    requires Unique(m) && Get(m, k).None? && NoReoffer(ops, k)
    ensures FirstAccepted(m, ops, cap, k).None?
    decreases |ops|
  {
    if ops != [] {
      OpEvolves(m, ops[0], cap, k);
      NothingAccepted(Do(m, ops[0], cap), ops[1..], cap, k);
    }
  }

  // ---- Metered settlement ------------------------------------------------------------------------

  datatype Metered = Charge(amount: string) | Refused

  function Min(a: nat, b: nat): nat {
    if a < b then a else b
  }

  /** The amount written into the settled requirement; `signedCap` is what the payload
      authorizes, which a malformed payload may not name. */
  function MeteredAmount(scheme: string, metered: string, offered: string, signedCap: Option<string>): Metered {
    if scheme == "exact" || !IsNumeral(metered) || !IsNumeral(offered) then Refused
    else
      var bound := Min(Val(metered), Val(offered));
      Charge(Dec(if signedCap.Some? && IsNumeral(signedCap.value) then Min(bound, Val(signedCap.value)) else bound))
  }

  /** A plain decimal integer: no sign, no point, no blank, and not empty. */
  predicate IsPlain(s: string) {
    |s| > 0 && forall i | 0 <= i < |s| :: '0' <= s[i] <= '9'
  }

  /** Exactly which metered settlements are refused: of a scheme that binds one amount, or
      with a reading or an offer that is no plain decimal integer. A signed cap that is none
      is passed over. */
  lemma MeterRefusesExactly(scheme: string, metered: string, offered: string, signedCap: Option<string>)
    ensures MeteredAmount(scheme, metered, offered, signedCap).Refused? <==>
              scheme == "exact" || !IsPlain(metered) || !IsPlain(offered)
    ensures signedCap.Some? && !IsPlain(signedCap.value) ==>
              MeteredAmount(scheme, metered, offered, signedCap) == MeteredAmount(scheme, metered, offered, None)
  {
  }

  /** A metering mistake can only undercharge: the charge is the greatest amount within
      everything metered, offered and signed. */
  lemma MeterOnlyUndercharges(scheme: string, metered: string, offered: string, signedCap: Option<string>, other: nat)
    requires MeteredAmount(scheme, metered, offered, signedCap).Charge?
    ensures var amount := MeteredAmount(scheme, metered, offered, signedCap).amount;
            && IsNumeral(amount)
            && (other <= Val(amount) <==>
                  && other <= Val(metered) && other <= Val(offered)
                  && (signedCap.Some? && IsNumeral(signedCap.value) ==> other <= Val(signedCap.value)))
  {
    var bound := Min(Val(metered), Val(offered));
    ValDec(bound);
    if signedCap.Some? && IsNumeral(signedCap.value) {
      ValDec(Min(bound, Val(signedCap.value)));
    }
  }
}
