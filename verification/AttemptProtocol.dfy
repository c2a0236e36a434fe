/** The payer's channel protocol over whole runs: every storage call of every attempt
    and of every manual reconcile is its own step, any of them may fail or be lost in a
    crash, and the merchant's receipts are arbitrary. */
module AttemptProtocol {
  import opened Options
  import opened ChannelFold
  import opened Reconcile
  import opened AttemptLease
  import opened BatchAttempt

  /** A signed voucher, numbered in signing order. */
  datatype Mint = Mint(ordinal: nat, key: string, amount: nat, binding: Binding)

  /** Where a lease-holding attempt stands; `read` is what its open `get` returned. */
  datatype Phase =
    | Signing(key: string, snapshot: Option<ChannelState>)
    | Signed(mint: Mint)
    | Marking(mint: Mint, read: Option<ChannelState>)
    | Sent(mint: Mint)
    | Folding(mint: Mint, read: Option<ChannelState>, receipt: Receipt)
    | Clearing(mint: Mint, read: Option<ChannelState>)
    | Quarantining(mint: Mint, read: Option<ChannelState>, reason: string)

  /** A manual reconcile of a persisted binding between its `get` and its `set`. */
  datatype Repair = Repair(mint: Mint, read: Option<ChannelState>, receipt: Receipt)

  datatype State = State(
    records: map<string, ChannelState>,  // survives a crash
    lease: Lease,
    live: map<nat, Phase>,               // by lease call
    repairs: map<string, Repair>,        // by channel: the reconciliation lock admits one
    ledger: seq<Mint>,                   // history: every voucher ever signed
    submitted: set<nat>,                 // history: handed to the transport
    folded: set<nat>,                    // history: some fold under its binding was stored
    rejected: set<nat>)                  // history: provably rejected by the merchant

  const Init := State(map[], Idle, map[], map[], [], {}, {}, {})

  datatype WriteResult = Stored | Threw(landed: bool)

  datatype Step =
    | Call                                   // acquireBatchAttemptLock chains itself
    | Resume(call: nat)                      // ... and its predecessor settled
    | SignRead(call: nat, key: string)       // the scheme's first storage read
    | Abandon(call: nat)                     // signing failed, or dispose before submission
    | Capture(call: nat, id: AttemptId, amount: nat, deposit: Numeral)
    | MarkRead(call: nat)
    | MarkWrite(call: nat, result: WriteResult)
    | FoldRead(call: nat, receipt: Receipt)
    | FoldWrite(call: nat, result: WriteResult)
    | Resolve(call: nat)
    | RetryRead(call: nat)                   // the merchant re-prompted: voucher rejected
    | RetryWrite(call: nat, result: WriteResult)
    | QuarantineRead(call: nat, reason: string)
    | QuarantineWrite(call: nat, result: WriteResult)
    | RepairRead(mint: Mint, receipt: Receipt)
    | RepairWrite(key: string, result: WriteResult)
    | Crash

  predicate Landed(result: WriteResult) {
    result.Stored? || result.landed
  }

  /** The binding's bounds exist and accept the receipt. */
  predicate Vouches(m: Mint, r: Receipt) {
    BoundsOf(m.binding).Bounded? && Accepted(r, BoundsOf(m.binding).bounds).Some?
  }

  /** What folding the receipt under the binding would store over `read`. */
  function FoldOver(m: Mint, r: Receipt, read: Option<ChannelState>): Option<ChannelState> {
    if !Vouches(m, r) then None
    else Commit(read, BoundsOf(m.binding).bounds, Accepted(r, BoundsOf(m.binding).bounds).value, r)
  }

  predicate FoldInProgress(s: State, key: string) {
    || key in s.repairs
    || exists c | c in s.live :: s.live[c].Folding? && s.live[c].mint.key == key
  }

  predicate Unminted(s: State, id: AttemptId) {
    forall i | 0 <= i < |s.ledger| :: s.ledger[i].binding.attemptId != id
  }

  predicate Enabled(s: State, step: Step) {
    match step
    case Call => true
    case Resume(c) => CanWake(s.lease, c)
    case SignRead(c, key) => Holds(s.lease, c) && c !in s.live && Canonical(key) && Key(key) == key
    case Abandon(c) => Holds(s.lease, c) && (c in s.live ==>
        s.live[c].Signing? || s.live[c].Signed? || s.live[c].Marking?)
    case Capture(c, id, _, deposit) =>
      && c in s.live && s.live[c].Signing? && !Blocked(s.live[c].snapshot)
      && CumulativeOf(s.live[c].snapshot).Some?
      && id != "" && Unminted(s, id)
      && (deposit.Missing? || (deposit.Amount? && deposit.value >= 0))
    case MarkRead(c) => c in s.live && s.live[c].Signed?
    case MarkWrite(c, _) => c in s.live && s.live[c].Marking?
    case FoldRead(c, r) =>
      c in s.live && s.live[c].Sent? && Vouches(s.live[c].mint, r) && !FoldInProgress(s, s.live[c].mint.key)
    case FoldWrite(c, _) => c in s.live && s.live[c].Folding?
    case Resolve(c) => c in s.live && s.live[c].Sent? && s.live[c].mint.ordinal in s.folded
    case RetryRead(c) => c in s.live && s.live[c].Sent?
    case RetryWrite(c, _) => c in s.live && s.live[c].Clearing?
    case QuarantineRead(c, _) => c in s.live && s.live[c].Sent?
    case QuarantineWrite(c, _) => c in s.live && s.live[c].Quarantining?
    case RepairRead(m, r) => m in s.ledger && Vouches(m, r) && !FoldInProgress(s, m.key)
    case RepairWrite(key, _) => key in s.repairs
    case Crash => true
  }

  /** The steps that open a storage read, and the steps that complete with a storage write. */
  predicate Reads(step: Step) {
    step.SignRead? || step.MarkRead? || step.FoldRead? || step.RetryRead? || step.QuarantineRead? || step.RepairRead?
  }

  predicate Writes(step: Step) {
    step.MarkWrite? || step.FoldWrite? || step.RetryWrite? || step.QuarantineWrite? || step.RepairWrite?
  }

  predicate Folds(step: Step) {
    step.FoldWrite? || step.RepairWrite?
  }

  /** Where an attempt stands once its `get` has returned. */
  function Opened(s: State, step: Step): Phase
    requires Enabled(s, step) && Reads(step) && !step.RepairRead?
  {
    match step
    case SignRead(_, key) => Signing(key, Lookup(s.records, key))
    case MarkRead(c) => Marking(s.live[c].mint, Lookup(s.records, s.live[c].mint.key))
    case FoldRead(c, r) => Folding(s.live[c].mint, Lookup(s.records, s.live[c].mint.key), r)
    case RetryRead(c) => Clearing(s.live[c].mint, Lookup(s.records, s.live[c].mint.key))
    case QuarantineRead(c, reason) => Quarantining(s.live[c].mint, Lookup(s.records, s.live[c].mint.key), reason)
  }

  function DoRead(s: State, step: Step): State
    requires Enabled(s, step) && Reads(step)
  {
    if step.RepairRead? then
      s.(repairs := s.repairs[step.mint.key := Repair(step.mint, Lookup(s.records, step.mint.key), step.receipt)])
    else
      var t := s.(live := s.live[step.call := Opened(s, step)]);
      if step.RetryRead? then t.(rejected := t.rejected + {s.live[step.call].mint.ordinal}) else t
  }

  /** The voucher a write is made for. */
  function Writer(s: State, step: Step): Mint
    requires Enabled(s, step) && Writes(step)
  {
    if step.RepairWrite? then s.repairs[step.key].mint else s.live[step.call].mint
  }

  /** What its `get` returned earlier. */
  function ReadBy(s: State, step: Step): Option<ChannelState>
    requires Enabled(s, step) && Writes(step)
  {
    if step.RepairWrite? then s.repairs[step.key].read else s.live[step.call].read
  }

  /** What it stores if the write lands; a declined fold or a foreign record stores nothing. */
  function Content(s: State, step: Step): Option<ChannelState>
    requires Enabled(s, step) && Writes(step)
  {
    var m, read := Writer(s, step), ReadBy(s, step);
    match step
    case MarkWrite(_, _) => Some(MarkedPending(read, m.binding, None, ""))
    case FoldWrite(c, _) => FoldOver(m, s.live[c].receipt, read)
    case RetryWrite(_, _) => if OwnPending(read, m.binding.attemptId) then Some(PendingCleared(read.value)) else None
    case QuarantineWrite(c, _) => Some(MarkedQuarantined(read, m.binding, s.live[c].reason, None, ""))
    case RepairWrite(key, _) => FoldOver(m, s.repairs[key].receipt, read)
  }

  /** The storage effect of a write step. */
  function Land(s: State, step: Step): State
    requires Enabled(s, step) && Writes(step)
  {
    var m := Writer(s, step);
    if Content(s, step).None? || !Landed(step.result) then s
    else s.(records := s.records[m.key := Content(s, step).value],
            folded := if Folds(step) then s.folded + {m.ordinal} else s.folded)
  }

  /** The attempt is over: drop it and release its lease. */
  function End(s: State, c: nat, error: Option<Unsafe>): State {
    s.(live := s.live - {c}, lease := Release(s.lease, c, error))
  }

  function DoWrite(s: State, step: Step): State
    requires Enabled(s, step) && Writes(step)
  {
    var m := Writer(s, step);
    var t := Land(s, step);
    match step
    case MarkWrite(c, result) =>
      if result.Stored? then t.(live := t.live[c := Sent(m)], submitted := t.submitted + {m.ordinal})
      else End(t, c, None)
    case FoldWrite(c, _) => t.(live := t.live[c := Sent(m)])
    case RetryWrite(c, _) => End(t, c, None)
    case QuarantineWrite(c, _) => End(t, c, Some(Unsafe(m.binding.attemptId, s.live[c].reason)))
    case RepairWrite(key, _) => t.(repairs := t.repairs - {key})
  }

  /** The voucher the signer makes: its ceiling is the snapshot's cumulative plus the amount. */
  function MintFor(s: State, key: string, snapshot: Option<ChannelState>, id: AttemptId, amount: nat,
      deposit: Numeral): Mint
    requires CumulativeOf(snapshot).Some?
  {
    Mint(|s.ledger|, key, amount,
         Binding(key, Amount(CumulativeOf(snapshot).value + amount), deposit, id,
                 if snapshot.Some? then Taken(snapshot.value) else NoRecord))
  }

  function Do(s: State, step: Step): State
    requires Enabled(s, step)
  {
    if Reads(step) then DoRead(s, step)
    else if Writes(step) then DoWrite(s, step)
    else match step
      case Call => s.(lease := Chain(s.lease))
      case Resume(c) => s.(lease := Wake(s.lease, c))
      case Abandon(c) => End(s, c, None)
      case Resolve(c) => End(s, c, None)
      case Capture(c, id, amount, deposit) =>
        var m := MintFor(s, s.live[c].key, s.live[c].snapshot, id, amount, deposit);
        s.(live := s.live[c := Signed(m)], ledger := s.ledger + [m])
      case Crash => s.(lease := Idle, live := map[], repairs := map[])
  }

  // ---- Runs -------------------------------------------------------------------------

  ghost predicate Runs(s: State, steps: seq<Step>)
    decreases |steps|
  {
    steps != [] ==> Enabled(s, steps[0]) && Runs(Do(s, steps[0]), steps[1..])
  }

  ghost function After(s: State, steps: seq<Step>): State
    requires Runs(s, steps)
    decreases |steps|
  {
    if steps == [] then s else After(Do(s, steps[0]), steps[1..])
  }

  /** A submitted attempt that is neither folded nor proven rejected. */
  predicate Unresolved(s: State, i: nat) {
    i in s.submitted && i !in s.folded && i !in s.rejected
  }

  // ---- What every run keeps, with no discipline at all ---------------------------------

  ghost predicate IsMint(s: State, m: Mint) {
    m.ordinal < |s.ledger| && s.ledger[m.ordinal] == m
  }

  predicate HasMint(p: Phase) {
    !p.Signing?
  }

  function PhaseKey(p: Phase): string {
    if p.Signing? then p.key else p.mint.key
  }

  /** The ledger numbers vouchers in signing order and their ids are unique. */
  ghost predicate GoodLedger(ledger: seq<Mint>) {
    && (forall i | 0 <= i < |ledger| :: ledger[i].ordinal == i && ledger[i].binding.attemptId != "")
    && (forall i, j | 0 <= i < j < |ledger| :: ledger[i].binding.attemptId != ledger[j].binding.attemptId)
  }

  ghost predicate Shape(s: State) {
    && Inv(s.lease)
    && GoodLedger(s.ledger)
    && (forall c | c in s.live :: Holds(s.lease, c) && (HasMint(s.live[c]) ==> IsMint(s, s.live[c].mint)))
    && (forall k | k in s.repairs :: IsMint(s, s.repairs[k].mint) && s.repairs[k].mint.key == k)
    && (forall i | i in s.submitted || i in s.folded || i in s.rejected :: i < |s.ledger|)
  }

  /** The lease admits one live attempt per storage. */
  lemma OneLive(s: State, c: nat, d: nat)
    requires Shape(s) && Holds(s.lease, c) && Holds(s.lease, d)
    ensures c == d
  {
  }

  lemma EndKeepsShape(s: State, c: nat, error: Option<Unsafe>)
    requires Shape(s) && Holds(s.lease, c)
    ensures Shape(End(s, c, error))
  {
    StepKeepsInv(s.lease, Free(c, error));
    forall d | d in s.live ensures d == c {
      OneLive(s, c, d);
    }
  }

  lemma LeaseStepKeepsShape(s: State, step: AttemptLease.Step)
    requires Shape(s) && AttemptLease.Enabled(s.lease, step) && !step.Free?
    ensures Shape(s.(lease := AttemptLease.Do(s.lease, step)))
  {
    StepKeepsInv(s.lease, step);
    var t := AttemptLease.Do(s.lease, step);
    forall c | c in s.live ensures Holds(t, c) {
      assert Holds(s.lease, c);
    }
  }

  lemma AdvanceKeepsShape(s: State, c: nat, p: Phase)
    requires Shape(s) && Holds(s.lease, c) && (HasMint(p) ==> IsMint(s, p.mint))
    ensures Shape(s.(live := s.live[c := p]))
  {
  }

  lemma LandKeepsShape(s: State, step: Step)
    requires Shape(s) && Enabled(s, step) && Writes(step)
    ensures IsMint(s, Writer(s, step)) && Shape(Land(s, step))
    ensures step.RepairWrite? ==> Writer(s, step).key == step.key
  {
    var t := Land(s, step);
    assert t == s.(records := t.records, folded := t.folded);
  }

  /** All a write step changes besides its own attempt. */
  lemma WriteFrame(s: State, step: Step)
    requires Enabled(s, step) && Writes(step)
    ensures var t, m := DoWrite(s, step), Writer(s, step);
            && t.ledger == s.ledger
            && t.records == (if Content(s, step).Some? && Landed(step.result)
                             then s.records[m.key := Content(s, step).value] else s.records)
            && (forall c | c in t.live :: t.live[c] == Sent(m) || (c in s.live && t.live[c] == s.live[c]))
            && (forall k | k in t.repairs :: k in s.repairs && t.repairs[k] == s.repairs[k])
            && (if step.RepairWrite? then t.live == s.live && t.repairs == s.repairs - {step.key}
                else t.repairs == s.repairs && (step.call in t.live ==> t.live[step.call].Sent?))
            && t.rejected == s.rejected
            && (forall i | i in t.folded :: i in s.folded || (Folds(step) && i == m.ordinal))
  {
    var t := Land(s, step);
    assert t.ledger == s.ledger && t.live == s.live && t.repairs == s.repairs && t.rejected == s.rejected;
  }

  lemma ShapeSubmit(s: State, c: nat)
    requires Shape(s) && Enabled(s, MarkWrite(c, Stored))
    ensures Shape(DoWrite(s, MarkWrite(c, Stored)))
  {
    LandKeepsShape(s, MarkWrite(c, Stored));
    var m, t := s.live[c].mint, Land(s, MarkWrite(c, Stored));
    AdvanceKeepsShape(t, c, Sent(m));
    assert DoWrite(s, MarkWrite(c, Stored)) == t.(live := t.live[c := Sent(m)], submitted := t.submitted + {m.ordinal});
  }

  /** A write that ends its attempt. */
  lemma ShapeEnd(s: State, step: Step)
    requires Shape(s) && Enabled(s, step) && Writes(step)
    requires step.RetryWrite? || step.QuarantineWrite? || (step.MarkWrite? && step.result.Threw?)
    ensures Shape(DoWrite(s, step))
  {
    LandKeepsShape(s, step);
    EndKeepsShape(Land(s, step), step.call, if step.QuarantineWrite?
        then Some(Unsafe(s.live[step.call].mint.binding.attemptId, s.live[step.call].reason)) else None);
  }

  lemma ShapeWrite(s: State, step: Step)
    requires Shape(s) && Enabled(s, step) && Writes(step)
    ensures Shape(DoWrite(s, step))
  {
    LandKeepsShape(s, step);
    match step
    case FoldWrite(c, _) => AdvanceKeepsShape(Land(s, step), c, Sent(s.live[c].mint));
    case RepairWrite(_, _) =>
    case MarkWrite(c, Stored) => ShapeSubmit(s, c);
    case _ => ShapeEnd(s, step);
  }

  lemma ShapeRepairRead(s: State, m: Mint, r: Receipt)
    requires Shape(s) && Enabled(s, RepairRead(m, r))
    ensures Shape(DoRead(s, RepairRead(m, r)))
  {
    var i :| 0 <= i < |s.ledger| && s.ledger[i] == m;
    assert IsMint(s, m);
  }

  lemma ShapeRead(s: State, step: Step)
    requires Shape(s) && Enabled(s, step) && Reads(step)
    ensures Shape(DoRead(s, step))
  {
    if step.RepairRead? {
      ShapeRepairRead(s, step.mint, step.receipt);
    } else {
      assert step.SignRead? || IsMint(s, s.live[step.call].mint);
      AdvanceKeepsShape(s, step.call, Opened(s, step));
    }
  }

  lemma SignKeepsShape(s: State, c: nat, m: Mint)
    requires Shape(s) && Holds(s.lease, c) && m.ordinal == |s.ledger|
    requires m.binding.attemptId != "" && Unminted(s, m.binding.attemptId)
    ensures Shape(s.(live := s.live[c := Signed(m)], ledger := s.ledger + [m]))
  {
    assert GoodLedger(s.ledger + [m]);
  }

  lemma ShapeOther(s: State, step: Step)
    requires Shape(s) && Enabled(s, step) && !Reads(step) && !Writes(step)
    ensures Shape(Do(s, step))
  {
    match step
    case Call => LeaseStepKeepsShape(s, AttemptLease.Call);
    case Resume(c) => LeaseStepKeepsShape(s, AttemptLease.Resume(c));
    case Abandon(c) => EndKeepsShape(s, c, None);
    case Resolve(c) => EndKeepsShape(s, c, None);
    case Capture(c, id, amount, deposit) =>
      SignKeepsShape(s, c, MintFor(s, s.live[c].key, s.live[c].snapshot, id, amount, deposit));
    case Crash =>
  }

  lemma ShapeStep(s: State, step: Step)
    requires Shape(s) && Enabled(s, step)
    ensures Shape(Do(s, step))
  {
    if Reads(step) {
      ShapeRead(s, step);
    } else if Writes(step) {
      ShapeWrite(s, step);
    } else {
      ShapeOther(s, step);
    }
  }
}
