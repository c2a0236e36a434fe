/** No voucher is signed on a channel while an earlier one handed to the merchant is
    unaccounted for: over every run, unless a submitted record is stored inside another
    attempt's open manual fold that is going to be stored (AttemptOverlap proves that each
    such record is lost). */
module AttemptSafety {
  import opened Options
  import opened ChannelFold
  import opened Reconcile
  import opened BatchAttempt
  import opened AttemptProtocol
  import AttemptLease

  // ---- The discipline asked of manual callers ----------------------------------------

  /** The open manual fold that would wipe this voucher's submitted record: another
      attempt's, let through by the guards, while nothing else accounts for the voucher. */
  predicate WouldErase(s: State, m: Mint) {
    && m.key in s.repairs && m.ordinal !in s.folded && m.ordinal !in s.rejected
    && var p := s.repairs[m.key];
       p.mint.ordinal != m.ordinal && FoldOver(p.mint, p.receipt, p.read).Some?
  }

  /** No submitted record is stored between the `get` and the `set` of such a fold. */
  predicate Calm(s: State, step: Step)
    requires Enabled(s, step)
  {
    step.MarkWrite? && step.result.Stored? ==> !WouldErase(s, s.live[step.call].mint)
  }

  ghost predicate Disciplined(s: State, steps: seq<Step>)
    requires Runs(s, steps)
    decreases |steps|
  {
    steps != [] ==> Calm(s, steps[0]) && Disciplined(Do(s, steps[0]), steps[1..])
  }

  // ---- The invariant -------------------------------------------------------------------

  function IdOf(s: State, i: nat): AttemptId
    requires i < |s.ledger|
  {
    s.ledger[i].binding.attemptId
  }

  /** `i` is unresolved on `key`. */
  predicate OpenOn(s: State, i: nat, key: string) {
    Unresolved(s, i) && i < |s.ledger| && s.ledger[i].key == key
  }

  /** Every unresolved voucher has left its own mark in its channel's record. */
  ghost predicate RecordsTrace(s: State) {
    forall i, k | OpenOn(s, i, k) :: k in s.records && Traces(s.records[k], IdOf(s, i))
  }

  /** An open manual fold that will be stored has read the mark of every unresolved voucher
      but its own. */
  ghost predicate RepairsTrace(s: State) {
    forall i, k | k in s.repairs && OpenOn(s, i, k) && i != s.repairs[k].mint.ordinal ::
      var p := s.repairs[k];
      FoldOver(p.mint, p.receipt, p.read).Some? ==> p.read.Some? && Traces(p.read.value, IdOf(s, i))
  }

  /** A live attempt has its channel to itself. */
  ghost predicate Alone(s: State, p: Phase) {
    && (p.Signing? && !Blocked(p.snapshot) ==> forall i :: !OpenOn(s, i, p.key))
    && (HasMint(p) ==> forall i | OpenOn(s, i, p.mint.key) :: i == p.mint.ordinal)
    && (p.Signed? || p.Marking? ==> p.mint.ordinal !in s.submitted)
    && (p.Clearing? ==> p.mint.ordinal in s.rejected)
  }

  ghost predicate LiveAlone(s: State) {
    forall c | c in s.live :: Alone(s, s.live[c])
  }

  ghost predicate Tracked(s: State) {
    RecordsTrace(s) && RepairsTrace(s) && LiveAlone(s)
  }

  /** No voucher opens. */
  ghost predicate Recedes(s: State, t: State) {
    && |s.ledger| <= |t.ledger| && t.ledger[..|s.ledger|] == s.ledger
    && (forall i, k | OpenOn(t, i, k) :: OpenOn(s, i, k))
  }

  lemma RecordsKept(s: State, t: State)
    requires RecordsTrace(s) && Recedes(s, t) && t.records == s.records
    ensures RecordsTrace(t)
  {
    forall i, k | OpenOn(t, i, k) ensures k in t.records && Traces(t.records[k], IdOf(t, i)) {
      assert OpenOn(s, i, k);
    }
  }

  /** Folds that open now read storage, which traces every open voucher. */
  lemma RepairsKept(s: State, t: State)
    requires RecordsTrace(s) && RepairsTrace(s) && Recedes(s, t)
    requires forall k | k in t.repairs ::
               (k in s.repairs && t.repairs[k] == s.repairs[k]) || t.repairs[k].read == Lookup(s.records, k)
    ensures RepairsTrace(t)
  {
    forall i, k | k in t.repairs && OpenOn(t, i, k) && i != t.repairs[k].mint.ordinal
        && FoldOver(t.repairs[k].mint, t.repairs[k].receipt, t.repairs[k].read).Some?
      ensures t.repairs[k].read.Some? && Traces(t.repairs[k].read.value, IdOf(t, i))
    {
      assert OpenOn(s, i, k);
    }
  }

  lemma LiveKept(s: State, t: State)
    requires LiveAlone(s) && Recedes(s, t) && t.submitted == s.submitted && s.rejected <= t.rejected
    requires forall c | c in t.live :: (c in s.live && t.live[c] == s.live[c]) || Alone(t, t.live[c])
    ensures LiveAlone(t)
  {
  }

  lemma ReadRecedes(s: State, step: Step)
    requires Enabled(s, step) && Reads(step)
    ensures var t := DoRead(s, step);
            && Recedes(s, t) && t.records == s.records && t.submitted == s.submitted && s.rejected <= t.rejected
  {
    var t := DoRead(s, step);
    assert t.ledger == s.ledger && t.submitted == s.submitted && t.folded == s.folded && s.rejected <= t.rejected;
  }

  lemma OpenedAlone(s: State, step: Step)
    requires RecordsTrace(s) && LiveAlone(s) && Enabled(s, step) && Reads(step) && !step.RepairRead?
    ensures Alone(DoRead(s, step), Opened(s, step))
  {
    ReadRecedes(s, step);
    assert !step.SignRead? ==> Alone(s, s.live[step.call]);
  }

  lemma ReadTracked(s: State, step: Step)
    requires Tracked(s) && Enabled(s, step) && Reads(step)
    ensures Tracked(DoRead(s, step))
  {
    var t := DoRead(s, step);
    ReadRecedes(s, step);
    RecordsKept(s, t);
    RepairsKept(s, t);
    if !step.RepairRead? {
      OpenedAlone(s, step);
    }
    LiveKept(s, t);
  }

  /** Only a stored submitted record opens a voucher, its own. */
  lemma WriteOpens(s: State, step: Step, i: nat, k: string)
    requires Shape(s) && Enabled(s, step) && Writes(step) && OpenOn(DoWrite(s, step), i, k)
    ensures DoWrite(s, step).ledger == s.ledger
    ensures OpenOn(s, i, k) || (step.MarkWrite? && step.result.Stored? && i == Writer(s, step).ordinal
        && k == Writer(s, step).key)
    ensures Folds(step) && Content(s, step).Some? && Landed(step.result) ==> i != Writer(s, step).ordinal
  {
    LandKeepsShape(s, step);
  }

  lemma RepairContentTraces(s: State, key: string, result: WriteResult, i: nat)
    requires Shape(s) && RepairsTrace(s) && key in s.repairs && OpenOn(s, i, key)
    requires i != s.repairs[key].mint.ordinal && Content(s, RepairWrite(key, result)).Some?
    ensures Traces(Content(s, RepairWrite(key, result)).value, IdOf(s, i))
  {
    var p := s.repairs[key];
    assert IsMint(s, p.mint);
    assert s.ledger[i].binding.attemptId != s.ledger[p.mint.ordinal].binding.attemptId;
    var b := BoundsOf(p.mint.binding).bounds;
    FoldKeepsForeignTraces(b, Accepted(p.receipt, b).value, p.receipt, p.read, IdOf(s, i));
  }

  /** What a write that lands leaves behind on its own channel. */
  lemma ContentTraces(s: State, step: Step, i: nat)
    requires Shape(s) && Tracked(s) && Enabled(s, step) && Writes(step)
    requires Content(s, step).Some? && Landed(step.result)
    requires OpenOn(DoWrite(s, step), i, Writer(s, step).key)
    ensures Traces(Content(s, step).value, IdOf(s, i))
  {
    LandKeepsShape(s, step);
    var m := Writer(s, step);
    WriteOpens(s, step, i, m.key);
    if step.RepairWrite? {
      RepairContentTraces(s, step.key, step.result, i);
    } else {
      assert i == m.ordinal;
      assert !Folds(step) && !step.RetryWrite?;
    }
  }

  lemma WriteTraces(s: State, step: Step, i: nat, k: string)
    requires Shape(s) && Tracked(s) && Enabled(s, step) && Writes(step) && OpenOn(DoWrite(s, step), i, k)
    ensures k in DoWrite(s, step).records && Traces(DoWrite(s, step).records[k], IdOf(s, i))
  {
    WriteOpens(s, step, i, k);
    WriteFrame(s, step);
    if k == Writer(s, step).key && Content(s, step).Some? && Landed(step.result) {
      ContentTraces(s, step, i);
    } else {
      assert !(step.MarkWrite? && step.result.Stored? && k == Writer(s, step).key);
    }
  }

  lemma WriteRecordsTrace(s: State, step: Step)
    requires Shape(s) && Tracked(s) && Enabled(s, step) && Writes(step)
    ensures RecordsTrace(DoWrite(s, step))
  {
    var t := DoWrite(s, step);
    forall i, k | OpenOn(t, i, k) ensures k in t.records && Traces(t.records[k], IdOf(t, i)) {
      WriteOpens(s, step, i, k);
      WriteTraces(s, step, i, k);
    }
  }

  lemma WriteRepairTraces(s: State, step: Step, i: nat, k: string)
    requires Shape(s) && RepairsTrace(s) && Enabled(s, step) && Writes(step) && Calm(s, step)
    requires OpenOn(DoWrite(s, step), i, k) && k in s.repairs && i != s.repairs[k].mint.ordinal
    requires var p := s.repairs[k]; FoldOver(p.mint, p.receipt, p.read).Some?
    ensures i < |s.ledger| && s.repairs[k].read.Some? && Traces(s.repairs[k].read.value, IdOf(s, i))
  {
    WriteOpens(s, step, i, k);
    WriteFrame(s, step);
  }

  lemma WriteRepairsTrace(s: State, step: Step)
    requires Shape(s) && Tracked(s) && Enabled(s, step) && Writes(step) && Calm(s, step)
    ensures RepairsTrace(DoWrite(s, step))
  {
    var t := DoWrite(s, step);
    WriteFrame(s, step);
    forall i, k | k in t.repairs && OpenOn(t, i, k) && i != t.repairs[k].mint.ordinal
        && FoldOver(t.repairs[k].mint, t.repairs[k].receipt, t.repairs[k].read).Some?
      ensures t.repairs[k].read.Some? && Traces(t.repairs[k].read.value, IdOf(t, i))
    {
      assert k in s.repairs && t.repairs[k] == s.repairs[k];
      WriteRepairTraces(s, step, i, k);
    }
  }

  /** A manual fold leaves the live attempt alone. */
  lemma RepairLiveAlone(s: State, step: Step)
    requires Shape(s) && LiveAlone(s) && Enabled(s, step) && step.RepairWrite?
    ensures LiveAlone(DoWrite(s, step))
  {
    var t := DoWrite(s, step);
    forall i, k | OpenOn(t, i, k) ensures OpenOn(s, i, k) {
      WriteOpens(s, step, i, k);
    }
    WriteFrame(s, step);
    assert t.submitted == s.submitted;
    LiveKept(s, t);
  }

  /** Any other write is the live attempt's own: it goes on as sent, or is over. */
  lemma SentAlone(s: State, step: Step)
    requires Shape(s) && LiveAlone(s) && Enabled(s, step) && Writes(step) && !step.RepairWrite?
    ensures Alone(DoWrite(s, step), Sent(Writer(s, step)))
  {
    var t, m := DoWrite(s, step), Writer(s, step);
    forall i | OpenOn(t, i, m.key) ensures i == m.ordinal {
      WriteOpens(s, step, i, m.key);
      assert Alone(s, s.live[step.call]);
    }
  }

  lemma WriteLiveAlone(s: State, step: Step)
    requires Shape(s) && Tracked(s) && Enabled(s, step) && Writes(step)
    ensures LiveAlone(DoWrite(s, step))
  {
    if step.RepairWrite? {
      RepairLiveAlone(s, step);
    } else {
      SentAlone(s, step);
      WriteFrame(s, step);
      forall c | c in s.live ensures c == step.call {
        OneLive(s, c, step.call);
      }
    }
  }

  lemma CaptureTracked(s: State, step: Step)
    requires Shape(s) && Tracked(s) && Enabled(s, step) && step.Capture?
    ensures Tracked(Do(s, step))
  {
    var t := Do(s, step);
    assert t.ledger[..|s.ledger|] == s.ledger;
    assert Recedes(s, t);
    RecordsKept(s, t);
    RepairsKept(s, t);
    assert Alone(s, s.live[step.call]);
    assert Alone(t, t.live[step.call]);
    LiveKept(s, t);
  }

  lemma OtherTracked(s: State, step: Step)
    requires Shape(s) && Tracked(s) && Enabled(s, step) && !Reads(step) && !Writes(step)
    ensures Tracked(Do(s, step))
  {
    if step.Capture? {
      CaptureTracked(s, step);
    } else {
      var t := Do(s, step);
      assert Recedes(s, t);
      RecordsKept(s, t);
      RepairsKept(s, t);
      LiveKept(s, t);
    }
  }

  lemma TrackedStep(s: State, step: Step)
    requires Shape(s) && Tracked(s) && Enabled(s, step) && Calm(s, step)
    ensures Tracked(Do(s, step))
  {
    if Reads(step) {
      ReadTracked(s, step);
    } else if Writes(step) {
      WriteRecordsTrace(s, step);
      WriteRepairsTrace(s, step);
      WriteLiveAlone(s, step);
    } else {
      OtherTracked(s, step);
    }
  }

  lemma {:induction false} TrackedRun(s: State, steps: seq<Step>)
    requires Shape(s) && Tracked(s) && Runs(s, steps) && Disciplined(s, steps)
    ensures Shape(After(s, steps)) && Tracked(After(s, steps))
    decreases |steps|
  {
    if steps != [] {
      ShapeStep(s, steps[0]);
      TrackedStep(s, steps[0]);
      TrackedRun(Do(s, steps[0]), steps[1..]);
    }
  }

  // ---- The results ---------------------------------------------------------------------

  /** In every state a disciplined run reaches, across crashes and failed writes, each
      voucher handed over and neither folded nor proven rejected has its own submitted
      record or its own quarantine marker in storage. */
  lemma EveryOpenVoucherIsTraced(steps: seq<Step>, i: nat)
    requires Runs(Init, steps) && Disciplined(Init, steps)
    requires Unresolved(After(Init, steps), i)
    ensures var s := After(Init, steps);
            && i < |s.ledger| && s.ledger[i].key in s.records
            && Traces(s.records[s.ledger[i].key], IdOf(s, i))
  {
    TrackedRun(Init, steps);
    var s := After(Init, steps);
    assert OpenOn(s, i, s.ledger[i].key);
  }

  /** So no disciplined run ever signs over an unresolved voucher. */
  lemma NeverSignsOverOpenVoucher(steps: seq<Step>, c: nat, id: AttemptId, amount: nat, deposit: Numeral)
    requires Runs(Init, steps) && Disciplined(Init, steps)
    requires Enabled(After(Init, steps), Capture(c, id, amount, deposit))
    ensures var s := After(Init, steps);
            forall i :: !OpenOn(s, i, s.live[c].key)
  {
    TrackedRun(Init, steps);
  }
}
