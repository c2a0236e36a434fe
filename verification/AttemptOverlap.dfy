/** Why the discipline of AttemptSafety is needed, exactly: a submitted record that breaks
    it is lost as soon as the open fold it was stored inside is stored. */
module AttemptOverlap {
  import opened Options
  import opened ChannelFold
  import opened Reconcile
  import opened BatchAttempt
  import opened AttemptProtocol
  import opened AttemptBounds
  import opened AttemptSafety
  import opened AttemptLease

  type Step = AttemptProtocol.Step

  // ---- Marks only ever carry ids that were minted ------------------------------------

  function Marks(rec: Option<ChannelState>): set<AttemptId> {
    (if rec.Some? && rec.value.pending.Some? then {rec.value.pending.value.attemptId} else {})
    + (if rec.Some? && rec.value.quarantinedAt.Some? && rec.value.quarantineBinding.Some?
       then {rec.value.quarantineBinding.value.attemptId} else {})
  }

  ghost predicate Minted(ledger: seq<Mint>, id: AttemptId) {
    exists i | 0 <= i < |ledger| :: ledger[i].binding.attemptId == id
  }

  ghost predicate Known(s: State) {
    && (forall k, id | k in s.records && id in Marks(Some(s.records[k])) :: Minted(s.ledger, id))
    && (forall c, id | c in s.live && id in Marks(ReadOf(s.live[c])) :: Minted(s.ledger, id))
    && (forall k, id | k in s.repairs && id in Marks(s.repairs[k].read) :: Minted(s.ledger, id))
    && (forall i | 0 <= i < |s.ledger| :: Marks(PreOf(s.ledger[i].binding)) == {})
  }

  /** A voucher that has not been handed over yet has left no mark in any record or open fold. */
  ghost predicate Fresh(s: State) {
    forall c | c in s.live && (s.live[c].Signed? || s.live[c].Marking?) ::
      var id := s.live[c].mint.binding.attemptId;
      && (forall k | k in s.records :: id !in Marks(Some(s.records[k])))
      && (forall k | k in s.repairs :: id !in Marks(s.repairs[k].read))
  }

  /** A fold keeps other attempts' marks and adds none. */
  lemma FoldMarks(m: Mint, r: Receipt, read: Option<ChannelState>)
    ensures Marks(FoldOver(m, r, read)) <= Marks(read)
  {
  }

  lemma ContentMarks(s: State, step: Step)
    requires Shape(s) && Known(s) && AttemptProtocol.Enabled(s, step) && Writes(step)
    ensures forall id | id in Marks(Content(s, step)) ::
              (!Folds(step) && id == Writer(s, step).binding.attemptId) || id in Marks(ReadBy(s, step))
  {
    LandKeepsShape(s, step);
    var m, read := Writer(s, step), ReadBy(s, step);
    if Folds(step) {
      FoldMarks(m, if step.RepairWrite? then s.repairs[step.key].receipt else s.live[step.call].receipt, read);
    } else {
      assert Marks(PreOf(m.binding)) == {};
      assert Marks(Some(Base(read, m.binding))) <= Marks(read) + Marks(PreOf(m.binding));
    }
  }

  /** What a write step changes, as far as marks are concerned. */
  ghost predicate WriteEffect(s: State, t: State, m: Mint, read: Option<ChannelState>, marksOwn: bool) {
    && t.ledger == s.ledger
    && (forall k | k in t.records ::
          || (k in s.records && t.records[k] == s.records[k])
          || (k == m.key && forall id | id in Marks(Some(t.records[k])) ::
                (marksOwn && id == m.binding.attemptId) || id in Marks(read)))
    && (forall c | c in t.live :: t.live[c] == Sent(m) || (c in s.live && t.live[c] == s.live[c]))
    && (forall k | k in t.repairs :: k in s.repairs && t.repairs[k] == s.repairs[k])
  }

  lemma WriteKnown(s: State, t: State, m: Mint, read: Option<ChannelState>, marksOwn: bool)
    requires Known(s) && WriteEffect(s, t, m, read, marksOwn) && Minted(s.ledger, m.binding.attemptId)
    requires forall id | id in Marks(read) :: Minted(s.ledger, id)
    ensures Known(t)
  {
  }

  lemma WriteFresh(s: State, t: State, m: Mint, read: Option<ChannelState>, marksOwn: bool)
    requires Fresh(s) && WriteEffect(s, t, m, read, marksOwn)
    requires forall c | c in t.live && (t.live[c].Signed? || t.live[c].Marking?) ::
               && c in s.live && t.live[c] == s.live[c] && !marksOwn
               && t.live[c].mint.binding.attemptId !in Marks(read)
    ensures Fresh(t)
  {
  }

  /** An attempt's own write leaves nobody about to hand a voucher over. */
  lemma OwnWriteLeavesNone(s: State, step: Step)
    requires Shape(s) && AttemptProtocol.Enabled(s, step) && Writes(step) && !step.RepairWrite?
    ensures forall c | c in DoWrite(s, step).live :: DoWrite(s, step).live[c].Sent?
  {
    WriteFrame(s, step);
    forall c | c in s.live ensures c == step.call {
      OneLive(s, c, step.call);
    }
  }

  /** A manual fold is the only write another live attempt can meet. */
  lemma WriteLeavesFresh(s: State, step: Step)
    requires Shape(s) && Fresh(s) && AttemptProtocol.Enabled(s, step) && Writes(step)
    ensures var t, m, read := DoWrite(s, step), Writer(s, step), ReadBy(s, step);
            forall c | c in t.live && (t.live[c].Signed? || t.live[c].Marking?) ::
              && c in s.live && t.live[c] == s.live[c] && step.RepairWrite?
              && t.live[c].mint.binding.attemptId !in Marks(read)
  {
    if step.RepairWrite? {
      WriteFrame(s, step);
    } else {
      OwnWriteLeavesNone(s, step);
    }
  }

  /** Every step but a write: new reads come from storage, a new voucher has a new id. */
  ghost predicate OtherEffect(s: State, t: State) {
    && t.records == s.records
    && (t.ledger == s.ledger || (|t.ledger| == |s.ledger| + 1 && t.ledger[..|s.ledger|] == s.ledger
                                 && Marks(PreOf(t.ledger[|s.ledger|].binding)) == {}))
    && (forall c | c in t.live ::
          || (c in s.live && ReadOf(t.live[c]) == ReadOf(s.live[c]))
          || (exists k :: ReadOf(t.live[c]) == Lookup(s.records, k))
          || Marks(ReadOf(t.live[c])) == {})
    && (forall k | k in t.repairs ::
          t.repairs[k].read == Lookup(s.records, k) || (k in s.repairs && t.repairs[k] == s.repairs[k]))
  }

  lemma ReadHasEffect(s: State, step: Step)
    requires AttemptProtocol.Enabled(s, step) && Reads(step)
    ensures OtherEffect(s, DoRead(s, step))
  {
    if !step.RepairRead? {
      assert ReadOf(Opened(s, step)) == Lookup(s.records, PhaseKey(Opened(s, step)));
    }
  }

  lemma OtherHasEffect(s: State, step: Step)
    requires Shape(s) && AttemptProtocol.Enabled(s, step) && !Writes(step)
    ensures OtherEffect(s, AttemptProtocol.Do(s, step))
  {
    if Reads(step) {
      ReadHasEffect(s, step);
    } else if step.Capture? {
      assert AttemptProtocol.Do(s, step).ledger[..|s.ledger|] == s.ledger;
    }
  }

  lemma OtherKnown(s: State, t: State)
    requires Known(s) && OtherEffect(s, t)
    ensures Known(t)
  {
    forall id | Minted(s.ledger, id) ensures Minted(t.ledger, id) {
      var i :| 0 <= i < |s.ledger| && s.ledger[i].binding.attemptId == id;
      assert t.ledger[i] == s.ledger[i];
    }
    forall i | 0 <= i < |t.ledger| ensures Marks(PreOf(t.ledger[i].binding)) == {} {
      assert i < |s.ledger| ==> t.ledger[i] == s.ledger[i];
    }
  }

  lemma CaptureIsFresh(s: State, step: Step)
    requires Known(s) && AttemptProtocol.Enabled(s, step) && step.Capture?
    ensures forall k | k in s.records :: step.id !in Marks(Some(s.records[k]))
    ensures forall k | k in s.repairs :: step.id !in Marks(s.repairs[k].read)
  {
    assert !Minted(s.ledger, step.id);
  }

  lemma WriteHasEffect(s: State, step: Step)
    requires Shape(s) && Known(s) && AttemptProtocol.Enabled(s, step) && Writes(step)
    ensures WriteEffect(s, DoWrite(s, step), Writer(s, step), ReadBy(s, step), !Folds(step))
  {
    WriteFrame(s, step);
    ContentMarks(s, step);
  }

  lemma WriterIsMinted(s: State, step: Step)
    requires Shape(s) && Known(s) && AttemptProtocol.Enabled(s, step) && Writes(step)
    ensures Minted(s.ledger, Writer(s, step).binding.attemptId)
    ensures forall id | id in Marks(ReadBy(s, step)) :: Minted(s.ledger, id)
  {
    LandKeepsShape(s, step);
    assert !step.RepairWrite? ==> ReadBy(s, step) == ReadOf(s.live[step.call]);
  }

  lemma FreshWrite(s: State, step: Step)
    requires Shape(s) && Known(s) && Fresh(s) && AttemptProtocol.Enabled(s, step) && Writes(step)
    ensures Known(DoWrite(s, step)) && Fresh(DoWrite(s, step))
  {
    var t, m, read := DoWrite(s, step), Writer(s, step), ReadBy(s, step);
    WriteHasEffect(s, step);
    WriterIsMinted(s, step);
    WriteKnown(s, t, m, read, !Folds(step));
    WriteLeavesFresh(s, step);
    WriteFresh(s, t, m, read, !Folds(step));
  }

  /** Who is about to hand a voucher over after such a step: someone who already was, or the new signer. */
  lemma OtherLive(s: State, step: Step)
    requires AttemptProtocol.Enabled(s, step) && !Writes(step)
    ensures var t := AttemptProtocol.Do(s, step);
            forall c | c in t.live && (t.live[c].Signed? || t.live[c].Marking?) ::
              || (c in s.live && (s.live[c].Signed? || s.live[c].Marking?) && s.live[c].mint == t.live[c].mint)
              || (step.Capture? && t.live[c].mint.binding.attemptId == step.id)
  {
  }

  lemma FreshOther(s: State, step: Step)
    requires Shape(s) && Known(s) && Fresh(s) && AttemptProtocol.Enabled(s, step) && !Writes(step)
    ensures Known(AttemptProtocol.Do(s, step)) && Fresh(AttemptProtocol.Do(s, step))
  {
    OtherHasEffect(s, step);
    OtherLive(s, step);
    if step.Capture? {
      CaptureIsFresh(s, step);
    }
    OtherKeepsFresh(s, AttemptProtocol.Do(s, step), if step.Capture? then step.id else "", step.Capture?);
  }

  lemma OtherKeepsFresh(s: State, t: State, id: AttemptId, captured: bool)
    requires Known(s) && Fresh(s) && OtherEffect(s, t)
    requires captured ==> (forall k | k in s.records :: id !in Marks(Some(s.records[k])))
                          && (forall k | k in s.repairs :: id !in Marks(s.repairs[k].read))
    requires forall c | c in t.live && (t.live[c].Signed? || t.live[c].Marking?) ::
               || (c in s.live && (s.live[c].Signed? || s.live[c].Marking?) && s.live[c].mint == t.live[c].mint)
               || (captured && t.live[c].mint.binding.attemptId == id)
    ensures Known(t) && Fresh(t)
  {
    OtherKnown(s, t);
  }

  lemma {:induction false} FreshRun(s: State, steps: seq<Step>)
    requires Shape(s) && Known(s) && Fresh(s) && AttemptProtocol.Runs(s, steps)
    ensures var t := AttemptProtocol.After(s, steps); Shape(t) && Known(t) && Fresh(t)
    decreases |steps|
  {
    if steps != [] {
      ShapeStep(s, steps[0]);
      if Writes(steps[0]) {
        FreshWrite(s, steps[0]);
      } else {
        FreshOther(s, steps[0]);
      }
      FreshRun(AttemptProtocol.Do(s, steps[0]), steps[1..]);
    }
  }

  // ---- The converse of AttemptSafety ---------------------------------------------------

  /** The record a manual fold stores when a submitted record slipped in after its read. */
  lemma FoldErases(s: State, key: string, id: AttemptId)
    requires Shape(s) && key in s.repairs && id !in Marks(s.repairs[key].read)
    requires Content(s, RepairWrite(key, Stored)).Some?
    ensures !Traces(Content(s, RepairWrite(key, Stored)).value, id)
  {
    var p := s.repairs[key];
    var b := BoundsOf(p.mint.binding).bounds;
    FoldKeepsForeignTraces(b, Accepted(p.receipt, b).value, p.receipt, p.read, id);
  }

  lemma SubmissionOpens(s: State, c: nat)
    requires Shape(s)
    requires AttemptProtocol.Enabled(s, MarkWrite(c, Stored)) && !Calm(s, MarkWrite(c, Stored))
    ensures var m := s.live[c].mint;
            var marked := DoWrite(s, MarkWrite(c, Stored));
            && marked.repairs == s.repairs && marked.ledger == s.ledger && OpenOn(marked, m.ordinal, m.key)
  {
    var m := s.live[c].mint;
    assert IsMint(s, m);
    WriteFrame(s, MarkWrite(c, Stored));
    assert m.ordinal in DoWrite(s, MarkWrite(c, Stored)).submitted;
  }

  /** A fold of another attempt leaves the voucher handed over and unresolved. */
  lemma FoldLeavesOpen(marked: State, key: string, i: nat)
    requires AttemptProtocol.Enabled(marked, RepairWrite(key, Stored)) && OpenOn(marked, i, key)
    requires marked.repairs[key].mint.ordinal != i
    ensures OpenOn(DoWrite(marked, RepairWrite(key, Stored)), i, key)
  {
    WriteFrame(marked, RepairWrite(key, Stored));
    assert DoWrite(marked, RepairWrite(key, Stored)).submitted == marked.submitted;
  }

  /** Every violation of the discipline loses the voucher as soon as the open fold is
      stored: in any state of any run, if a submitted record is stored inside another
      attempt's manual fold that the guards let through, storing that fold leaves the
      voucher handed over, not folded, not rejected, and without any mark. Together with
      AttemptSafety.EveryOpenVoucherIsTraced this makes the discipline exact. */
  lemma OverlapErasesTheMark(steps: seq<Step>, c: nat)
    requires AttemptProtocol.Runs(Init, steps)
    requires var s := AttemptProtocol.After(Init, steps);
             AttemptProtocol.Enabled(s, MarkWrite(c, Stored)) && !Calm(s, MarkWrite(c, Stored))
    ensures var s := AttemptProtocol.After(Init, steps);
            var m := s.live[c].mint;
            var marked := DoWrite(s, MarkWrite(c, Stored));
            && AttemptProtocol.Enabled(marked, RepairWrite(m.key, Stored))
            && var t := DoWrite(marked, RepairWrite(m.key, Stored));
               && OpenOn(t, m.ordinal, m.key) && m.key in t.records
               && !Traces(t.records[m.key], m.binding.attemptId)
  {
    FreshRun(Init, steps);
    var s := AttemptProtocol.After(Init, steps);
    var m := s.live[c].mint;
    ShapeWrite(s, MarkWrite(c, Stored));
    SubmissionOpens(s, c);
    var marked := DoWrite(s, MarkWrite(c, Stored));
    FoldLeavesOpen(marked, m.key, m.ordinal);
    FoldErases(marked, m.key, m.binding.attemptId);
    WriteFrame(marked, RepairWrite(m.key, Stored));
  }
}
