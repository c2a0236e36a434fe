/** Replay safety over whole runs: once an attempt has folded, no receipt can move its
    channel back under an earlier voucher. The one thing that defeats it is a manual fold
    that lands while an attempt stands between the `get` and the `set` of a marker write:
    without such a fold no run reopens an earlier voucher (ReplayChangesNothing), and after
    one the marker write always does (OvertakenWriteReopens). */
module AttemptReplay {
  import opened Options
  import opened ChannelFold
  import opened Reconcile
  import opened BatchAttempt
  import opened AttemptProtocol
  import opened AttemptBounds
  import AttemptLease

  // ---- The guard ------------------------------------------------------------------------

  /** An attempt between the `get` and the `set` of a marker write on this channel; a
      cleared record is stored only over the attempt's own. */
  predicate MarkerOpen(p: Phase, key: string) {
    && (p.Marking? || p.Quarantining? || (p.Clearing? && OwnPending(p.read, p.mint.binding.attemptId)))
    && p.mint.key == key
  }

  predicate WindowOpen(p: Phase, key: string) {
    MarkerOpen(p, key) || (p.Folding? && p.mint.key == key)
  }

  /** A landing manual fold makes its attempt the latest one settled, where it was not. */
  predicate Restamps(s: State, key: string, result: WriteResult) {
    && key in s.repairs && Landed(result)
    && var p := s.repairs[key];
       && FoldOver(p.mint, p.receipt, p.read).Some?
       && StampOf(Lookup(s.records, key)) != Some(p.mint.binding.attemptId)
  }

  /** A manual fold restamps the channel while a marker write on it is under way. */
  ghost predicate Overtakes(s: State, step: Step) {
    step.RepairWrite? && Restamps(s, step.key, step.result) && exists c | c in s.live :: MarkerOpen(s.live[c], step.key)
  }

  ghost predicate Orderly(s: State, steps: seq<Step>)
    requires Runs(s, steps)
    decreases |steps|
  {
    steps != [] ==> !Overtakes(s, steps[0]) && Orderly(Do(s, steps[0]), steps[1..])
  }

  // ---- The invariants --------------------------------------------------------------------

  /** Every open window read the stamp storage still holds, and folds of one channel
      exclude each other. */
  ghost predicate Current(s: State) {
    && (forall c, k | c in s.live && WindowOpen(s.live[c], k) ::
          StampOf(ReadOf(s.live[c])) == StampOf(Lookup(s.records, k)))
    && (forall k | k in s.repairs :: StampOf(s.repairs[k].read) == StampOf(Lookup(s.records, k)))
    && (forall c | c in s.live && s.live[c].Folding? :: s.live[c].mint.key !in s.repairs)
  }

  /** A voucher signed from a record belongs to a channel that still has one. */
  ghost predicate Grounded(s: State) {
    && (forall i | 0 <= i < |s.ledger| && PreOf(s.ledger[i].binding).Some? :: s.ledger[i].key in s.records)
    && (forall c | c in s.live && s.live[c].Signing? && s.live[c].snapshot.Some? :: s.live[c].key in s.records)
    && (forall c, k | c in s.live && WindowOpen(s.live[c], k) && ReadOf(s.live[c]).None? ::
          PreOf(s.live[c].mint.binding).None?)
  }

  /** The stored stamp was signed no earlier than any folded attempt of its channel. */
  ghost predicate Newest(s: State) {
    forall f | f in s.folded && f < |s.ledger| ::
      var key := s.ledger[f].key;
      && key in s.records && s.records[key].stamp.Some?
      && var j := Find(s.ledger, s.records[key].stamp.value);
         j.Some? && j.value >= f
  }

  ghost predicate Ordered(s: State) {
    Shape(s) && AllSound(s) && Grounded(s) && Current(s) && Newest(s)
  }

  // ---- Writes ---------------------------------------------------------------------------

  /** A fold stamps its own attempt; a marker write restores the stamp it read. */
  lemma MarkerStamp(s: State, step: Step)
    requires Grounded(s) && Enabled(s, step) && Writes(step) && Content(s, step).Some?
    ensures StampOf(Content(s, step))
            == if Folds(step) then Some(Writer(s, step).binding.attemptId) else StampOf(ReadBy(s, step))
  {
    if !Folds(step) {
      assert WindowOpen(s.live[step.call], Writer(s, step).key);
    }
  }

  lemma ReadIsCurrent(s: State, step: Step)
    requires Shape(s) && Current(s) && Enabled(s, step) && Writes(step) && Content(s, step).Some?
    ensures StampOf(ReadBy(s, step)) == StampOf(Lookup(s.records, Writer(s, step).key))
  {
    LandKeepsShape(s, step);
    if !step.RepairWrite? {
      assert WindowOpen(s.live[step.call], Writer(s, step).key);
    }
  }

  /** What a write leaves alone. */
  ghost predicate Spares(s: State, t: State, key: string) {
    && t.ledger == s.ledger
    && (forall k | k in s.records :: k in t.records)
    && (forall k | k != key :: Lookup(t.records, k) == Lookup(s.records, k))
    && (forall c | c in t.live :: t.live[c].Sent? || (c in s.live && t.live[c] == s.live[c]))
    && (forall k | k in t.repairs :: k in s.repairs && t.repairs[k] == s.repairs[k])
  }

  lemma SparedIsGrounded(s: State, t: State, key: string)
    requires Grounded(s) && Spares(s, t, key)
    ensures Grounded(t)
  {
  }

  /** A write keeps its channel's stamp or closes all its windows. */
  lemma SparedIsCurrent(s: State, t: State, key: string)
    requires Current(s) && Spares(s, t, key)
    requires || StampOf(Lookup(t.records, key)) == StampOf(Lookup(s.records, key))
             || (key !in t.repairs && forall c | c in t.live :: !WindowOpen(t.live[c], key))
    ensures Current(t)
  {
  }

  /** An attempt's own fold finds no other window on its channel. */
  lemma FoldCloses(s: State, step: Step)
    requires Shape(s) && Current(s) && Enabled(s, step) && step.FoldWrite?
    ensures var t, key := DoWrite(s, step), Writer(s, step).key;
            key !in t.repairs && forall c | c in t.live :: !WindowOpen(t.live[c], key)
  {
    forall c | c in s.live ensures c == step.call {
      OneLive(s, c, step.call);
    }
    WriteFrame(s, step);
  }

  /** A manual fold that overtakes no marker write finds no other window either. */
  lemma RepairCloses(s: State, step: Step)
    requires Shape(s) && Current(s) && Enabled(s, step) && step.RepairWrite?
    requires Restamps(s, step.key, step.result) && !Overtakes(s, step)
    ensures var t := DoWrite(s, step);
            step.key !in t.repairs && forall c | c in t.live :: !WindowOpen(t.live[c], step.key)
  {
    assert DoWrite(s, step).live == s.live;
  }

  lemma WriteKeepsStamp(s: State, step: Step)
    requires Shape(s) && Grounded(s) && Current(s) && Enabled(s, step) && Writes(step) && !step.FoldWrite?
    requires step.RepairWrite? ==> !Restamps(s, step.key, step.result)
    ensures var key := Writer(s, step).key;
            StampOf(Lookup(DoWrite(s, step).records, key)) == StampOf(Lookup(s.records, key))
  {
    WriteFrame(s, step);
    LandKeepsShape(s, step);
    if Content(s, step).Some? {
      MarkerStamp(s, step);
      ReadIsCurrent(s, step);
    }
  }

  lemma WriteSpares(s: State, step: Step)
    requires Grounded(s) && Enabled(s, step) && Writes(step)
    ensures Spares(s, DoWrite(s, step), Writer(s, step).key) && Grounded(DoWrite(s, step))
  {
    WriteFrame(s, step);
    SparedIsGrounded(s, DoWrite(s, step), Writer(s, step).key);
  }

  lemma WriteCurrent(s: State, step: Step)
    requires Shape(s) && Grounded(s) && Current(s) && Enabled(s, step) && Writes(step) && !Overtakes(s, step)
    ensures Current(DoWrite(s, step))
  {
    WriteSpares(s, step);
    if step.FoldWrite? {
      FoldCloses(s, step);
    } else if step.RepairWrite? && Restamps(s, step.key, step.result) {
      LandKeepsShape(s, step);
      RepairCloses(s, step);
    } else {
      WriteKeepsStamp(s, step);
    }
    SparedIsCurrent(s, DoWrite(s, step), Writer(s, step).key);
  }

  /** A fold is let through only by the stamp it descends from, so it settles a voucher no
      earlier than any settled before. */
  lemma FoldIsNewest(s: State, m: Mint, r: Receipt, read: Option<ChannelState>, f: nat)
    requires Shape(s) && AllSound(s) && Newest(s) && IsMint(s, m)
    requires StampOf(read) == StampOf(Lookup(s.records, m.key)) && FoldOver(m, r, read).Some?
    requires f in s.folded && f < |s.ledger| && s.ledger[f].key == m.key
    ensures f <= m.ordinal
  {
    var stamp := s.records[m.key].stamp.value;
    if stamp == m.binding.attemptId {
      FindMint(s.ledger, m.ordinal);
    } else {
      assert SoundMint(s.ledger, s.folded, m.ordinal);
      assert Some(stamp) == ParentStamp(m);
      FindPrefix(s.ledger, m.ordinal, stamp);
    }
  }

  lemma FoldedNewest(s: State, t: State, m: Mint, rec: ChannelState)
    requires GoodLedger(s.ledger) && Newest(s) && IsMint(s, m) && rec.stamp == Some(m.binding.attemptId)
    requires t.ledger == s.ledger && t.records == s.records[m.key := rec] && t.folded == s.folded + {m.ordinal}
    requires forall f | f in s.folded && f < |s.ledger| && s.ledger[f].key == m.key :: f <= m.ordinal
    ensures Newest(t)
  {
    FindMint(s.ledger, m.ordinal);
  }

  lemma MarkedNewest(s: State, t: State, key: string, rec: ChannelState)
    requires Newest(s) && rec.stamp == StampOf(Lookup(s.records, key))
    requires t.ledger == s.ledger && t.records == s.records[key := rec] && t.folded == s.folded
    ensures Newest(t)
  {
  }

  /** A fold is the newest on its channel. */
  lemma FoldContentIsNewest(s: State, step: Step)
    requires Shape(s) && AllSound(s) && Newest(s) && Current(s) && Enabled(s, step) && Folds(step)
    requires Content(s, step).Some?
    ensures forall f | f in s.folded && f < |s.ledger| && s.ledger[f].key == Writer(s, step).key ::
              f <= Writer(s, step).ordinal
  {
    LandKeepsShape(s, step);
    ReadIsCurrent(s, step);
    var m, read := Writer(s, step), ReadBy(s, step);
    var r := if step.RepairWrite? then s.repairs[step.key].receipt else s.live[step.call].receipt;
    forall f | f in s.folded && f < |s.ledger| && s.ledger[f].key == m.key ensures f <= m.ordinal {
      FoldIsNewest(s, m, r, read, f);
    }
  }

  lemma LandedFold(s: State, step: Step)
    requires Enabled(s, step) && Folds(step) && Content(s, step).Some? && Landed(step.result)
    ensures Content(s, step).value.stamp == Some(Writer(s, step).binding.attemptId)
    ensures Land(s, step) == s.(records := s.records[Writer(s, step).key := Content(s, step).value],
                                folded := s.folded + {Writer(s, step).ordinal})
  {
  }

  lemma LandedFoldNewest(s: State, step: Step)
    requires Shape(s) && Newest(s) && Enabled(s, step) && Folds(step)
    requires Content(s, step).Some? && Landed(step.result)
    requires forall f | f in s.folded && f < |s.ledger| && s.ledger[f].key == Writer(s, step).key ::
               f <= Writer(s, step).ordinal
    ensures Newest(Land(s, step))
  {
    LandedFold(s, step);
    LandKeepsShape(s, step);
    FoldedNewest(s, Land(s, step), Writer(s, step), Content(s, step).value);
  }

  lemma LandedMarkerNewest(s: State, step: Step)
    requires Shape(s) && Newest(s) && Current(s) && Grounded(s) && Enabled(s, step) && Writes(step) && !Folds(step)
    requires Content(s, step).Some? && Landed(step.result)
    ensures Newest(Land(s, step))
  {
    LandKeepsShape(s, step);
    MarkerStamp(s, step);
    ReadIsCurrent(s, step);
    MarkedNewest(s, Land(s, step), Writer(s, step).key, Content(s, step).value);
  }

  lemma SameNewest(s: State, t: State)
    requires Newest(s) && t.ledger == s.ledger && t.records == s.records && t.folded == s.folded
    ensures Newest(t)
  {
  }

  lemma WriteNewest(s: State, step: Step)
    requires Shape(s) && AllSound(s) && Newest(s) && Current(s) && Grounded(s) && Enabled(s, step) && Writes(step)
    ensures Newest(DoWrite(s, step))
  {
    if Content(s, step).Some? && Landed(step.result) {
      if Folds(step) {
        FoldContentIsNewest(s, step);
        LandedFoldNewest(s, step);
      } else {
        LandedMarkerNewest(s, step);
      }
    }
    SameNewest(Land(s, step), DoWrite(s, step));
  }

  // ---- Reads and the rest ----------------------------------------------------------------

  lemma OpenWindow(s: State, c: nat, p: Phase)
    requires Shape(s) && Grounded(s) && Current(s) && AttemptLease.Holds(s.lease, c)
    requires ReadOf(p) == Lookup(s.records, PhaseKey(p)) && (HasMint(p) ==> IsMint(s, p.mint))
    requires p.Folding? ==> p.mint.key !in s.repairs
    ensures var t := s.(live := s.live[c := p]); Grounded(t) && Current(t)
  {
  }

  lemma OpenRepair(s: State, m: Mint, r: Receipt)
    requires Grounded(s) && Current(s) && !FoldInProgress(s, m.key)
    ensures var t := s.(repairs := s.repairs[m.key := Repair(m, Lookup(s.records, m.key), r)]);
            Grounded(t) && Current(t)
  {
  }

  lemma ReadSettles(s: State, step: Step)
    requires Shape(s) && Grounded(s) && Current(s) && Enabled(s, step) && Reads(step)
    ensures Grounded(DoRead(s, step)) && Current(DoRead(s, step))
  {
    if step.RepairRead? {
      OpenRepair(s, step.mint, step.receipt);
    } else {
      var p := Opened(s, step);
      assert ReadOf(p) == Lookup(s.records, PhaseKey(p));
      OpenWindow(s, step.call, p);
    }
  }

  /** Nothing is read or written: windows may close and a voucher may be signed. */
  lemma Quiet(s: State, t: State)
    requires Grounded(s) && Current(s) && t.records == s.records
    requires forall c | c in t.live :: t.live[c].Signed? || (c in s.live && t.live[c] == s.live[c])
    requires forall k | k in t.repairs :: k in s.repairs && t.repairs[k] == s.repairs[k]
    requires forall m | m in t.ledger && PreOf(m.binding).Some? :: m in s.ledger || m.key in s.records
    ensures Grounded(t) && Current(t)
  {
  }

  lemma CaptureSettles(s: State, step: Step)
    requires Grounded(s) && Current(s) && Enabled(s, step) && step.Capture?
    ensures Grounded(Do(s, step)) && Current(Do(s, step))
  {
    Quiet(s, Do(s, step));
  }

  lemma OtherSettles(s: State, step: Step)
    requires Grounded(s) && Current(s) && Enabled(s, step) && !Reads(step) && !Writes(step)
    ensures Grounded(Do(s, step)) && Current(Do(s, step))
  {
    if step.Capture? {
      CaptureSettles(s, step);
    } else {
      Quiet(s, Do(s, step));
    }
  }

  lemma GrownNewest(s: State, m: Mint)
    requires GoodLedger(s.ledger + [m]) && Newest(s) && forall f | f in s.folded :: f < |s.ledger|
    ensures Newest(s.(ledger := s.ledger + [m]))
  {
    var ledger := s.ledger + [m];
    assert ledger[..|s.ledger|] == s.ledger;
    forall k | k in s.records && s.records[k].stamp.Some? && Find(s.ledger, s.records[k].stamp.value).Some?
      ensures Find(ledger, s.records[k].stamp.value) == Find(s.ledger, s.records[k].stamp.value)
    {
      FindPrefix(ledger, |s.ledger|, s.records[k].stamp.value);
    }
  }

  lemma OtherNewest(s: State, step: Step)
    requires Shape(s) && Newest(s) && Enabled(s, step) && !Writes(step) && Shape(Do(s, step))
    ensures Newest(Do(s, step))
  {
    var t := Do(s, step);
    if step.Capture? {
      var m := MintFor(s, s.live[step.call].key, s.live[step.call].snapshot, step.id, step.amount, step.deposit);
      GrownNewest(s, m);
      SameNewest(s.(ledger := s.ledger + [m]), t);
    } else {
      SameNewest(s, t);
    }
  }

  // ---- The result -----------------------------------------------------------------------

  lemma WriteOrdered(s: State, step: Step)
    requires Ordered(s) && Enabled(s, step) && Writes(step) && !Overtakes(s, step)
    ensures Grounded(Do(s, step)) && Current(Do(s, step)) && Newest(Do(s, step))
  {
    WriteNewest(s, step);
    WriteSpares(s, step);
    WriteCurrent(s, step);
  }

  lemma OtherOrdered(s: State, step: Step)
    requires Ordered(s) && Enabled(s, step) && !Writes(step) && Shape(Do(s, step))
    ensures Grounded(Do(s, step)) && Current(Do(s, step)) && Newest(Do(s, step))
  {
    OtherNewest(s, step);
    if Reads(step) {
      ReadSettles(s, step);
    } else {
      OtherSettles(s, step);
    }
  }

  lemma OrderedStep(s: State, step: Step)
    requires Ordered(s) && Enabled(s, step) && !Overtakes(s, step)
    ensures Ordered(Do(s, step))
  {
    ShapeStep(s, step);
    SoundStep(s, step);
    if Writes(step) {
      WriteOrdered(s, step);
    } else {
      OtherOrdered(s, step);
    }
  }

  lemma {:induction false} OrderedRun(s: State, steps: seq<Step>)
    requires Ordered(s) && Runs(s, steps) && Orderly(s, steps)
    ensures Ordered(After(s, steps))
    decreases |steps|
  {
    if steps != [] {
      OrderedStep(s, steps[0]);
      OrderedRun(Do(s, steps[0]), steps[1..]);
    }
  }

  lemma ReachedIsOrdered(steps: seq<Step>)
    requires Runs(Init, steps) && Orderly(Init, steps)
    ensures Ordered(After(Init, steps))
  {
    OrderedRun(Init, steps);
  }

  /** Once an attempt has folded on the channel, no receipt whatsoever folds under a
      voucher signed before it, even at an equal cumulative. */
  ghost predicate Closed(s: State, key: string) {
    forall b, older, r: Receipt |
      b in s.folded && 0 <= older < b < |s.ledger| && s.ledger[b].key == s.ledger[older].key == key ::
      FoldOver(s.ledger[older], r, Lookup(s.records, key)) == None
  }

  lemma OrderedIsClosed(s: State, key: string)
    requires Ordered(s)
    ensures Closed(s, key)
  {
    forall b, older, r: Receipt |
      b in s.folded && 0 <= older < b < |s.ledger| && s.ledger[b].key == s.ledger[older].key == key
      ensures FoldOver(s.ledger[older], r, Lookup(s.records, key)) == None
    {
      if FoldOver(s.ledger[older], r, Lookup(s.records, key)).Some? {
        FoldIsNewest(s, s.ledger[older], r, Lookup(s.records, key), b);
      }
    }
  }

  /** Replay safety: no run in which no manual fold overtakes a marker write ever reopens
      an earlier voucher on any channel. */
  lemma ReplayChangesNothing(steps: seq<Step>, key: string)
    requires Runs(Init, steps) && Orderly(Init, steps)
    ensures Closed(After(Init, steps), key)
  {
    ReachedIsOrdered(steps);
    OrderedIsClosed(After(Init, steps), key);
  }

  // ---- The converse ----------------------------------------------------------------------

  /** The marker write of an attempt on this channel lands. */
  ghost predicate LandsMarker(s: State, step: Step, key: string) {
    && Enabled(s, step) && Writes(step) && !Folds(step) && Landed(step.result)
    && MarkerOpen(s.live[step.call], key) && Content(s, step).Some?
  }

  /** A manual fold's write, then that of a marker on the same channel, lead to `u`. */
  ghost predicate FoldThenMarker(s: State, key: string, result: WriteResult, close: Step, u: State) {
    && key in s.repairs
    && var t := Do(s, RepairWrite(key, result));
       LandsMarker(t, close, key) && u == Do(t, close)
  }

  /** Every receipt the voucher can vouch for folds, but for one that would create a
      record for nothing. */
  ghost predicate Reopened(s: State, m: Mint) {
    forall r: Receipt | Vouches(m, r) && (StampOf(Lookup(s.records, m.key)).Some?
        || Accepted(r, BoundsOf(m.binding).bounds).value > 0 || BoundsOf(m.binding).bounds.deposit != 0) ::
      FoldOver(m, r, Lookup(s.records, m.key)).Some?
  }

  lemma OvertakerLands(s: State, key: string, result: WriteResult)
    requires Ordered(s) && Restamps(s, key, result)
    ensures var t := Do(s, RepairWrite(key, result));
            && Shape(t) && AllSound(t) && Grounded(t) && t.ledger == s.ledger && t.live == s.live
            && s.repairs[key].mint.ordinal in t.folded
  {
    ShapeStep(s, RepairWrite(key, result));
    SoundStep(s, RepairWrite(key, result));
    WriteSpares(s, RepairWrite(key, result));
  }

  /** The marker write restores the stamp it read before. */
  lemma MarkerRestores(t: State, close: Step, key: string)
    requires Grounded(t) && LandsMarker(t, close, key)
    ensures var u := Do(t, close);
            && u.ledger == t.ledger && t.folded <= u.folded
            && key in u.records && u.records[key].stamp == StampOf(ReadOf(t.live[close.call]))
  {
    MarkerStamp(t, close);
    WriteFrame(t, close);
  }

  /** The stamp a channel holds names a settled voucher, earlier than any that replaces it. */
  lemma OvertakerIsLater(s: State, p: Repair, stamp: AttemptId)
    requires Shape(s) && AllSound(s) && Newest(s) && IsMint(s, p.mint)
    requires FoldOver(p.mint, p.receipt, p.read).Some? && stamp != p.mint.binding.attemptId
    requires StampOf(Lookup(s.records, p.mint.key)) == StampOf(p.read) == Some(stamp)
    ensures var a := Find(s.ledger, stamp);
            a.Some? && a.value < p.mint.ordinal && s.ledger[a.value].key == p.mint.key
  {
    assert Sound(s.ledger, s.folded, p.mint.key, Some(s.records[p.mint.key]));
    FoldIsNewest(s, p.mint, p.receipt, p.read, Find(s.ledger, stamp).value);
  }

  /** Every voucher of a channel without a stamp reopens, and so does the one a stamp names. */
  lemma StampReopens(u: State, m: Mint)
    requires AllSound(u) && m.key in u.records
    requires u.records[m.key].stamp.None? || u.records[m.key].stamp == Some(m.binding.attemptId)
    ensures Reopened(u, m)
  {
    assert Sound(u.ledger, u.folded, m.key, Some(u.records[m.key]));
  }

  /** `m` is settled history on its channel, yet the record is back at the stamp before it.
      If that names an attempt, it is an earlier one and reopens; if not, all do. */
  ghost predicate Forgets(u: State, m: Mint, stamp: Option<AttemptId>) {
    && IsMint(u, m) && m.ordinal in u.folded && m.key in u.records && u.records[m.key].stamp == stamp
    && (stamp.None? ==> forall other | other in u.ledger && other.key == m.key :: Reopened(u, other))
    && (stamp.Some? ==>
          var a := Find(u.ledger, stamp.value);
          && a.Some? && a.value < m.ordinal && u.ledger[a.value].key == m.key
          && u.ledger[a.value].binding.attemptId == stamp.value && Reopened(u, u.ledger[a.value]))
  }

  lemma BackIsForgotten(s: State, u: State, p: Repair)
    requires Ordered(s) && p.mint.key in s.repairs && s.repairs[p.mint.key] == p
    requires FoldOver(p.mint, p.receipt, p.read).Some?
    requires StampOf(Lookup(s.records, p.mint.key)) != Some(p.mint.binding.attemptId)
    requires AllSound(u) && u.ledger == s.ledger && p.mint.ordinal in u.folded && p.mint.key in u.records
    requires u.records[p.mint.key].stamp == StampOf(Lookup(s.records, p.mint.key))
    ensures Forgets(u, p.mint, StampOf(Lookup(s.records, p.mint.key)))
  {
    var stamp := StampOf(Lookup(s.records, p.mint.key));
    if stamp.Some? {
      OvertakerIsLater(s, p, stamp.value);
      FindMint(u.ledger, Find(u.ledger, stamp.value).value);
      StampReopens(u, u.ledger[Find(u.ledger, stamp.value).value]);
    } else {
      forall m | m in u.ledger && m.key == p.mint.key ensures Reopened(u, m) {
        StampReopens(u, m);
      }
    }
  }

  lemma OvertakenWriteForgets(s: State, key: string, result: WriteResult, close: Step, u: State)
    requires Ordered(s) && FoldThenMarker(s, key, result, close, u) && Restamps(s, key, result)
    ensures Forgets(u, s.repairs[key].mint, StampOf(Lookup(s.records, key))) && Shape(u) && AllSound(u)
  {
    var t := Do(s, RepairWrite(key, result));
    OvertakerLands(s, key, result);
    MarkerRestores(t, close, key);
    ShapeStep(t, close);
    SoundStep(t, close);
    assert WindowOpen(s.live[close.call], key);
    BackIsForgotten(s, u, s.repairs[key]);
  }

  /** Any manual fold that overtakes a marker write is forgotten as soon as that write
      lands, in any run. */
  lemma OvertakenWriteReopens(steps: seq<Step>, key: string, result: WriteResult, close: Step, u: State)
    requires Runs(Init, steps) && Orderly(Init, steps)
    requires FoldThenMarker(After(Init, steps), key, result, close, u) && Restamps(After(Init, steps), key, result)
    ensures var s := After(Init, steps);
            Forgets(u, s.repairs[key].mint, StampOf(Lookup(s.records, key)))
  {
    ReachedIsOrdered(steps);
    OvertakenWriteForgets(After(Init, steps), key, result, close, u);
  }

  /** The receipt that charges the whole ceiling. */
  function FullCharge(m: Mint): Receipt {
    Receipt(true, Some(m.binding.channelId), m.binding.ceiling, Missing, Missing, Missing)
  }

  lemma FullChargeIsVouched(s: State, m: Mint)
    requires Shape(s) && AllSound(s) && IsMint(s, m)
    ensures Vouches(m, FullCharge(m))
  {
    assert SoundMint(s.ledger, s.folded, m.ordinal);
  }

  lemma ForgettingIsNotClosed(u: State, m: Mint, stamp: AttemptId)
    requires Shape(u) && AllSound(u) && Forgets(u, m, Some(stamp))
    ensures !Closed(u, m.key)
  {
    var a := u.ledger[Find(u.ledger, stamp).value];
    FullChargeIsVouched(u, a);
    assert FoldOver(a, FullCharge(a), Lookup(u.records, m.key)).Some?;
  }

  lemma RestampedReopens(s: State, key: string, result: WriteResult, close: Step, u: State)
    requires Ordered(s) && FoldThenMarker(s, key, result, close, u) && Restamps(s, key, result)
    requires StampOf(Lookup(s.records, key)).Some?
    ensures !Closed(u, key)
  {
    OvertakenWriteForgets(s, key, result, close, u);
    assert s.repairs[key].mint.key == key;
    ForgettingIsNotClosed(u, s.repairs[key].mint, StampOf(Lookup(s.records, key)).value);
  }

  lemma KeptStampCloses(s: State, key: string, result: WriteResult, close: Step, u: State)
    requires Ordered(s) && FoldThenMarker(s, key, result, close, u) && !Restamps(s, key, result)
    ensures Closed(u, key)
  {
    OrderedStep(s, RepairWrite(key, result));
    OrderedStep(Do(s, RepairWrite(key, result)), close);
    OrderedIsClosed(u, key);
  }

  lemma ClosedExactly(s: State, key: string, result: WriteResult, close: Step, u: State)
    requires Ordered(s) && FoldThenMarker(s, key, result, close, u) && StampOf(Lookup(s.records, key)).Some?
    ensures Closed(u, key) <==> !Restamps(s, key, result)
  {
    if Restamps(s, key, result) {
      RestampedReopens(s, key, result, close, u);
    } else {
      KeptStampCloses(s, key, result, close, u);
    }
  }

  /** Exactly: on a channel that has settled, a manual fold followed by the landing marker
      write it found under way leaves earlier vouchers closed if and only if the fold did
      not restamp the record. */
  lemma ReplayIsClosedExactly(steps: seq<Step>, key: string, result: WriteResult, close: Step, u: State)
    requires Runs(Init, steps) && Orderly(Init, steps) && StampOf(Lookup(After(Init, steps).records, key)).Some?
    requires FoldThenMarker(After(Init, steps), key, result, close, u)
    ensures Closed(u, key) <==> !Restamps(After(Init, steps), key, result)
  {
    ReachedIsOrdered(steps);
    ClosedExactly(After(Init, steps), key, result, close, u);
  }

  // ---- The same for a whole reconcile call -----------------------------------------------

  /** Every voucher names the channel whose key it was signed on. */
  ghost predicate Keyed(s: State) {
    && (forall i | 0 <= i < |s.ledger| :: Key(s.ledger[i].binding.channelId) == s.ledger[i].key)
    && (forall c | c in s.live && s.live[c].Signing? :: Key(s.live[c].key) == s.live[c].key)
  }

  lemma KeyedStep(s: State, step: Step)
    requires Keyed(s) && Enabled(s, step)
    ensures Keyed(Do(s, step))
  {
    if Writes(step) {
      WriteFrame(s, step);
    }
  }

  lemma {:induction false} KeyedRun(s: State, steps: seq<Step>)
    requires Keyed(s) && Runs(s, steps)
    ensures Keyed(After(s, steps))
    decreases |steps|
  {
    if steps != [] {
      KeyedStep(s, steps[0]);
      KeyedRun(Do(s, steps[0]), steps[1..]);
    }
  }

  lemma {:induction false} ClosedEntriesWriteNothing(
    records: map<string, ChannelState>, entries: seq<Entry>, faults: seq<Fault>)
    requires WellFormed(entries) && |entries| <= |faults|
    requires forall i | 0 <= i < |entries| ::
               Commit(Lookup(records, Key(entries[i].id)), entries[i].bounds, entries[i].cumulative,
                   entries[i].receipt).None?
    ensures ApplyAll(records, entries, faults).records == records && ApplyAll(records, entries, faults).applied == []
  {
    if entries != [] {
      ClosedEntriesWriteNothing(records, entries[..|entries| - 1], faults);
    }
  }

  /** Reconciling any receipts at all under the binding of an earlier attempt leaves the
      channel's record, and every other, as it is, and reports nothing applied. */
  lemma ReplayedCallWritesNothing(steps: seq<Step>, b: nat, older: nat, receipts: seq<Receipt>, faults: seq<Fault>)
    requires Runs(Init, steps) && Orderly(Init, steps) && |receipts| <= |faults|
    requires var s := After(Init, steps);
             && b in s.folded && b < |s.ledger| && older < b && s.ledger[older].key == s.ledger[b].key
             && AllowedBy([s.ledger[older].binding]).Allowed?
    ensures var s := After(Init, steps);
            var entries := Relevant(receipts, AllowedBy([s.ledger[older].binding]).bounds);
            && WellFormed(entries) && |entries| <= |faults|
            && ApplyAll(s.records, entries, faults).records == s.records
                && ApplyAll(s.records, entries, faults).applied == []
  {
    var s := After(Init, steps);
    var m := s.ledger[older];
    var allowed := AllowedBy([m.binding]).bounds;
    var entries := Relevant(receipts, allowed);
    KeyedRun(Init, steps);
    ReplayChangesNothing(steps, m.key);
    RelevantFacts(receipts, allowed);
    forall i | 0 <= i < |entries|
      ensures Commit(Lookup(s.records, Key(entries[i].id)), entries[i].bounds, entries[i].cumulative,
          entries[i].receipt).None?
    {
      assert FoldOver(m, entries[i].receipt, Lookup(s.records, m.key)) == None;
    }
    ClosedEntriesWriteNothing(s.records, entries, faults);
  }
}
