/** What a merchant can take, over every run of the protocol: a channel's cumulative is
    covered by the amounts of the settled attempts its record descends from, and its
    balance never understates the deposits they funded. */
module AttemptBounds {
  import opened Options
  import opened ChannelFold
  import opened Reconcile
  import opened BatchAttempt
  import opened AttemptProtocol

  // ---- Descent -----------------------------------------------------------------------

  /** The ordinal of the voucher with this attempt id. */
  function Find(ledger: seq<Mint>, id: AttemptId): (r: Option<nat>)
    ensures r.Some? ==> r.value < |ledger| && ledger[r.value].binding.attemptId == id
    decreases |ledger|
  {
    if ledger == [] then None
    else if ledger[|ledger| - 1].binding.attemptId == id then Some(|ledger| - 1)
    else Find(ledger[..|ledger| - 1], id)
  }

  lemma {:induction false} FindMint(ledger: seq<Mint>, i: nat)
    requires GoodLedger(ledger) && i < |ledger|
    ensures Find(ledger, ledger[i].binding.attemptId) == Some(i)
    decreases |ledger|
  {
    var front := ledger[..|ledger| - 1];
    if i < |front| {
      assert GoodLedger(front);
      FindMint(front, i);
      assert front[i] == ledger[i];
    }
  }

  /** A minted id keeps its ordinal when the ledger grows. */
  lemma {:induction false} FindPrefix(ledger: seq<Mint>, n: nat, id: AttemptId)
    requires GoodLedger(ledger) && n <= |ledger| && Find(ledger[..n], id).Some?
    ensures Find(ledger, id) == Find(ledger[..n], id)
  {
    FindMint(ledger, Find(ledger[..n], id).value);
  }

  /** The snapshot an attempt was signed from names the attempt it descends from. */
  function ParentStamp(m: Mint): Option<AttemptId> {
    StampOf(PreOf(m.binding))
  }

  function DepositOf(m: Mint): nat {
    if m.binding.deposit.Amount? && m.binding.deposit.value >= 0 then m.binding.deposit.value else 0
  }

  /** The amounts signed along the line of attempts a stamp descends from. */
  function SpendOf(ledger: seq<Mint>, stamp: Option<AttemptId>): nat
    decreases |ledger|
  {
    if stamp.None? || Find(ledger, stamp.value).None? then 0
    else
      var j := Find(ledger, stamp.value).value;
      ledger[j].amount + SpendOf(ledger[..j], ParentStamp(ledger[j]))
  }

  /** The deposits funded along that line. */
  function FundsOf(ledger: seq<Mint>, stamp: Option<AttemptId>): nat
    decreases |ledger|
  {
    if stamp.None? || Find(ledger, stamp.value).None? then 0
    else
      var j := Find(ledger, stamp.value).value;
      DepositOf(ledger[j]) + FundsOf(ledger[..j], ParentStamp(ledger[j]))
  }

  // ---- The invariant -----------------------------------------------------------------

  /** A record value that can occur on `key`. */
  ghost predicate Sound(ledger: seq<Mint>, folded: set<nat>, key: string, rec: Option<ChannelState>) {
    rec.Some? ==>
      if rec.value.stamp.None? then rec.value.cumulative.Missing? && rec.value.balance.Missing?
      else
        var j := Find(ledger, rec.value.stamp.value);
        && j.Some? && j.value in folded && ledger[j.value].key == key
        && rec.value.cumulative.Amount? && 0 <= rec.value.cumulative.value <= SpendOf(ledger, rec.value.stamp)
        && rec.value.balance.Amount? && rec.value.balance.value >= FundsOf(ledger, rec.value.stamp)
  }

  /** A voucher as the signer makes it from a sound snapshot. */
  ghost predicate SoundMint(ledger: seq<Mint>, folded: set<nat>, i: nat)
    requires i < |ledger|
  {
    var m := ledger[i];
    && Sound(ledger[..i], folded, m.key, PreOf(m.binding))
    && !m.binding.pre.OmittedKey?
    && CumulativeOf(PreOf(m.binding)).Some?
    && m.binding.ceiling == Amount(CumulativeOf(PreOf(m.binding)).value + m.amount)
    && (m.binding.deposit.Missing? || (m.binding.deposit.Amount? && m.binding.deposit.value >= 0))
  }

  /** What an open read holds. */
  function ReadOf(p: Phase): Option<ChannelState> {
    match p
    case Signing(_, snapshot) => snapshot
    case Signed(_) => None
    case Sent(_) => None
    case Marking(_, read) => read
    case Folding(_, read, _) => read
    case Clearing(_, read) => read
    case Quarantining(_, read, _) => read
  }

  ghost predicate AllSound(s: State) {
    && (forall i | 0 <= i < |s.ledger| :: SoundMint(s.ledger, s.folded, i))
    && (forall k | k in s.records :: Sound(s.ledger, s.folded, k, Some(s.records[k])))
    && (forall c | c in s.live :: Sound(s.ledger, s.folded, PhaseKey(s.live[c]), ReadOf(s.live[c])))
    && (forall k | k in s.repairs :: Sound(s.ledger, s.folded, k, s.repairs[k].read))
  }

  /** Soundness survives a longer ledger and more settled attempts. */
  lemma {:induction false} SoundGrows(ledger: seq<Mint>, n: nat, folded: set<nat>, more: set<nat>,
                                      key: string, rec: Option<ChannelState>)
    requires GoodLedger(ledger) && n <= |ledger| && folded <= more
    requires Sound(ledger[..n], folded, key, rec)
    ensures Sound(ledger, more, key, rec)
  {
    if rec.Some? && rec.value.stamp.Some? {
      var j := Find(ledger[..n], rec.value.stamp.value).value;
      FindPrefix(ledger, n, rec.value.stamp.value);
      assert ledger[..n][..j] == ledger[..j] && ledger[..n][j] == ledger[j];
    }
  }

  lemma MintsGrow(ledger: seq<Mint>, m: Mint, folded: set<nat>, more: set<nat>, i: nat)
    requires GoodLedger(ledger) && i < |ledger| && folded <= more && SoundMint(ledger, folded, i)
    ensures SoundMint(ledger + [m], more, i) && SoundMint(ledger, more, i)
  {
    assert (ledger + [m])[..i] == ledger[..i];
    assert ledger[..i][..i] == ledger[..i];
    assert GoodLedger(ledger[..i]);
    SoundGrows(ledger[..i], i, folded, more, ledger[i].key, PreOf(ledger[i].binding));
  }

  /** What an attempt may write over: what it read, or the snapshot it signed from. */
  lemma BaseSound(s: State, m: Mint, read: Option<ChannelState>)
    requires Shape(s) && AllSound(s) && IsMint(s, m) && Sound(s.ledger, s.folded, m.key, read)
    ensures Sound(s.ledger, s.folded, m.key, Some(Base(read, m.binding)))
    ensures Sound(s.ledger, s.folded, m.key, Some(MarkedPending(read, m.binding, None, "")))
    ensures forall reason :: Sound(s.ledger, s.folded, m.key,
        Some(MarkedQuarantined(read, m.binding, reason, None, "")))
  {
    assert SoundMint(s.ledger, s.folded, m.ordinal);
    SoundGrows(s.ledger, m.ordinal, s.folded, s.folded, m.key, PreOf(m.binding));
  }

  /** The heart of it: whatever receipt the merchant sends, the fold's output is sound. */
  lemma FoldSound(s: State, m: Mint, r: Receipt, read: Option<ChannelState>)
    requires Shape(s) && AllSound(s) && IsMint(s, m)
    ensures FoldOver(m, r, read).Some? ==> Sound(s.ledger, s.folded + {m.ordinal}, m.key, FoldOver(m, r, read))
  {
    if FoldOver(m, r, read).Some? {
      assert SoundMint(s.ledger, s.folded, m.ordinal);
      FindMint(s.ledger, m.ordinal);
      CommitBounds(m.binding, m.amount, r, read);
    }
  }

  /** More settled attempts make nothing unsound. */
  lemma SettlingKeepsSound(s: State, more: set<nat>)
    requires Shape(s) && AllSound(s) && s.folded <= more
    ensures AllSound(s.(folded := more))
  {
    var n := |s.ledger|;
    assert s.ledger[..n] == s.ledger;
    forall i | 0 <= i < n ensures SoundMint(s.ledger, more, i) {
      MintsGrow(s.ledger, s.ledger[i], s.folded, more, i);
    }
    forall k, rec | Sound(s.ledger, s.folded, k, rec) ensures Sound(s.ledger, more, k, rec) {
      SoundGrows(s.ledger, n, s.folded, more, k, rec);
    }
  }

  lemma CaptureSoundMints(s: State, m: Mint)
    requires GoodLedger(s.ledger) && GoodLedger(s.ledger + [m])
    requires forall i | 0 <= i < |s.ledger| :: SoundMint(s.ledger, s.folded, i)
    requires SoundMint(s.ledger + [m], s.folded, |s.ledger|)
    ensures forall i | 0 <= i < |s.ledger + [m]| :: SoundMint(s.ledger + [m], s.folded, i)
  {
    forall i | 0 <= i < |s.ledger| ensures SoundMint(s.ledger + [m], s.folded, i) {
      MintsGrow(s.ledger, m, s.folded, s.folded, i);
    }
  }

  lemma SoundAppended(s: State, m: Mint, key: string, rec: Option<ChannelState>)
    requires GoodLedger(s.ledger + [m]) && Sound(s.ledger, s.folded, key, rec)
    ensures Sound(s.ledger + [m], s.folded, key, rec)
  {
    assert (s.ledger + [m])[..|s.ledger|] == s.ledger;
    SoundGrows(s.ledger + [m], |s.ledger|, s.folded, s.folded, key, rec);
  }

  lemma AppendSound(s: State, t: State, c: nat, m: Mint)
    requires AllSound(s) && GoodLedger(s.ledger) && GoodLedger(s.ledger + [m])
    requires SoundMint(s.ledger + [m], s.folded, |s.ledger|)
    requires t == s.(live := s.live[c := Signed(m)], ledger := s.ledger + [m])
    ensures AllSound(t)
  {
    CaptureSoundMints(s, m);
    forall k | k in s.records ensures Sound(t.ledger, t.folded, k, Some(s.records[k])) {
      SoundAppended(s, m, k, Some(s.records[k]));
    }
    forall d | d in t.live ensures Sound(t.ledger, t.folded, PhaseKey(t.live[d]), ReadOf(t.live[d])) {
      if d != c {
        SoundAppended(s, m, PhaseKey(s.live[d]), ReadOf(s.live[d]));
      }
    }
    forall k | k in s.repairs ensures Sound(t.ledger, t.folded, k, s.repairs[k].read) {
      SoundAppended(s, m, k, s.repairs[k].read);
    }
  }

  lemma CaptureSound(s: State, c: nat, id: AttemptId, amount: nat, deposit: Numeral)
    requires Shape(s) && AllSound(s) && Enabled(s, Capture(c, id, amount, deposit))
    ensures AllSound(Do(s, Capture(c, id, amount, deposit)))
  {
    AppendSound(s, Do(s, Capture(c, id, amount, deposit)), c,
                MintFor(s, s.live[c].key, s.live[c].snapshot, id, amount, deposit));
  }

  lemma FoldContentSound(s: State, step: Step)
    requires Shape(s) && AllSound(s) && Enabled(s, step) && Folds(step) && Content(s, step).Some?
    ensures var m := Writer(s, step); Sound(s.ledger, s.folded + {m.ordinal}, m.key, Content(s, step))
  {
    LandKeepsShape(s, step);
    FoldSound(s, Writer(s, step), if step.RepairWrite? then s.repairs[step.key].receipt
        else s.live[step.call].receipt, ReadBy(s, step));
  }

  lemma MarkerContentSound(s: State, step: Step)
    requires Shape(s) && AllSound(s) && Enabled(s, step) && Writes(step) && !Folds(step) && Content(s, step).Some?
    ensures Sound(s.ledger, s.folded, Writer(s, step).key, Content(s, step))
  {
    LandKeepsShape(s, step);
    assert Sound(s.ledger, s.folded, PhaseKey(s.live[step.call]), ReadOf(s.live[step.call]));
    BaseSound(s, Writer(s, step), ReadBy(s, step));
  }

  lemma PutSound(s: State, key: string, rec: ChannelState)
    requires AllSound(s) && Sound(s.ledger, s.folded, key, Some(rec))
    ensures AllSound(s.(records := s.records[key := rec]))
  {
  }

  lemma LandedSound(s: State, step: Step)
    requires Shape(s) && AllSound(s) && Enabled(s, step) && Writes(step)
    requires Content(s, step).Some? && Landed(step.result)
    ensures AllSound(Land(s, step))
  {
    var m, rec := Writer(s, step), Content(s, step).value;
    if Folds(step) {
      FoldContentSound(s, step);
      SettlingKeepsSound(s, s.folded + {m.ordinal});
      PutSound(s.(folded := s.folded + {m.ordinal}), m.key, rec);
    } else {
      MarkerContentSound(s, step);
      PutSound(s, m.key, rec);
    }
  }

  /** Whatever a write stores is sound. */
  lemma LandSound(s: State, step: Step)
    requires Shape(s) && AllSound(s) && Enabled(s, step) && Writes(step)
    ensures AllSound(Land(s, step))
  {
    if Content(s, step).Some? && Landed(step.result) {
      LandedSound(s, step);
    }
  }

  lemma OpenSound(s: State, c: nat, p: Phase)
    requires AllSound(s) && Sound(s.ledger, s.folded, PhaseKey(p), ReadOf(p))
    ensures AllSound(s.(live := s.live[c := p]))
  {
  }

  lemma SoundRead(s: State, step: Step)
    requires Shape(s) && AllSound(s) && Enabled(s, step) && Reads(step)
    ensures AllSound(DoRead(s, step))
  {
    if !step.RepairRead? {
      var p := Opened(s, step);
      assert ReadOf(p) == Lookup(s.records, PhaseKey(p));
      OpenSound(s, step.call, p);
    }
  }

  lemma SoundWrite(s: State, step: Step)
    requires Shape(s) && AllSound(s) && Enabled(s, step) && Writes(step)
    ensures AllSound(DoWrite(s, step))
  {
    LandSound(s, step);
    if step.MarkWrite? || step.FoldWrite? {
      OpenSound(Land(s, step), step.call, Sent(Writer(s, step)));
    }
  }

  lemma SoundStep(s: State, step: Step)
    requires Shape(s) && AllSound(s) && Enabled(s, step)
    ensures AllSound(Do(s, step))
  {
    if Reads(step) {
      SoundRead(s, step);
    } else if Writes(step) {
      SoundWrite(s, step);
    } else if step.Capture? {
      CaptureSound(s, step.call, step.id, step.amount, step.deposit);
    }
  }

  lemma {:induction false} SoundRun(s: State, steps: seq<Step>)
    requires Shape(s) && AllSound(s) && Runs(s, steps)
    ensures Shape(After(s, steps)) && AllSound(After(s, steps))
    decreases |steps|
  {
    if steps != [] {
      ShapeStep(s, steps[0]);
      SoundStep(s, steps[0]);
      SoundRun(Do(s, steps[0]), steps[1..]);
    }
  }

  // ---- The results ---------------------------------------------------------------------

  /** The amounts of all settled attempts on a channel. */
  function SettledOn(ledger: seq<Mint>, folded: set<nat>, key: string): nat
    decreases |ledger|
  {
    if ledger == [] then 0
    else
      var n := |ledger| - 1;
      SettledOn(ledger[..n], folded, key)
      + (if n in folded && ledger[n].key == key then ledger[n].amount else 0)
  }

  lemma {:induction false} SettledPrefix(ledger: seq<Mint>, folded: set<nat>, key: string, n: nat)
    requires n <= |ledger|
    ensures SettledOn(ledger[..n], folded, key) <= SettledOn(ledger, folded, key)
    decreases |ledger| - n
  {
    if n < |ledger| {
      SettledPrefix(ledger, folded, key, n + 1);
      assert ledger[..n + 1][..n] == ledger[..n];
    } else {
      assert ledger[..n] == ledger;
    }
  }

  /** A line of descent visits distinct settled attempts of one channel. */
  lemma {:induction false} SpendWithinSettled(ledger: seq<Mint>, folded: set<nat>, key: string,
      rec: Option<ChannelState>)
    requires GoodLedger(ledger) && Sound(ledger, folded, key, rec)
    requires forall i | 0 <= i < |ledger| :: SoundMint(ledger, folded, i)
    ensures SpendOf(ledger, StampOf(rec)) <= SettledOn(ledger, folded, key)
    decreases |ledger|
  {
    if StampOf(rec).Some? {
      var j := Find(ledger, rec.value.stamp.value).value;
      var front := ledger[..j];
      assert SoundMint(ledger, folded, j);
      forall i | 0 <= i < j ensures SoundMint(front, folded, i) {
        assert SoundMint(ledger, folded, i);
        assert front[..i] == ledger[..i];
      }
      SpendWithinSettled(front, folded, key, PreOf(ledger[j].binding));
      SettledPrefix(ledger, folded, key, j + 1);
      assert ledger[..j + 1][..j] == front;
    }
  }

  /** Bounded spend over whole runs, with no discipline required of anyone: in every
      reachable state, crashes, failed writes, races and forged receipts included, what a
      channel record says the payer owes is covered by the amounts signed by the settled
      attempts it descends from, hence by all settled attempts on that channel; and its
      balance is at least the deposits those attempts funded. */
  lemma SpendIsBounded(steps: seq<Step>, key: string)
    requires Runs(Init, steps) && key in After(Init, steps).records
    ensures var s := After(Init, steps);
            var rec := s.records[key];
            && (rec.cumulative.Missing? || rec.cumulative.Amount?)
            && (rec.cumulative.Amount? ==>
                  0 <= rec.cumulative.value <= SpendOf(s.ledger, rec.stamp) <= SettledOn(s.ledger, s.folded, key))
            && (rec.stamp.Some? ==> rec.balance.Amount? && rec.balance.value >= FundsOf(s.ledger, rec.stamp))
  {
    SoundRun(Init, steps);
    var s := After(Init, steps);
    SpendWithinSettled(s.ledger, s.folded, key, Some(s.records[key]));
  }

  lemma SoundFoldIsBounded(s: State, m: Mint, r: Receipt, read: Option<ChannelState>)
    requires Shape(s) && AllSound(s) && IsMint(s, m) && FoldOver(m, r, read).Some?
    ensures FoldBounded(m, FoldOver(m, r, read).value)
  {
    assert SoundMint(s.ledger, s.folded, m.ordinal);
    CommitBounds(m.binding, m.amount, r, read);
  }

  /** Between the snapshot's cumulative and the ceiling, over a balance of snapshot plus deposit. */
  predicate FoldBounded(m: Mint, next: ChannelState) {
    && CumulativeOf(PreOf(m.binding)).Some? && BalanceOf(PreOf(m.binding)).Some?
    && next.cumulative.Amount? && next.balance.Amount?
    && CumulativeOf(PreOf(m.binding)).value <= next.cumulative.value
         <= CumulativeOf(PreOf(m.binding)).value + m.amount
    && next.balance.value >= BalanceOf(PreOf(m.binding)).value + DepositOf(m)
  }

  /** And per attempt: whatever an attempt's fold stores lies between its snapshot's
      cumulative and its ceiling, over a balance of snapshot plus deposit. */
  lemma EveryFoldIsBounded(steps: seq<Step>, m: Mint, r: Receipt, read: Option<ChannelState>)
    requires Runs(Init, steps) && IsMint(After(Init, steps), m) && FoldOver(m, r, read).Some?
    ensures FoldBounded(m, FoldOver(m, r, read).value)
  {
    SoundRun(Init, steps);
    SoundFoldIsBounded(After(Init, steps), m, r, read);
  }
}
