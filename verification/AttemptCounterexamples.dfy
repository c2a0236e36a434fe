/** Two concrete runs, every storage call in them succeeding, that show why the
    disciplines of AttemptSafety and AttemptReplay are needed. */
module AttemptCounterexamples {
  import opened Options
  import opened ChannelFold
  import opened Reconcile
  import opened BatchAttempt
  import opened AttemptProtocol
  import opened AttemptSafety
  import opened AttemptLease

  type Step = AttemptProtocol.Step

  // ---- Listed runs ---------------------------------------------------------------------

  lemma {:induction false} RunsSnoc(s: State, steps: seq<Step>, step: Step)
    requires AttemptProtocol.Runs(s, steps) && AttemptProtocol.Enabled(AttemptProtocol.After(s, steps), step)
    ensures AttemptProtocol.Runs(s, steps + [step])
    ensures AttemptProtocol.After(s, steps + [step]) == AttemptProtocol.Do(AttemptProtocol.After(s, steps), step)
    decreases |steps|
  {
    if steps == [] {
      assert (steps + [step])[1..] == [];
    } else {
      RunsSnoc(AttemptProtocol.Do(s, steps[0]), steps[1..], step);
      assert (steps + [step])[1..] == steps[1..] + [step];
    }
  }

  ghost predicate Reaches(steps: seq<Step>, s: State) {
    AttemptProtocol.Runs(Init, steps) && AttemptProtocol.After(Init, steps) == s
  }

  function Zeros(n: nat): (s: string)
    ensures |s| == n && forall i | 0 <= i < n :: s[i] == '0'
  {
    if n == 0 then "" else Zeros(n - 1) + "0"
  }

  const Channel: string := "0x" + Zeros(64)

  /** The first attempt's receipt: charged its whole ceiling of 5. */
  const Paid := Receipt(true, Some(Channel), Amount(5), Missing, Missing, Missing)

  const First := Mint(0, Channel, 5, Binding(Channel, Amount(5), Amount(50), "first", NoRecord))
  const Second := Mint(1, Channel, 5, Binding(Channel, Amount(10), Missing, "second", Taken(Settlement)))
  const Third := Mint(2, Channel, 5, Binding(Channel, Amount(10), Missing, "third", Taken(Settlement)))

  /** The record before any settlement, with the first attempt's submitted record. */
  const Submission := EmptyState.(pending := Some(PendingAttempt("first", First.binding, None, "")))

  /** The record its receipt settles. */
  const Settlement := ChannelState(Amount(5), Amount(50), Missing, None, None, None, None, None, None,
      Some("first"), None)

  const Resubmission := Settlement.(pending := Some(PendingAttempt("second", Second.binding, None, "")))

  const Took := Lease([Node(None, Held)], Some(0))
  const Freed := Lease([Node(None, AttemptLease.Settled(None))], None)
  const Retook := Lease([Node(None, AttemptLease.Settled(None)), Node(None, Held)], Some(1))

  /** The first attempt: signed, handed over, settled, and its lease released. */
  const FirstSteps: seq<Step> := [
    AttemptProtocol.Call, AttemptProtocol.Resume(0), SignRead(0, Channel), Capture(0, "first", 5, Amount(50)),
    MarkRead(0), MarkWrite(0, Stored), FoldRead(0, Paid), FoldWrite(0, Stored), AttemptProtocol.Resolve(0)]

  /** The second one signs from its record; someone reconciles the first receipt again,
      and the second is handed over between that call's `get` and `set`. Then a crash. */
  const SecondSteps: seq<Step> := [
    AttemptProtocol.Call, AttemptProtocol.Resume(1), SignRead(1, Channel), Capture(1, "second", 5, Missing),
    MarkRead(1), RepairRead(First, Paid), MarkWrite(1, Stored), RepairWrite(Channel, Stored), Crash]

  /** The restarted payer sees an unmarked record and signs again. */
  const ThirdSteps: seq<Step> := [AttemptProtocol.Call, AttemptProtocol.Resume(0), SignRead(0, Channel)]

  const AfterFirst := State(map[Channel := Settlement], Freed, map[], map[], [First], {0}, {0}, {})
  const AfterSecond := State(map[Channel := Settlement], Idle, map[], map[], [First, Second], {0, 1}, {0}, {})

  lemma ChannelIsCanonical()
    ensures Canonical(Channel) && Key(Channel) == Channel
  {
  }

  lemma FirstFolds()
    ensures FoldOver(First, Paid, Some(Submission)) == Some(Settlement)
    ensures FoldOver(First, Paid, Some(Settlement)) == Some(Settlement)
  {
  }

  /** One more step of a listed continuation, from `s` to `t`. */
  lemma Extend(before: seq<Step>, steps: seq<Step>, k: nat, s: State, t: State)
    requires k < |steps| && Reaches(before + steps[..k], s)
    requires AttemptProtocol.Enabled(s, steps[k]) && AttemptProtocol.Do(s, steps[k]) == t
    ensures Reaches(before + steps[..k + 1], t)
  {
    RunsSnoc(Init, before + steps[..k], steps[k]);
    assert before + steps[..k + 1] == before + steps[..k] + [steps[k]];
  }

  /** The first three steps of an attempt: taking an idle or drained lease, and the read. */
  function TakingAt(s: State, c: nat, lease: Lease, n: nat): State {
    if n == 0 then s
    else if n == 1 then s.(lease := Lease(s.lease.nodes + [Node(None, Waiting)], Some(c)))
    else if n == 2 then s.(lease := lease)
    else s.(lease := lease, live := map[c := Signing(Channel, Lookup(s.records, Channel))])
  }

  predicate Takeable(s: State, c: nat, lease: Lease) {
    && s.live == map[] && s.lease.tail.None? && c == |s.lease.nodes|
    && lease == Lease(s.lease.nodes + [Node(None, Held)], Some(c))
  }

  lemma Wakes(s: State, c: nat, lease: Lease)
    requires Takeable(s, c, lease)
    ensures var t := TakingAt(s, c, lease, 1);
            && AttemptProtocol.Enabled(t, AttemptProtocol.Resume(c))
            && AttemptProtocol.Do(t, AttemptProtocol.Resume(c)) == TakingAt(s, c, lease, 2)
  {
    assert TakingAt(s, c, lease, 1).lease.nodes[c := Node(None, Held)] == lease.nodes;
  }

  lemma ReadsChannel(s: State, c: nat, lease: Lease)
    requires Takeable(s, c, lease)
    ensures var t := TakingAt(s, c, lease, 2);
            && AttemptProtocol.Enabled(t, SignRead(c, Channel))
            && AttemptProtocol.Do(t, SignRead(c, Channel)) == TakingAt(s, c, lease, 3)
  {
    ChannelIsCanonical();
  }

  lemma Takes(before: seq<Step>, steps: seq<Step>, s: State, c: nat, lease: Lease)
    requires Reaches(before, s) && Takeable(s, c, lease)
    requires |steps| >= 3 && steps[0] == AttemptProtocol.Call && steps[1] == AttemptProtocol.Resume(c)
    requires steps[2] == SignRead(c, Channel)
    ensures Reaches(before + steps[..3], TakingAt(s, c, lease, 3))
  {
    assert before + steps[..0] == before;
    Extend(before, steps, 0, s, TakingAt(s, c, lease, 1));
    Wakes(s, c, lease);
    Extend(before, steps, 1, TakingAt(s, c, lease, 1), TakingAt(s, c, lease, 2));
    ReadsChannel(s, c, lease);
    Extend(before, steps, 2, TakingAt(s, c, lease, 2), TakingAt(s, c, lease, 3));
  }

  /** And signing `m` is the fourth. */
  predicate Signable(s: State, m: Mint) {
    var snapshot := Lookup(s.records, Channel);
    && !Blocked(snapshot) && CumulativeOf(snapshot).Some? && Unminted(s, m.binding.attemptId)
    && m.binding.attemptId != "" && (m.binding.deposit.Missing? || m.binding.deposit == Amount(50))
    && m == MintFor(s, Channel, snapshot, m.binding.attemptId, m.amount, m.binding.deposit)
  }

  lemma Signs(s: State, c: nat, lease: Lease, m: Mint)
    requires s.live == map[] && Signable(s, m)
    ensures var t := TakingAt(s, c, lease, 3);
            var step := Capture(c, m.binding.attemptId, m.amount, m.binding.deposit);
            && AttemptProtocol.Enabled(t, step)
            && AttemptProtocol.Do(t, step) == s.(lease := lease, live := map[c := Signed(m)],
                ledger := s.ledger + [m])
  {
  }

  lemma TakesAndSigns(before: seq<Step>, steps: seq<Step>, s: State, c: nat, lease: Lease, m: Mint)
    requires Reaches(before, s) && Takeable(s, c, lease) && Signable(s, m)
    requires |steps| >= 4 && steps[0] == AttemptProtocol.Call && steps[1] == AttemptProtocol.Resume(c)
    requires steps[2] == SignRead(c, Channel)
    requires steps[3] == Capture(c, m.binding.attemptId, m.amount, m.binding.deposit)
    ensures Reaches(before + steps[..4],
                s.(lease := lease, live := map[c := Signed(m)], ledger := s.ledger + [m]))
  {
    Takes(before, steps, s, c, lease);
    Signs(s, c, lease, m);
    Extend(before, steps, 3, TakingAt(s, c, lease, 3),
           s.(lease := lease, live := map[c := Signed(m)], ledger := s.ledger + [m]));
  }

  /** The six states of the first attempt after signing. */
  function FirstAt(n: nat): State {
    if n == 0 then FirstState(map[], Signed(First), {}, {})
    else if n == 1 then FirstState(map[], Marking(First, None), {}, {})
    else if n == 2 then FirstState(map[Channel := Submission], Sent(First), {0}, {})
    else if n == 3 then FirstState(map[Channel := Submission], Folding(First, Some(Submission), Paid), {0}, {})
    else if n == 4 then FirstState(map[Channel := Settlement], Sent(First), {0}, {0})
    else AfterFirst
  }

  function FirstState(records: map<string, ChannelState>, phase: Phase, submitted: set<nat>,
      folded: set<nat>): State {
    State(records, Took, map[0 := phase], map[], [First], submitted, folded, {})
  }

  lemma FirstMarks(n: nat)
    requires n < 2
    ensures AttemptProtocol.Enabled(FirstAt(n), FirstSteps[4 + n])
    ensures AttemptProtocol.Do(FirstAt(n), FirstSteps[4 + n]) == FirstAt(n + 1)
  {
  }

  lemma FirstOpensFold()
    ensures AttemptProtocol.Enabled(FirstAt(2), FirstSteps[6])
    ensures AttemptProtocol.Do(FirstAt(2), FirstSteps[6]) == FirstAt(3)
  {
    FirstFolds();
    assert AttemptProtocol.Do(FirstAt(2), FirstSteps[6]).live == FirstAt(3).live;
  }

  lemma FirstFoldLands()
    ensures AttemptProtocol.Enabled(FirstAt(3), FirstSteps[7])
    ensures AttemptProtocol.Do(FirstAt(3), FirstSteps[7]) == FirstAt(4)
  {
    FirstFolds();
    assert FirstSteps[7] == FoldWrite(0, Stored);
    assert Content(FirstAt(3), FoldWrite(0, Stored)) == Some(Settlement);
    var t := AttemptProtocol.Do(FirstAt(3), FirstSteps[7]);
    assert t.live == FirstAt(4).live && t.records == FirstAt(4).records && t.folded == {0};
  }

  lemma FirstReleases()
    ensures AttemptProtocol.Enabled(FirstAt(4), FirstSteps[8])
    ensures AttemptProtocol.Do(FirstAt(4), FirstSteps[8]) == FirstAt(5)
  {
    var t := AttemptProtocol.Do(FirstAt(4), FirstSteps[8]);
    assert t.live == map[] && t.lease.nodes == Freed.nodes;
  }

  lemma FirstMoves(n: nat)
    requires n < 5
    ensures AttemptProtocol.Enabled(FirstAt(n), FirstSteps[4 + n])
    ensures AttemptProtocol.Do(FirstAt(n), FirstSteps[4 + n]) == FirstAt(n + 1)
  {
    if n < 2 {
      FirstMarks(n);
    } else if n == 2 {
      FirstOpensFold();
    } else if n == 3 {
      FirstFoldLands();
    } else {
      FirstReleases();
    }
  }

  lemma FirstAdvances(n: nat)
    requires n < 5 && Reaches([] + FirstSteps[..4 + n], FirstAt(n))
    ensures Reaches([] + FirstSteps[..5 + n], FirstAt(n + 1))
  {
    FirstMoves(n);
    Extend([], FirstSteps, 4 + n, FirstAt(n), FirstAt(n + 1));
  }

  lemma FirstCanSign()
    ensures Takeable(Init, 0, Took) && Signable(Init, First)
  {
  }

  lemma FirstSigns()
    ensures Reaches([] + FirstSteps[..4], FirstAt(0))
  {
    FirstCanSign();
    TakesAndSigns([], FirstSteps, Init, 0, Took, First);
  }

  lemma FirstRun()
    ensures Reaches(FirstSteps, AfterFirst)
  {
    FirstSigns();
    for n := 0 to 5
      invariant Reaches([] + FirstSteps[..4 + n], FirstAt(n))
    {
      FirstAdvances(n);
    }
    assert [] + FirstSteps[..9] == FirstSteps;
  }

  /** The six states of the second attempt after signing: the submitted record lands
      inside the open fold (state 3), the fold wipes it (state 4), the process dies. */
  function SecondAt(n: nat): State {
    if n == 0 then SecondState(Settlement, Signed(Second), map[], {0})
    else if n == 1 then SecondState(Settlement, Marking(Second, Some(Settlement)), map[], {0})
    else if n == 2 then SecondState(Settlement, Marking(Second, Some(Settlement)), map[Channel := Reopened], {0})
    else if n == 3 then SecondState(Resubmission, Sent(Second), map[Channel := Reopened], {0, 1})
    else if n == 4 then SecondState(Settlement, Sent(Second), map[], {0, 1})
    else AfterSecond
  }

  const Reopened := Repair(First, Some(Settlement), Paid)

  function SecondState(rec: ChannelState, phase: Phase, repairs: map<string, Repair>, submitted: set<nat>): State {
    State(map[Channel := rec], Retook, map[1 := phase], repairs, [First, Second], submitted, {0}, {})
  }

  lemma SecondReads(n: nat)
    requires n < 2
    ensures AttemptProtocol.Enabled(SecondAt(n), SecondSteps[4 + n])
    ensures AttemptProtocol.Do(SecondAt(n), SecondSteps[4 + n]) == SecondAt(n + 1)
  {
    FirstFolds();
  }

  lemma SecondOverlaps()
    ensures AttemptProtocol.Enabled(SecondAt(2), SecondSteps[6])
    ensures AttemptProtocol.Do(SecondAt(2), SecondSteps[6]) == SecondAt(3)
  {
    var t := AttemptProtocol.Do(SecondAt(2), SecondSteps[6]);
    assert t.records == map[Channel := Resubmission] && t.live == map[1 := Sent(Second)];
  }

  lemma SecondIsErased(n: nat)
    requires 3 <= n < 5
    ensures AttemptProtocol.Enabled(SecondAt(n), SecondSteps[4 + n])
    ensures AttemptProtocol.Do(SecondAt(n), SecondSteps[4 + n]) == SecondAt(n + 1)
  {
    FirstFolds();
    var t := AttemptProtocol.Do(SecondAt(n), SecondSteps[4 + n]);
    assert t.records == SecondAt(n + 1).records;
    assert t.repairs == SecondAt(n + 1).repairs;
  }

  lemma SecondMoves(n: nat)
    requires n < 5
    ensures AttemptProtocol.Enabled(SecondAt(n), SecondSteps[4 + n])
    ensures AttemptProtocol.Do(SecondAt(n), SecondSteps[4 + n]) == SecondAt(n + 1)
  {
    if n < 2 {
      SecondReads(n);
    } else if n == 2 {
      SecondOverlaps();
    } else {
      SecondIsErased(n);
    }
  }

  lemma SecondAdvances(before: seq<Step>, n: nat)
    requires n < 5 && Reaches(before + SecondSteps[..4 + n], SecondAt(n))
    ensures Reaches(before + SecondSteps[..5 + n], SecondAt(n + 1))
  {
    SecondMoves(n);
    Extend(before, SecondSteps, 4 + n, SecondAt(n), SecondAt(n + 1));
  }

  lemma SecondCanSign()
    ensures Takeable(AfterFirst, 1, Retook) && Signable(AfterFirst, Second)
  {
  }

  lemma SecondSigns(before: seq<Step>)
    requires Reaches(before, AfterFirst)
    ensures Reaches(before + SecondSteps[..4], SecondAt(0))
  {
    SecondCanSign();
    TakesAndSigns(before, SecondSteps, AfterFirst, 1, Retook, Second);
  }

  lemma SecondRun(before: seq<Step>)
    requires Reaches(before, AfterFirst)
    ensures Reaches(before + SecondSteps, AfterSecond)
  {
    SecondSigns(before);
    for n := 0 to 5
      invariant Reaches(before + SecondSteps[..4 + n], SecondAt(n))
    {
      SecondAdvances(before, n);
    }
    assert before + SecondSteps[..9] == before + SecondSteps;
  }

  /** The documented exclusion is needed: without it there is a run, every storage call
      in it succeeding, that signs a third voucher while the merchant holds the second. */
  lemma UndisciplinedRunSignsTwice()
    ensures var steps := FirstSteps + SecondSteps + ThirdSteps;
            && AttemptProtocol.Runs(Init, steps)
            && var s := AttemptProtocol.After(Init, steps);
               && AttemptProtocol.Enabled(s, Capture(0, "third", 5, Missing))
               && s.live[0].key == Channel && OpenOn(s, 1, Channel)
  {
    FirstRun();
    SecondRun(FirstSteps);
    Takes(FirstSteps + SecondSteps, ThirdSteps, AfterSecond, 0, Took);
    assert ThirdSteps[..3] == ThirdSteps;
    Signs(AfterSecond, 0, Took, Third);
  }

  // ---- A rolled-back settlement ------------------------------------------------------------

  /** The second attempt again, this time re-prompted: rejected, record cleared, lease free. */
  const RejectedSteps: seq<Step> := [
    AttemptProtocol.Call, AttemptProtocol.Resume(1), SignRead(1, Channel), Capture(1, "second", 5, Missing),
    MarkRead(1), MarkWrite(1, Stored), RetryRead(1), RetryWrite(1, Stored)]

  /** A third attempt signs from the first's record; the merchant settles the second after
      all, and that receipt is reconciled between the third's `get` and `set`. */
  const StaleSteps: seq<Step> := [
    AttemptProtocol.Call, AttemptProtocol.Resume(2), SignRead(2, Channel), Capture(2, "third", 5, Missing),
    MarkRead(2), RepairRead(Second, PaidTwice), RepairWrite(Channel, Stored), MarkWrite(2, Stored)]

  const PaidTwice := Receipt(true, Some(Channel), Amount(10), Missing, Missing, Missing)

  const SecondSettlement := ChannelState(Amount(10), Amount(50), Missing, None, None, None, None, None, None,
      Some("second"), None)

  const Stale := Settlement.(pending := Some(PendingAttempt("third", Third.binding, None, "")))

  const TwoFreed := Lease([Node(None, AttemptLease.Settled(None)), Node(None, AttemptLease.Settled(None))], None)
  const ThirdHeld := Lease(TwoFreed.nodes + [Node(None, Held)], Some(2))

  const AfterRejected := State(map[Channel := Settlement], TwoFreed, map[], map[], [First, Second], {0, 1}, {0}, {1})

  function RejectedAt(n: nat): State {
    if n == 0 then SecondState(Settlement, Signed(Second), map[], {0})
    else if n == 1 then SecondState(Settlement, Marking(Second, Some(Settlement)), map[], {0})
    else if n == 2 then SecondState(Resubmission, Sent(Second), map[], {0, 1})
    else if n == 3 then SecondState(Resubmission, Clearing(Second, Some(Resubmission)), map[],
        {0, 1}).(rejected := {1})
    else AfterRejected
  }

  lemma RejectedOpensMark()
    ensures AttemptProtocol.Enabled(RejectedAt(0), RejectedSteps[4])
    ensures AttemptProtocol.Do(RejectedAt(0), RejectedSteps[4]) == RejectedAt(1)
  {
  }

  lemma RejectedMarks()
    ensures AttemptProtocol.Enabled(RejectedAt(1), RejectedSteps[5])
    ensures AttemptProtocol.Do(RejectedAt(1), RejectedSteps[5]) == RejectedAt(2)
  {
    assert AttemptProtocol.Do(RejectedAt(1), RejectedSteps[5]).records == RejectedAt(2).records;
  }

  lemma RejectedOpensClear()
    ensures AttemptProtocol.Enabled(RejectedAt(2), RejectedSteps[6])
    ensures AttemptProtocol.Do(RejectedAt(2), RejectedSteps[6]) == RejectedAt(3)
  {
  }

  lemma RejectedClears()
    ensures AttemptProtocol.Enabled(RejectedAt(3), RejectedSteps[7])
    ensures AttemptProtocol.Do(RejectedAt(3), RejectedSteps[7]) == RejectedAt(4)
  {
    var t := AttemptProtocol.Do(RejectedAt(3), RejectedSteps[7]);
    assert t.records == AfterRejected.records && t.lease.nodes == TwoFreed.nodes && t.live == map[];
  }

  lemma RejectedMoves(n: nat)
    requires n < 4
    ensures AttemptProtocol.Enabled(RejectedAt(n), RejectedSteps[4 + n])
    ensures AttemptProtocol.Do(RejectedAt(n), RejectedSteps[4 + n]) == RejectedAt(n + 1)
  {
    if n == 0 {
      RejectedOpensMark();
    } else if n == 1 {
      RejectedMarks();
    } else if n == 2 {
      RejectedOpensClear();
    } else {
      RejectedClears();
    }
  }

  lemma RejectedAdvances(before: seq<Step>, n: nat)
    requires n < 4 && Reaches(before + RejectedSteps[..4 + n], RejectedAt(n))
    ensures Reaches(before + RejectedSteps[..5 + n], RejectedAt(n + 1))
  {
    RejectedMoves(n);
    Extend(before, RejectedSteps, 4 + n, RejectedAt(n), RejectedAt(n + 1));
  }

  lemma RejectedSigns(before: seq<Step>)
    requires Reaches(before, AfterFirst)
    ensures Reaches(before + RejectedSteps[..4], RejectedAt(0))
  {
    SecondCanSign();
    TakesAndSigns(before, RejectedSteps, AfterFirst, 1, Retook, Second);
  }

  lemma RejectedRun(before: seq<Step>)
    requires Reaches(before, AfterFirst)
    ensures Reaches(before + RejectedSteps, AfterRejected)
  {
    RejectedSigns(before);
    for n := 0 to 4
      invariant Reaches(before + RejectedSteps[..4 + n], RejectedAt(n))
    {
      RejectedAdvances(before, n);
    }
    assert before + RejectedSteps[..8] == before + RejectedSteps;
  }

  function ThirdState(rec: ChannelState, phase: Phase, repairs: map<string, Repair>, submitted: set<nat>,
      folded: set<nat>): State {
    State(map[Channel := rec], ThirdHeld, map[2 := phase], repairs, [First, Second, Third], submitted, folded, {1})
  }

  const Recovered := Repair(Second, Some(Settlement), PaidTwice)

  function StaleAt(n: nat): State {
    if n == 0 then ThirdState(Settlement, Signed(Third), map[], {0, 1}, {0})
    else if n == 1 then ThirdState(Settlement, Marking(Third, Some(Settlement)), map[], {0, 1}, {0})
    else if n == 2 then ThirdState(Settlement, Marking(Third, Some(Settlement)), map[Channel := Recovered], {0, 1},
        {0})
    else if n == 3 then ThirdState(SecondSettlement, Marking(Third, Some(Settlement)), map[], {0, 1}, {0, 1})
    else ThirdState(Stale, Sent(Third), map[], {0, 1, 2}, {0, 1})
  }

  lemma SecondFolds()
    ensures FoldOver(Second, PaidTwice, Some(Settlement)) == Some(SecondSettlement)
    ensures FoldOver(First, Paid, Some(Stale)).Some?
  {
  }

  lemma StaleReads(n: nat)
    requires n < 2
    ensures AttemptProtocol.Enabled(StaleAt(n), StaleSteps[4 + n])
    ensures AttemptProtocol.Do(StaleAt(n), StaleSteps[4 + n]) == StaleAt(n + 1)
  {
    SecondFolds();
  }

  lemma StaleFold()
    ensures AttemptProtocol.Enabled(StaleAt(2), StaleSteps[6])
    ensures AttemptProtocol.Do(StaleAt(2), StaleSteps[6]) == StaleAt(3)
  {
    SecondFolds();
    var t := AttemptProtocol.Do(StaleAt(2), StaleSteps[6]);
    assert t.records == map[Channel := SecondSettlement] && t.repairs == map[] && t.folded == {0, 1};
  }

  lemma StaleWrite()
    ensures AttemptProtocol.Enabled(StaleAt(3), StaleSteps[7])
    ensures AttemptProtocol.Do(StaleAt(3), StaleSteps[7]) == StaleAt(4)
  {
    var t := AttemptProtocol.Do(StaleAt(3), StaleSteps[7]);
    assert t.records == map[Channel := Stale] && t.live == map[2 := Sent(Third)];
  }

  lemma StaleMoves(n: nat)
    requires n < 4
    ensures AttemptProtocol.Enabled(StaleAt(n), StaleSteps[4 + n])
    ensures AttemptProtocol.Do(StaleAt(n), StaleSteps[4 + n]) == StaleAt(n + 1)
  {
    if n < 2 {
      StaleReads(n);
    } else if n == 2 {
      StaleFold();
    } else {
      StaleWrite();
    }
  }

  lemma StaleAdvances(before: seq<Step>, n: nat)
    requires n < 4 && Reaches(before + StaleSteps[..4 + n], StaleAt(n))
    ensures Reaches(before + StaleSteps[..5 + n], StaleAt(n + 1))
  {
    StaleMoves(n);
    Extend(before, StaleSteps, 4 + n, StaleAt(n), StaleAt(n + 1));
  }

  lemma StaleCanSign()
    ensures Takeable(AfterRejected, 2, ThirdHeld) && Signable(AfterRejected, Third)
  {
  }

  lemma StaleSigns(before: seq<Step>)
    requires Reaches(before, AfterRejected)
    ensures Reaches(before + StaleSteps[..4], StaleAt(0))
  {
    StaleCanSign();
    TakesAndSigns(before, StaleSteps, AfterRejected, 2, ThirdHeld, Third);
  }

  lemma StaleRun(before: seq<Step>)
    requires Reaches(before, AfterRejected)
    ensures Reaches(before + StaleSteps, StaleAt(4))
  {
    StaleSigns(before);
    for n := 0 to 4
      invariant Reaches(before + StaleSteps[..4 + n], StaleAt(n))
    {
      StaleAdvances(before, n);
    }
    assert before + StaleSteps[..8] == before + StaleSteps;
  }

  /** Overlapping windows defeat replay protection: here the second attempt has folded,
      and yet the first one's receipt folds again over the stale record. */
  lemma OverlappingWindowsReopenReplay()
    ensures var steps := FirstSteps + RejectedSteps + StaleSteps;
            && AttemptProtocol.Runs(Init, steps)
            && var s := AttemptProtocol.After(Init, steps);
               && 1 in s.folded && |s.ledger| > 1 && s.ledger[0].key == s.ledger[1].key == Channel
               && FoldOver(s.ledger[0], Paid, Lookup(s.records, Channel)).Some?
  {
    FirstRun();
    RejectedRun(FirstSteps);
    StaleRun(FirstSteps + RejectedSteps);
    SecondFolds();
  }
}
