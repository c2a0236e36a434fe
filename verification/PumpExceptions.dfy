/** When the streaming pump converges, in terms of what the executor and the store did, and
    the two ways a turn can still lose something (transport/request-handler.ts). */
module PumpExceptions {
  import opened Options
  import opened Artifacts
  import opened Tasks
  import opened StreamFold
  import opened Executors
  import opened PumpProtocol
  import Machine = PumpMachine

  // ---- Convergence, from the run alone -----------------------------------------------------

  predicate IsFault(a: Action) {
    a.PumpStep? && IsFaulty(a.step)
  }

  function Faults(actions: seq<Action>): nat {
    if actions == [] then 0 else (if IsFault(actions[0]) then 1 else 0) + Faults(actions[1..])
  }

  predicate Throws(actions: seq<Action>) {
    exists a | a in actions :: a.PumpStep? && a.step.Throw?
  }

  predicate IsFaulty(step: Machine.Step) {
    (step.Write? && step.outcome.Faulty?) || (step.ReadLatest? && !step.readable)
  }

  lemma PublishCounts(stored: Task, p: Machine.Pump)
    requires p.pc.Publishing?
    ensures var q := Machine.DoPublish(stored, p).pump; q.faults == p.faults && q.threw == p.threw
  {
  }

  lemma StepCounts(prior: seq<Artifact>, stored: Task, p: Machine.Pump, step: Machine.Step)
    requires Machine.Enabled(p, step)
    ensures var q := Machine.Do(prior, stored, p, step).pump;
            && q.faults <= p.faults + (if IsFaulty(step) then 1 else 0)
            && (!step.Throw? ==> q.threw == p.threw)
  {
    if step.Publish? {
      PublishCounts(stored, p);
    }
  }

  lemma OneAction(s: System, a: Action)
    requires Enabled(s, a)
    ensures Do(s, a).pump.faults <= s.pump.faults + (if IsFault(a) then 1 else 0)
    ensures !(a.PumpStep? && a.step.Throw?) ==> Do(s, a).pump.threw == s.pump.threw
  {
    if a.PumpStep? {
      StepCounts(s.prior, s.stored, s.pump, a.step);
    }
  }

  lemma {:induction false} CountFaults(s: System, actions: seq<Action>)
    requires Runs(s, actions)
    ensures After(s, actions).pump.faults <= s.pump.faults + Faults(actions)
    ensures !Throws(actions) ==> After(s, actions).pump.threw == s.pump.threw
    decreases |actions|
  {
    if actions != [] {
      OneAction(s, actions[0]);
      CountFaults(Do(s, actions[0]), actions[1..]);
      if Throws(actions[1..]) {
        var a :| a in actions[1..] && a.PumpStep? && a.step.Throw?;
        assert a in actions;
      }
    }
  }

  /** With an executor whose generator never throws, a returned pump leaves a settled task
      although any one of its store calls failed; every resubscriber is answered. */
  lemma ConvergesWithoutThrow(task: Task, actions: seq<Action>)
    requires Runs(Begin(task), actions) && !Throws(actions) && Faults(actions) <= 1
    ensures var s := After(Begin(task), actions);
            && (s.pump.pc.Returned? ==> IsSettled(s.stored.status.state))
            && (forall i | 0 <= i < |s.readers| :: !s.readers[i].GaveUp?)
  {
    CountFaults(Begin(task), actions);
    Converges(task, actions);
    var s := After(Begin(task), actions);
    forall i | 0 <= i < |s.readers| ensures !s.readers[i].GaveUp? {
      ResubscriberSeesOneEnding(task, actions, i);
    }
  }

  /** The default executor yields nothing improper, nothing after the status its turn stops
      at, and always stops. */
  lemma DefaultExecutorStops(task: Task, version: nat, run: AgentRun)
    ensures var es := Emissions(task, version, run);
            && es != []
            && (forall e | e in es :: Machine.Proper(e))
            && (forall i | 0 <= i < |es| :: es[i].StatusUpdate? && EndsInteraction(es[i].event) <==> i == |es| - 1)
  {
    if run.Session? {
      StreamedStops(task, version, run.events);
    }
  }

  predicate Stops(es: seq<Emission>, stopped: bool) {
    && es != []
    && (forall e | e in es :: Machine.Proper(e))
    && (forall i | 0 <= i < |es| :: es[i].StatusUpdate? && EndsInteraction(es[i].event) <==> stopped && i == |es| - 1)
  }

  lemma {:induction false} StreamedStops(task: Task, version: nat, events: seq<AgentEvent>)
    ensures Stops(Streamed(task, version, events).emitted, Streamed(task, version, events).progress.Stopped?)
  {
    if events != [] {
      var last := |events| - 1;
      StreamedStops(task, version, events[..last]);
    }
  }

  // ---- The pump always returns ----------------------------------------------------------------

  /** Steps left once the generator has ended. */
  function Left(pc: Machine.Pc): nat {
    match pc
    case Loop => 20
    case Drained => 19
    case Writing(job) =>
      (match job case ForRetry(_, _) => 13 case ForFailure => 9 case ForAbort => 5 case _ => 18)
    case Recovering(job) =>
      (match job case ForRetry(_, _) => 12 case ForFailure => 8 case ForAbort => 4 case _ => 17)
    case Publishing(job, _) =>
      (match job case ForRetry(_, _) => 11 case ForFailure => 7 case ForAbort => 3 case _ => 16)
    case AtRetry => 15
    case AtFailure => 10
    case AtAbort => 6
    case AtClose => 2
    case Returned => 0
  }

  lemma WriteReturns(stored: Task, p: Machine.Pump, outcome: Machine.Outcome)
    requires p.pc.Writing?
    ensures Left(Machine.DoWrite(stored, p, outcome).pump.pc) < Left(p.pc)
  {
  }

  lemma StageReturns(stored: Task, p: Machine.Pump)
    requires Machine.Enabled(p, Machine.Stage)
    ensures Left(Machine.DoStage(stored, p).pump.pc) < Left(p.pc)
  {
  }

  lemma PublishReturns(stored: Task, p: Machine.Pump)
    requires p.pc.Publishing?
    ensures var q := Machine.DoPublish(stored, p).pump; Left(q.pc) < Left(p.pc) || (q.pc.Loop? && p.pc.job.ForEvent?)
  {
  }

  /** Only the loop depends on the executor: after it, each of the pump's steps brings its
      return nearer, and it is never without a step. */
  lemma PumpReturns(prior: seq<Artifact>, stored: Task, p: Machine.Pump, step: Machine.Step)
    requires !p.pc.Loop? && Machine.Enabled(p, step)
    ensures var q := Machine.Do(prior, stored, p, step).pump;
            Left(q.pc) < Left(p.pc) || (q.pc.Loop? && p.pc.Publishing? && p.pc.job.ForEvent?)
  {
    match step
    case Publish => PublishReturns(stored, p);
    case Write(outcome) => WriteReturns(stored, p, outcome);
    case Recover(readable) =>
    case Stage => StageReturns(stored, p);
    case ReadLatest(_) =>
    case Emit(_) =>
    case Exhaust =>
    case Throw(_) =>
  }

  lemma PumpNeverStuck(s: System)
    ensures s.pump.pc.Returned? || exists step :: Machine.Enabled(s.pump, step)
  {
    if s.pump.pc.Loop? {
      assert Machine.Enabled(s.pump, Machine.Exhaust);
    } else if s.pump.pc.Drained? {
      assert Machine.Enabled(s.pump, Machine.ReadLatest(true));
    } else if s.pump.pc.Writing? {
      assert Machine.Enabled(s.pump, Machine.Write(Machine.Healthy));
    } else if s.pump.pc.Recovering? {
      assert Machine.Enabled(s.pump, Machine.Recover(true));
    } else if s.pump.pc.Publishing? {
      assert Machine.Enabled(s.pump, Machine.Publish);
    } else if !s.pump.pc.Returned? {
      assert Machine.Enabled(s.pump, Machine.Stage);
    }
  }

  // ---- A thrown generator and one lost write strand the task ---------------------------------

  function P(step: Machine.Step): Action {
    PumpStep(step)
  }

  const LostWrite := P(Machine.Write(Machine.Faulty(false)))

  /** The generator throws and the write of its failure is lost. */
  function Stranding(error: Option<string>): seq<Action> {
    [P(Machine.Throw(error)), P(Machine.Stage), P(Machine.Stage)]
    + (if error.Some? then [LostWrite, P(Machine.Recover(true)), P(Machine.Stage), P(Machine.Stage)]
       else [P(Machine.Stage), LostWrite, P(Machine.Recover(true)), P(Machine.Stage)])
  }

  lemma {:induction false} RunMore(s: System, a: seq<Action>, b: seq<Action>)
    requires Runs(s, a) && Runs(After(s, a), b)
    ensures Runs(s, a + b) && After(s, a + b) == After(After(s, a), b)
    decreases |a|
  {
    if a == [] {
      assert a + b == b;
    } else {
      assert (a + b)[1..] == a[1..] + b;
      RunMore(Do(s, a[0]), a[1..], b);
    }
  }

  lemma RunOne(s: System, a: Action)
    requires Enabled(s, a)
    ensures Runs(s, [a]) && After(s, [a]) == Do(s, a)
  {
    assert [a][1..] == [];
  }

  /** A generator that throws while the task is not settled, with one lost write, leaves
      the task as it was: working, with its pump gone. So the exception in `Converges` is
      real at every such moment. */
  lemma ThrowAndLostWriteStrand(s: System, error: Option<string>)
    requires Inv(s) && s.pump.pc.Loop? && !IsSettled(s.stored.status.state)
    ensures Runs(s, Stranding(error))
    ensures var t := After(s, Stranding(error));
            t.pump.pc.Returned? && t.stored == s.stored && t.pump.faults == s.pump.faults + 1
                && t.published == s.published
  {
    var s3 := Do(Do(Do(s, P(Machine.Throw(error))), P(Machine.Stage)), P(Machine.Stage));
    Three(s, P(Machine.Throw(error)), P(Machine.Stage), P(Machine.Stage));
    if error.Some? {
      LostFailure(s3);
    } else {
      LostAbort(s3);
    }
    RunMore(s, Stranding(error)[..3], Stranding(error)[3..]);
    assert Stranding(error)[..3] + Stranding(error)[3..] == Stranding(error);
  }

  ghost predicate Strands(s: System, actions: seq<Action>) {
    Runs(s, actions) &&
    var t := After(s, actions);
    t.pump.pc.Returned? && t.stored == s.stored && t.pump.faults == s.pump.faults + 1 && t.published == s.published
  }

  lemma LostFailure(s: System)
    requires s.pump.pc == Machine.Writing(Machine.ForFailure) && s.pump.failure.Some?
    requires !IsTerminal(s.stored.status.state)
    ensures Strands(s, [LostWrite, P(Machine.Recover(true)), P(Machine.Stage), P(Machine.Stage)])
  {
    Four(s, LostWrite, P(Machine.Recover(true)), P(Machine.Stage), P(Machine.Stage));
  }

  lemma LostAbort(s: System)
    requires s.pump.pc == Machine.AtAbort && s.pump.failure.None? && !s.pump.ended
    requires !IsTerminal(s.stored.status.state)
    ensures Strands(s, [P(Machine.Stage), LostWrite, P(Machine.Recover(true)), P(Machine.Stage)])
  {
    Four(s, P(Machine.Stage), LostWrite, P(Machine.Recover(true)), P(Machine.Stage));
  }

  lemma Three(s: System, a: Action, b: Action, c: Action)
    requires Enabled(s, a) && Enabled(Do(s, a), b) && Enabled(Do(Do(s, a), b), c)
    ensures Runs(s, [a, b, c]) && After(s, [a, b, c]) == Do(Do(Do(s, a), b), c)
  {
    RunOne(Do(Do(s, a), b), c);
    assert [b, c][1..] == [c];
    assert [a, b, c][1..] == [b, c];
  }

  lemma Four(s: System, a: Action, b: Action, c: Action, d: Action)
    requires Enabled(s, a) && Enabled(Do(s, a), b) && Enabled(Do(Do(s, a), b), c)
        && Enabled(Do(Do(Do(s, a), b), c), d)
    ensures Runs(s, [a, b, c, d]) && After(s, [a, b, c, d]) == Do(Do(Do(Do(s, a), b), c), d)
  {
    Three(Do(s, a), b, c, d);
    assert [a, b, c, d][1..] == [b, c, d];
  }

  // ---- A cancel can drop an artifact a subscriber has received -------------------------------

  /** An artifact is written and published; then a cancel that had read the task before
      writes its snapshot back. */
  function Dropping(artifact: Artifact, i: nat): seq<Action> {
    [P(Machine.Emit(ArtifactUpdate(artifact, false))), P(Machine.Write(Machine.Healthy)), P(Machine.Publish),
     CancelWrite(i, Status(Canceled, None), Machine.Healthy)]
  }

  /** The comment on the pump (lines 1019-1022) promises that cancellation cannot make the
      record lag behind published content. It can: whenever the cancel's snapshot had an
      artifact list, a new artifact published between its read and its write is gone. */
  lemma CancelDropsPublished(s: System, i: nat, artifact: Artifact)
    requires Inv(s) && s.pump.pc.Loop? && !s.pump.quiet && !IsTerminal(s.stored.status.state)
    requires i < |s.cancels| && s.cancels[i].Looked? && s.cancels[i].snapshot.artifacts.Some?
    requires artifact.artifactId !in Ids(s.cancels[i].snapshot.artifacts.value)
    ensures Runs(s, Dropping(artifact, i))
    ensures var t := After(s, Dropping(artifact, i));
            && ArtifactTold(artifact, false) in t.published && |t.cancels| == |s.cancels| && t.cancels[i].Succeeded?
            && t.stored.artifacts.Some? && artifact !in t.stored.artifacts.value
  {
    var s1 := Do(s, P(Machine.Emit(ArtifactUpdate(artifact, false))));
    var s2 := Do(s1, P(Machine.Write(Machine.Healthy)));
    var s3 := Do(s2, P(Machine.Publish));
    assert s3.published == s.published + [ArtifactTold(artifact, false)];
    Four(s, P(Machine.Emit(ArtifactUpdate(artifact, false))), P(Machine.Write(Machine.Healthy)), P(Machine.Publish),
         CancelWrite(i, Status(Canceled, None), Machine.Healthy));
  }
}
