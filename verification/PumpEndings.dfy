/** Which status a streaming turn ends in: over every run it is one that somebody asked for,
    and an undisturbed turn ends in the very one its generator's end calls for
    (transport/request-handler.ts). */
module PumpEndings {
  import opened Options
  import opened Artifacts
  import opened Tasks
  import opened StreamFold
  import opened PumpProtocol
  import opened PumpExceptions
  import Machine = PumpMachine

  // ---- Where a stored status comes from --------------------------------------------------------

  const Stopped := Status(Canceled, None)

  function FailedBy(error: string): Status {
    Status(Failed, Some(StatusMessage(error, None)))
  }

  /** What the actions of a run asked for: the statuses of the executor's events, those the
      cancels requested, a failure for each error its generator threw; whether a store call
      of the pump failed; and whether the generator ended silently, exhausted or by
      throwing `undefined`. */
  datatype Origins = Origins(
    emitted: set<Status>, requested: set<Status>, thrown: set<Status>, storeFailed: bool, silent: bool)

  predicate FailsStore(step: Machine.Step) {
    (step.Write? && step.outcome.Faulty?) || step == Machine.Recover(false) || step == Machine.ReadLatest(false)
  }

  function Add(o: Origins, a: Action): Origins {
    match a
    case PumpStep(Emit(StatusUpdate(event, _, _))) => o.(emitted := o.emitted + {event.status})
    case PumpStep(Throw(Some(error))) => o.(thrown := o.thrown + {FailedBy(error)})
    case PumpStep(Throw(None)) => o.(silent := true)
    case PumpStep(Exhaust) => o.(silent := true)
    case PumpStep(step) => o.(storeFailed := o.storeFailed || FailsStore(step))
    case CancelWrite(_, requested, _) => o.(requested := o.requested + {requested})
    case _ => o
  }

  function OriginsOf(actions: seq<Action>): Origins {
    if actions == [] then Origins({}, {}, {}, false, false)
    else Add(OriginsOf(actions[..|actions| - 1]), actions[|actions| - 1])
  }

  /** What a status can come from: the task itself, an event of the executor, a cancel, an
      error of its generator or of the store, or a generator that ended silently. */
  predicate Sourced(task: Task, o: Origins, status: Status) {
    || status == task.status || status in o.emitted || status in o.requested || status in o.thrown
    || (o.storeFailed && status == FailedBy("store"))
    || (o.silent && status == Stopped)
  }

  predicate JobSourced(o: Origins, job: Machine.Job) {
    match job
    case ForEvent(e) => e.StatusUpdate? ==> e.event.status in o.emitted
    case ForRetry(_, update) => update.status.Some? ==> update.status.value in o.emitted
    case ForExhausted => o.silent
    case ForAbort => o.silent
    case _ => true
  }

  predicate PumpSourced(stored: Task, o: Origins, p: Machine.Pump) {
    && (p.pending.Some? && p.pending.value.1.status.Some? ==> p.pending.value.1.status.value in o.emitted)
    && (p.failure.Some? && !IsTerminal(stored.status.state) ==>
          FailedBy(p.failure.value) in o.thrown || (p.failure == Some("store") && o.storeFailed))
    && (p.pc.Writing? || p.pc.Recovering? ==> JobSourced(o, p.pc.job))
    && (p.pc.Recovering? ==> o.storeFailed || IsTerminal(stored.status.state))
    && (p.pc.Drained? ==> o.silent)
    && (Machine.InFinally(p.pc) && !p.ended && p.failure.None? ==> o.silent)
  }

  lemma SourcedGrows(task: Task, o: Origins, a: Action, status: Status)
    requires Sourced(task, o, status)
    ensures Sourced(task, Add(o, a), status)
  {
  }

  lemma PumpSourcedGrows(stored: Task, o: Origins, a: Action, p: Machine.Pump)
    requires PumpSourced(stored, o, p)
    ensures PumpSourced(stored, Add(o, a), p)
  {
  }

  lemma OthersKeepPumpSourced(a: Task, b: Task, o: Origins, p: Machine.Pump)
    requires PumpSourced(a, o, p) && (IsTerminal(a.status.state) ==> IsTerminal(b.status.state))
    ensures PumpSourced(b, o, p)
  {
  }

  lemma EmitSourced(o: Origins, prior: seq<Artifact>, stored: Task, p: Machine.Pump, e: Emission)
    requires PumpSourced(stored, o, p) && Machine.Enabled(p, Machine.Emit(e))
    requires e.StatusUpdate? ==> e.event.status in o.emitted
    ensures PumpSourced(stored, o, Machine.DoEmit(prior, stored, p, e).pump)
  {
  }

  /** What a write would store comes from somewhere. */
  lemma UpdateSourced(task: Task, o: Origins, stored: Task, p: Machine.Pump)
    requires PumpSourced(stored, o, p) && Machine.Good(stored, p) && p.pc.Writing?
    requires !IsTerminal(stored.status.state) && Machine.UpdateFor(p, p.pc.job).status.Some?
    ensures Sourced(task, o, Machine.UpdateFor(p, p.pc.job).status.value)
  {
  }

  lemma WriteSourced(task: Task, o: Origins, stored: Task, p: Machine.Pump, outcome: Machine.Outcome)
    requires Sourced(task, o, stored.status) && PumpSourced(stored, o, p) && Machine.Good(stored, p)
    requires p.pc.Writing?
    ensures Sourced(task, o, Machine.DoWrite(stored, p, outcome).stored.status)
  {
    if Machine.DoWrite(stored, p, outcome).stored.status != stored.status {
      UpdateSourced(task, o, stored, p);
    }
  }

  /** A pump between its writes, with no more to account for than before. */
  predicate Rests(o: Origins, stored: Task, p: Machine.Pump, q: Machine.Pump) {
    && !q.pc.Writing? && !q.pc.Recovering? && !q.pc.Drained?
    && (q.pending.None? || q.pending == p.pending)
    && (|| q.failure.None? || q.failure == p.failure
        || (q.failure == Some("store") && (o.storeFailed || IsTerminal(stored.status.state))))
    && (Machine.InFinally(q.pc) && !q.ended && q.failure.None? ==>
          Machine.InFinally(p.pc) && !p.ended && p.failure.None?)
  }

  lemma RestsSourced(o: Origins, stored: Task, p: Machine.Pump, q: Machine.Pump)
    requires PumpSourced(stored, o, p) && Rests(o, stored, p, q)
    ensures PumpSourced(stored, o, q)
  {
  }

  /** What a write makes of the pump. */
  predicate Wrote(a: Task, b: Task, p: Machine.Pump, q: Machine.Pump, failed: bool) {
    && p.pc.Writing? && q.pending == p.pending && q.failure == p.failure && q.ended == p.ended
    && (IsTerminal(a.status.state) ==> IsTerminal(b.status.state))
    && (|| (q.pc.Publishing? && q.pc.job == p.pc.job)
        || (q.pc == Machine.Recovering(p.pc.job) && (failed || IsTerminal(b.status.state))))
  }

  lemma WriteWrote(stored: Task, p: Machine.Pump, outcome: Machine.Outcome)
    requires p.pc.Writing?
    ensures var m := Machine.DoWrite(stored, p, outcome); Wrote(stored, m.stored, p, m.pump, outcome.Faulty?)
  {
  }

  lemma WroteSourced(o: Origins, a: Task, b: Task, p: Machine.Pump, q: Machine.Pump)
    requires PumpSourced(a, o, p) && Wrote(a, b, p, q, o.storeFailed)
    ensures PumpSourced(b, o, q)
  {
  }

  lemma WritePumpSourced(o: Origins, stored: Task, p: Machine.Pump, outcome: Machine.Outcome)
    requires PumpSourced(stored, o, p) && p.pc.Writing? && (outcome.Faulty? ==> o.storeFailed)
    ensures var m := Machine.DoWrite(stored, p, outcome); PumpSourced(m.stored, o, m.pump)
  {
    var m := Machine.DoWrite(stored, p, outcome);
    WriteWrote(stored, p, outcome);
    WroteSourced(o, stored, m.stored, p, m.pump);
  }

  lemma FailingRests(o: Origins, stored: Task, p: Machine.Pump)
    requires p.pc.Recovering? && (o.storeFailed || IsTerminal(stored.status.state))
    ensures Rests(o, stored, p, Machine.Failing(p, p.pc.job))
  {
  }

  lemma RecoverSourced(o: Origins, stored: Task, p: Machine.Pump, readable: bool)
    requires PumpSourced(stored, o, p) && p.pc.Recovering? && (!readable ==> o.storeFailed)
    ensures PumpSourced(stored, o, Machine.DoRecover(stored, p, readable).pump)
  {
    var q := Machine.DoRecover(stored, p, readable).pump;
    if q.pc.Publishing? {
      assert Rests(o, stored, p, q);
    } else {
      FailingRests(o, stored, p);
    }
    RestsSourced(o, stored, p, q);
  }

  lemma EventPublishRests(o: Origins, stored: Task, p: Machine.Pump)
    requires p.pc.Publishing? && p.pc.job.ForEvent?
    ensures Rests(o, stored, p, Machine.DoPublish(stored, p).pump)
  {
    assert p.pc.job.e.StatusUpdate? || p.pc.job.e.ArtifactUpdate?;
  }

  lemma ClosingPublishRests(o: Origins, stored: Task, p: Machine.Pump)
    requires p.pc.Publishing? && !p.pc.job.ForEvent?
    ensures Rests(o, stored, p, Machine.DoPublish(stored, p).pump)
  {
  }

  lemma PublishRests(o: Origins, stored: Task, p: Machine.Pump)
    requires p.pc.Publishing?
    ensures Rests(o, stored, p, Machine.DoPublish(stored, p).pump)
  {
    if p.pc.job.ForEvent? {
      EventPublishRests(o, stored, p);
    } else {
      ClosingPublishRests(o, stored, p);
    }
  }

  lemma PublishSourced(o: Origins, stored: Task, p: Machine.Pump)
    requires PumpSourced(stored, o, p) && p.pc.Publishing?
    ensures PumpSourced(stored, o, Machine.DoPublish(stored, p).pump)
  {
    PublishRests(o, stored, p);
    RestsSourced(o, stored, p, Machine.DoPublish(stored, p).pump);
  }

  lemma ReadLatestSourced(o: Origins, stored: Task, p: Machine.Pump, readable: bool)
    requires PumpSourced(stored, o, p) && p.pc.Drained? && (!readable ==> o.storeFailed)
    ensures PumpSourced(stored, o, Machine.DoReadLatest(stored, p, readable).pump)
  {
  }

  lemma StageSourced(o: Origins, stored: Task, p: Machine.Pump)
    requires PumpSourced(stored, o, p) && Machine.Enabled(p, Machine.Stage)
    ensures PumpSourced(stored, o, Machine.DoStage(stored, p).pump)
  {
    var q := Machine.DoStage(stored, p).pump;
    if q.pc.Writing? {
      assert JobSourced(o, q.pc.job);
    } else {
      assert Rests(o, stored, p, q);
      RestsSourced(o, stored, p, q);
    }
  }

  lemma PumpSourcedStep(o: Origins, prior: seq<Artifact>, stored: Task, p: Machine.Pump, step: Machine.Step)
    requires PumpSourced(stored, o, p) && Machine.Enabled(p, step) && Add(o, PumpStep(step)) == o
    ensures var m := Machine.Do(prior, stored, p, step); PumpSourced(m.stored, o, m.pump)
  {
    match step
    case Emit(e) => EmitSourced(o, prior, stored, p, e);
    case Exhaust =>
    case Throw(_) =>
    case Write(outcome) => WritePumpSourced(o, stored, p, outcome);
    case Recover(readable) => RecoverSourced(o, stored, p, readable);
    case Publish => PublishSourced(o, stored, p);
    case ReadLatest(readable) => ReadLatestSourced(o, stored, p, readable);
    case Stage => StageSourced(o, stored, p);
  }

  lemma OtherStepsStoreNothing(prior: seq<Artifact>, stored: Task, p: Machine.Pump, step: Machine.Step)
    requires Machine.Enabled(p, step) && !step.Write?
    ensures Machine.Do(prior, stored, p, step).stored == stored
  {
  }

  lemma ActionSourced(task: Task, o: Origins, s: System, a: Action)
    requires Inv(s) && Enabled(s, a) && Sourced(task, o, s.stored.status) && PumpSourced(s.stored, o, s.pump)
    requires Add(o, a) == o
    ensures var t := Do(s, a); Sourced(task, o, t.stored.status) && PumpSourced(t.stored, o, t.pump)
  {
    if a.PumpStep? {
      PumpSourcedStep(o, s.prior, s.stored, s.pump, a.step);
      if a.step.Write? {
        WriteSourced(task, o, s.stored, s.pump, a.step.outcome);
      } else {
        OtherStepsStoreNothing(s.prior, s.stored, s.pump, a.step);
      }
    } else {
      OthersKeepPumpSourced(s.stored, Do(s, a).stored, o, s.pump);
    }
  }

  lemma {:induction false} RunSourced(task: Task, done: seq<Action>, s: System, actions: seq<Action>)
    requires Inv(s) && Runs(s, actions)
    requires Sourced(task, OriginsOf(done), s.stored.status) && PumpSourced(s.stored, OriginsOf(done), s.pump)
    ensures Sourced(task, OriginsOf(done + actions), After(s, actions).stored.status)
    decreases |actions|
  {
    if actions == [] {
      assert done + [] == done;
    } else {
      var o, a := OriginsOf(done), actions[0];
      assert (done + [a])[..|done|] == done;
      SourcedGrows(task, o, a, s.stored.status);
      PumpSourcedGrows(s.stored, o, a, s.pump);
      ActionKeeps(s, a);
      ActionSourced(task, Add(o, a), s, a);
      RunSourced(task, done + [a], Do(s, a), actions[1..]);
      assert done + [a] + actions[1..] == done + actions;
    }
  }

  /** Over every run, with any cancels and faults, the stored status is one that somebody
      asked for: the task's own, an executor event's, a cancel's, the error the generator or
      the store threw as a failure, or, for a generator that ended silently, canceled. */
  lemma EveryStatusIsSourced(task: Task, actions: seq<Action>)
    requires Runs(Begin(task), actions)
    ensures Sourced(task, OriginsOf(actions), After(Begin(task), actions).stored.status)
  {
    Machine.BeginGood(task);
    RunSourced(task, [], Begin(task), actions);
    assert [] + actions == actions;
  }

  // ---- How an undisturbed turn ends ------------------------------------------------------------

  /** No cancel writes and none of the pump's store calls fails. */
  predicate Undisturbed(a: Action) {
    !a.CancelWrite? && !(a.PumpStep? && a.step.Write? && a.step.outcome.Faulty?)
    && a != PumpStep(Machine.Recover(false)) && a != PumpStep(Machine.ReadLatest(false))
  }

  /** A status that ends the interaction: one marked final, a terminal one, and one that waits
      for input unless it is marked as not final. */
  predicate EndingStatus(e: StatusEvent) {
    match e.final
    case Some(final) => final || IsTerminal(e.status.state)
    case None => IsTerminal(e.status.state) || e.status.state == InputRequired || e.status.state == AuthRequired
  }

  /** The step by which the generator ends the interaction, or ends itself. */
  predicate Ending(step: Machine.Step) {
    step.Exhaust? || step.Throw? || (step.Emit? && step.e.StatusUpdate? && EndingStatus(step.e.event))
  }

  /** The status that calls for, over the stored one. */
  function CalledFor(step: Machine.Step, stored: Status): Status
    requires Ending(step)
  {
    match step
    case Emit(e) => e.event.status
    case Throw(error) => if error.Some? then FailedBy(error.value) else Stopped
    case Exhaust => if stored.state == InputRequired || stored.state == AuthRequired then stored else Stopped
  }

  ghost predicate Announced(published: seq<TaskEvent>, status: Status) {
    StatusTold(StatusEvent(status, Some(true))) in published
  }

  /** The interaction has ended in that status, and everybody was told. */
  ghost predicate Over(stored: Task, p: Machine.Pump, published: seq<TaskEvent>, want: Status) {
    p.ended && p.pending.None? && stored.status == want && Announced(published, want)
  }

  /** The job that will store that status. */
  predicate JobFor(p: Machine.Pump, job: Machine.Job, want: Status) {
    match job
    case ForEvent(e) => e.StatusUpdate? && e.event.status == want && EndsInteraction(e.event)
    case ForLatest => IsSettled(want.state)
    case ForExhausted => want == Stopped
    case ForFailure => p.failure.Some? && want == FailedBy(p.failure.value)
    case ForAbort => want == Stopped
    case ForRetry(_, _) => false
  }

  /** Still open, with nothing pending. */
  predicate Undecided(stored: Task, p: Machine.Pump) {
    !p.ended && p.pending.None? && !IsTerminal(stored.status.state)
  }

  ghost predicate OnTheWay(stored: Task, p: Machine.Pump, published: seq<TaskEvent>, want: Status) {
    match p.pc
    case Loop => Over(stored, p, published, want)
    case Drained =>
      || Over(stored, p, published, want)
      || (Undecided(stored, p) && want == CalledFor(Machine.Exhaust, stored.status))
    case Writing(job) =>
      && JobFor(p, job, want) && !IsTerminal(stored.status.state) && !job.ForLatest?
      && (!job.ForEvent? ==> p.pending.None?)
    case Publishing(job, t) =>
      JobFor(p, job, want) && t.status == stored.status == want && (!job.ForEvent? ==> p.pending.None?)
    case Recovering(_) => false
    case AtRetry =>
      || Over(stored, p, published, want)
      || (Undecided(stored, p) && want == if p.failure.Some? then FailedBy(p.failure.value) else Stopped)
    case AtFailure =>
      || Over(stored, p, published, want)
      || (Undecided(stored, p) && want == if p.failure.Some? then FailedBy(p.failure.value) else Stopped)
    case AtAbort =>
      || Over(stored, p, published, want)
      || (Undecided(stored, p) && p.failure.None? && want == Stopped)
    case AtClose => Over(stored, p, published, want)
    case Returned => Over(stored, p, published, want)
  }

  function Heard(published: seq<TaskEvent>, told: Option<TaskEvent>): seq<TaskEvent> {
    if told.Some? then published + [told.value] else published
  }

  lemma WriteOnTheWay(stored: Task, p: Machine.Pump, published: seq<TaskEvent>, want: Status)
    requires OnTheWay(stored, p, published, want) && Machine.Good(stored, p) && p.pc.Writing?
    ensures var m := Machine.DoWrite(stored, p, Machine.Healthy);
            OnTheWay(m.stored, m.pump, Heard(published, m.told), want)
  {
  }

  lemma PublishOnTheWay(stored: Task, p: Machine.Pump, published: seq<TaskEvent>, want: Status)
    requires OnTheWay(stored, p, published, want) && Machine.Good(stored, p) && p.pc.Publishing?
    ensures var m := Machine.DoPublish(stored, p);
            OnTheWay(m.stored, m.pump, Heard(published, m.told), want)
  {
    var m := Machine.DoPublish(stored, p);
    assert Announced(Heard(published, m.told), want);
  }

  lemma StageOnTheWay(stored: Task, p: Machine.Pump, published: seq<TaskEvent>, want: Status)
    requires OnTheWay(stored, p, published, want) && Machine.Enabled(p, Machine.Stage)
    ensures var m := Machine.DoStage(stored, p);
            OnTheWay(m.stored, m.pump, Heard(published, m.told), want)
  {
  }

  lemma ReadLatestOnTheWay(stored: Task, p: Machine.Pump, published: seq<TaskEvent>, want: Status)
    requires OnTheWay(stored, p, published, want) && p.pc.Drained?
    ensures var m := Machine.DoReadLatest(stored, p, true);
            OnTheWay(m.stored, m.pump, Heard(published, m.told), want)
  {
  }

  lemma StepOnTheWay(prior: seq<Artifact>, stored: Task, p: Machine.Pump, published: seq<TaskEvent>, want: Status,
      step: Machine.Step)
    requires OnTheWay(stored, p, published, want) && Machine.Good(stored, p) && Machine.Enabled(p, step)
    requires Undisturbed(PumpStep(step))
    ensures var m := Machine.Do(prior, stored, p, step);
            OnTheWay(m.stored, m.pump, Heard(published, m.told), want)
  {
    match step
    case Write(_) => WriteOnTheWay(stored, p, published, want);
    case Publish => PublishOnTheWay(stored, p, published, want);
    case ReadLatest(_) => ReadLatestOnTheWay(stored, p, published, want);
    case Stage => StageOnTheWay(stored, p, published, want);
    case Exhaust =>
    case Throw(_) =>
  }

  lemma ActionOnTheWay(s: System, a: Action, want: Status)
    requires Inv(s) && Enabled(s, a) && OnTheWay(s.stored, s.pump, s.published, want) && Undisturbed(a)
    ensures var t := Do(s, a); OnTheWay(t.stored, t.pump, t.published, want)
  {
    if a.PumpStep? {
      StepOnTheWay(s.prior, s.stored, s.pump, s.published, want, a.step);
    } else {
      var t := Do(s, a);
      assert t.stored == s.stored && t.pump == s.pump && t.published == s.published;
    }
  }

  lemma {:induction false} RunOnTheWay(s: System, actions: seq<Action>, want: Status)
    requires Inv(s) && Runs(s, actions) && OnTheWay(s.stored, s.pump, s.published, want)
    requires forall i | 0 <= i < |actions| :: Undisturbed(actions[i])
    ensures var t := After(s, actions); OnTheWay(t.stored, t.pump, t.published, want)
    decreases |actions|
  {
    if actions != [] {
      ActionKeeps(s, actions[0]);
      ActionOnTheWay(s, actions[0], want);
      RunOnTheWay(Do(s, actions[0]), actions[1..], want);
    }
  }

  lemma EndingIsOnTheWay(s: System, step: Machine.Step)
    requires Inv(s) && s.pump.pc.Loop? && !s.pump.ended && !IsTerminal(s.stored.status.state)
    requires Ending(step) && Machine.Enabled(s.pump, step)
    ensures var t := Do(s, PumpStep(step));
            OnTheWay(t.stored, t.pump, t.published, CalledFor(step, s.stored.status))
  {
  }

  /** From any reachable moment of an open turn: if no cancel and no failing store call
      comes after, a pump that has returned left exactly the status the way its generator
      ended calls for, and published it as the final one: an ending event's own; failed,
      with its message, for an error; the stored one when exhausted while waiting for input;
      and otherwise canceled. */
  lemma UndisturbedEnding(s: System, step: Machine.Step, actions: seq<Action>)
    requires Inv(s) && s.pump.pc.Loop? && !s.pump.ended && !IsTerminal(s.stored.status.state)
    requires Ending(step) && Runs(s, [PumpStep(step)] + actions)
    requires forall i | 0 <= i < |actions| :: Undisturbed(actions[i])
    ensures var t := After(s, [PumpStep(step)] + actions);
            t.pump.pc.Returned? ==>
              var want := CalledFor(step, s.stored.status);
              t.stored.status == want && Announced(t.published, want)
  {
    assert ([PumpStep(step)] + actions)[1..] == actions;
    EndingIsOnTheWay(s, step);
    ActionKeeps(s, PumpStep(step));
    RunOnTheWay(Do(s, PumpStep(step)), actions, CalledFor(step, s.stored.status));
  }

  // ---- An ending whose write failed is not lost ------------------------------------------------

  /** The status that could not be written is still to be stored, or already is. */
  predicate Owed(stored: Task, event: StatusEvent, update: TaskUpdate, want: Status) {
    && event.status == want && update.status == Some(want) && EndsInteraction(event)
    && (IsTerminal(stored.status.state) ==> stored.status == want)
  }

  ghost predicate Retrying(stored: Task, p: Machine.Pump, published: seq<TaskEvent>, want: Status) {
    match p.pc
    case AtRetry => p.pending.Some? && Owed(stored, p.pending.value.0, p.pending.value.1, want) && !p.ended
    case Writing(ForRetry(event, update)) => Owed(stored, event, update, want)
    case Recovering(ForRetry(event, update)) => Owed(stored, event, update, want) && IsTerminal(stored.status.state)
    case Publishing(ForRetry(event, update), t) =>
      Owed(stored, event, update, want) && t.status == stored.status == want
    case AtFailure => p.ended && stored.status == want && Announced(published, want)
    case AtAbort => p.ended && stored.status == want && Announced(published, want)
    case AtClose => p.ended && stored.status == want && Announced(published, want)
    case Returned => p.ended && stored.status == want && Announced(published, want)
    case _ => false
  }

  lemma WriteRetries(stored: Task, p: Machine.Pump, published: seq<TaskEvent>, want: Status)
    requires Retrying(stored, p, published, want) && p.pc.Writing?
    ensures var m := Machine.DoWrite(stored, p, Machine.Healthy);
            m.told.None? && Retrying(m.stored, m.pump, published, want)
  {
  }

  lemma PublishRetried(stored: Task, p: Machine.Pump, published: seq<TaskEvent>, want: Status)
    requires Retrying(stored, p, published, want) && p.pc.Publishing?
    ensures var m := Machine.DoPublish(stored, p);
            Retrying(m.stored, m.pump, Heard(published, m.told), want)
  {
    var m := Machine.DoPublish(stored, p);
    assert Announced(Heard(published, m.told), want);
  }

  lemma StepRetries(prior: seq<Artifact>, stored: Task, p: Machine.Pump, published: seq<TaskEvent>, want: Status,
      step: Machine.Step)
    requires Retrying(stored, p, published, want) && Machine.Enabled(p, step) && Undisturbed(PumpStep(step))
    ensures var m := Machine.Do(prior, stored, p, step);
            Retrying(m.stored, m.pump, Heard(published, m.told), want)
  {
    match step
    case Write(_) => WriteRetries(stored, p, published, want);
    case Publish => PublishRetried(stored, p, published, want);
    case Recover(_) =>
    case Stage =>
  }

  lemma ActionRetries(s: System, a: Action, want: Status)
    requires Enabled(s, a) && Retrying(s.stored, s.pump, s.published, want) && Undisturbed(a)
    ensures var t := Do(s, a); Retrying(t.stored, t.pump, t.published, want)
  {
    if a.PumpStep? {
      StepRetries(s.prior, s.stored, s.pump, s.published, want, a.step);
    } else {
      var t := Do(s, a);
      assert t.stored == s.stored && t.pump == s.pump && t.published == s.published;
    }
  }

  lemma {:induction false} RunRetries(s: System, actions: seq<Action>, want: Status)
    requires Runs(s, actions) && Retrying(s.stored, s.pump, s.published, want)
    requires forall i | 0 <= i < |actions| :: Undisturbed(actions[i])
    ensures var t := After(s, actions); Retrying(t.stored, t.pump, t.published, want)
    decreases |actions|
  {
    if actions != [] {
      ActionRetries(s, actions[0], want);
      RunRetries(Do(s, actions[0]), actions[1..], want);
    }
  }

  /** The event is yielded, its write fails (or only its answer is lost), and the recovery
      read tells the truth or fails as well. */
  function Faltering(e: Emission, landed: bool, readable: bool): seq<Action> {
    [PumpStep(Machine.Emit(e)), PumpStep(Machine.Write(Machine.Faulty(landed))),
     PumpStep(Machine.Recover(readable))]
  }

  lemma FalteringIsOwed(s: System, e: Emission, landed: bool, readable: bool)
    requires Inv(s) && s.pump.pc.Loop? && !s.pump.ended && !IsTerminal(s.stored.status.state)
    requires e.StatusUpdate? && EndingStatus(e.event) && Machine.Enabled(s.pump, Machine.Emit(e))
    ensures Runs(s, Faltering(e, landed, readable)) && Inv(After(s, Faltering(e, landed, readable)))
    ensures var t := After(s, Faltering(e, landed, readable));
            if t.pump.pc.Publishing? then OnTheWay(t.stored, t.pump, t.published, e.event.status)
            else Retrying(t.stored, t.pump, t.published, e.event.status)
  {
    var s1 := Do(s, PumpStep(Machine.Emit(e)));
    var s2 := Do(s1, PumpStep(Machine.Write(Machine.Faulty(landed))));
    var s3 := Do(s2, PumpStep(Machine.Recover(readable)));
    ActionKeeps(s, PumpStep(Machine.Emit(e)));
    ActionKeeps(s1, PumpStep(Machine.Write(Machine.Faulty(landed))));
    ActionKeeps(s2, PumpStep(Machine.Recover(readable)));
    Three(s, PumpStep(Machine.Emit(e)), PumpStep(Machine.Write(Machine.Faulty(landed))),
          PumpStep(Machine.Recover(readable)));
  }

  /** A recovered store does not strand, or record as failed, a turn that ended well: if the
      write of an interaction-ending status fails once, with no cancel and no further fault
      but that of its recovery read, a returned pump has stored that very status and
      published it as the final one. */
  lemma EndingSurvivesOneFault(s: System, e: Emission, landed: bool, readable: bool, actions: seq<Action>)
    requires Inv(s) && s.pump.pc.Loop? && !s.pump.ended && !IsTerminal(s.stored.status.state)
    requires e.StatusUpdate? && EndingStatus(e.event) && Machine.Enabled(s.pump, Machine.Emit(e))
    requires Runs(s, Faltering(e, landed, readable)) && Runs(After(s, Faltering(e, landed, readable)), actions)
    requires forall i | 0 <= i < |actions| :: Undisturbed(actions[i])
    ensures var t := After(After(s, Faltering(e, landed, readable)), actions);
            t.pump.pc.Returned? ==> t.stored.status == e.event.status && Announced(t.published, e.event.status)
  {
    FalteringIsOwed(s, e, landed, readable);
    var t := After(s, Faltering(e, landed, readable));
    if t.pump.pc.Publishing? {
      RunOnTheWay(t, actions, e.event.status);
    } else {
      RunRetries(t, actions, e.event.status);
    }
  }

  // ---- A turn whose store calls do not fail always concludes -----------------------------------

  predicate Sound(a: Action) {
    a.PumpStep? ==> !FailsStore(a.step)
  }

  ghost predicate Concluded(published: seq<TaskEvent>) {
    exists status :: Announced(published, status)
  }

  predicate Settling(stored: Task, p: Machine.Pump) {
    && (p.pc.AtClose? || p.pc.Returned? ==> p.ended)
    && (p.pc.AtAbort? && !p.ended ==> p.failure.None?)
    && (p.pc.Recovering? ==> IsTerminal(stored.status.state))
    && (p.pending.Some? ==> (p.pc.Writing? || p.pc.Recovering? || p.pc.Publishing?) && p.pc.job.ForEvent?)
  }

  ghost predicate Concluding(stored: Task, p: Machine.Pump, published: seq<TaskEvent>) {
    Settling(stored, p) && (p.ended ==> Concluded(published))
  }

  lemma ConcludedMore(published: seq<TaskEvent>, told: Option<TaskEvent>)
    requires Concluded(published)
    ensures Concluded(Heard(published, told))
  {
    var status :| Announced(published, status);
    assert Announced(Heard(published, told), status);
  }

  lemma PublishSettles(stored: Task, p: Machine.Pump)
    requires Settling(stored, p) && Machine.Good(stored, p) && p.pc.Publishing?
    ensures Settling(stored, Machine.DoPublish(stored, p).pump)
  {
  }

  /** A step that ends the interaction tells so. */
  lemma PublishConcludes(stored: Task, p: Machine.Pump, published: seq<TaskEvent>)
    requires p.pc.Publishing? && !p.ended && Machine.DoPublish(stored, p).pump.ended
    ensures Concluded(Heard(published, Machine.DoPublish(stored, p).told))
  {
    var m := Machine.DoPublish(stored, p);
    assert Announced(Heard(published, m.told), m.told.value.event.status);
  }

  lemma OtherStepsEndNothing(prior: seq<Artifact>, stored: Task, p: Machine.Pump, step: Machine.Step)
    requires Machine.Enabled(p, step) && !step.Publish?
    ensures var m := Machine.Do(prior, stored, p, step); m.pump.ended == p.ended && m.told.None?
  {
    match step
    case Emit(_) =>
    case Exhaust =>
    case Throw(_) =>
    case Write(_) =>
    case Recover(_) =>
    case ReadLatest(_) =>
    case Stage =>
  }

  lemma StepSettles(prior: seq<Artifact>, stored: Task, p: Machine.Pump, step: Machine.Step)
    requires Settling(stored, p) && Machine.Good(stored, p) && Machine.Enabled(p, step) && !FailsStore(step)
    ensures var m := Machine.Do(prior, stored, p, step); Settling(m.stored, m.pump)
  {
    match step
    case Publish => PublishSettles(stored, p);
    case Write(_) =>
    case Recover(_) =>
    case ReadLatest(_) =>
    case Stage =>
    case Emit(_) =>
    case Throw(_) =>
    case Exhaust =>
  }

  lemma ActionConcludes(s: System, a: Action)
    requires Inv(s) && Enabled(s, a) && Sound(a) && Concluding(s.stored, s.pump, s.published)
    ensures var t := Do(s, a); Concluding(t.stored, t.pump, t.published)
  {
    if a.PumpStep? {
      var told := Machine.Do(s.prior, s.stored, s.pump, a.step).told;
      StepSettles(s.prior, s.stored, s.pump, a.step);
      if !a.step.Publish? {
        OtherStepsEndNothing(s.prior, s.stored, s.pump, a.step);
      } else if s.pump.ended {
        ConcludedMore(s.published, told);
      } else if Do(s, a).pump.ended {
        PublishConcludes(s.stored, s.pump, s.published);
      }
    } else {
      var t := Do(s, a);
      assert t.pump == s.pump && t.published == s.published;
      assert IsTerminal(s.stored.status.state) ==> IsTerminal(t.stored.status.state);
    }
  }

  lemma {:induction false} RunConcludes(s: System, actions: seq<Action>)
    requires Inv(s) && Runs(s, actions) && Concluding(s.stored, s.pump, s.published)
    requires forall i | 0 <= i < |actions| :: Sound(actions[i])
    ensures Inv(After(s, actions))
    ensures var t := After(s, actions); Concluding(t.stored, t.pump, t.published)
    decreases |actions|
  {
    if actions != [] {
      ActionKeeps(s, actions[0]);
      ActionConcludes(s, actions[0]);
      RunConcludes(Do(s, actions[0]), actions[1..]);
    }
  }

  /** Over every run in which none of the pump's store calls fails, whatever cancels race
      it, a returned pump has ended the interaction and published a final status; if that is
      terminal it is the stored one. */
  lemma FaultlessTurnsConclude(task: Task, actions: seq<Action>)
    requires Runs(Begin(task), actions) && forall i | 0 <= i < |actions| :: Sound(actions[i])
    ensures var s := After(Begin(task), actions);
            s.pump.pc.Returned? ==>
              && s.pump.ended
              && exists status ::
                   Announced(s.published, status) && (IsTerminal(status.state) ==> s.stored.status == status)
  {
    Machine.BeginGood(task);
    RunConcludes(Begin(task), actions);
    var s := After(Begin(task), actions);
    if s.pump.pc.Returned? {
      var status :| Announced(s.published, status);
      assert Agrees(StatusTold(StatusEvent(status, Some(true))), s.stored);
    }
  }
}
