/** The streaming pump step by step (transport/request-handler.ts, `_runStreamMessage` and
    `_persistTaskState`): one executor stream, each event written, then published. Every
    `await` is a step boundary at which anybody else may write the task. */
module PumpMachine {
  import opened Options
  import opened Artifacts
  import opened Tasks
  import opened StreamFold

  /** What a pending write is for, in the order the code can reach them. */
  datatype Job =
    | ForEvent(e: Emission)
    /** The generator is exhausted and the task waits for input. */
    | ForLatest
    /** The generator is exhausted, nothing ended the interaction. */
    | ForExhausted
    /** `finally`: an interaction-ending status whose write failed, once more. */
    | ForRetry(event: StatusEvent, update: TaskUpdate)
    /** `finally`: the failure as the task's own. */
    | ForFailure
    /** `finally`: an executor that ended without event or error. */
    | ForAbort

  datatype Pc =
    | Loop
    | Drained
    | Writing(job: Job)
    /** The write threw; the recovery read is next. */
    | Recovering(job: Job)
    | Publishing(job: Job, persisted: Task)
    | AtRetry
    | AtFailure
    | AtAbort
    | AtClose
    | Returned

  /** `failure` is `streamFailure` (`None` is `undefined`). `threw`, `quiet`, `faults` and
      `lost` are history: the generator threw, it has yielded an interaction-ending event,
      how many of the pump's store calls failed, and whether one of them was a `finally`
      write that did not land. */
  datatype Pump = Pump(
    pc: Pc, fold: Fold, pending: Option<(StatusEvent, TaskUpdate)>,
    reachedTerminal: bool, ended: bool, failure: Option<string>,
    threw: bool, quiet: bool, faults: nat, lost: bool)

  /** A store write succeeds, or throws with or without having taken effect. */
  datatype Outcome = Healthy | Faulty(landed: bool)

  datatype Step =
    | Emit(e: Emission)
    | Exhaust
    | Throw(error: Option<string>)
    | Write(outcome: Outcome)
    | Recover(readable: bool)
    | Publish
    | ReadLatest(readable: bool)
    | Stage

  /** Executors behave like the default one: `final: true` appears only on a status at
      which the turn stops. */
  predicate Proper(e: Emission) {
    e.StatusUpdate? && e.event.final == Some(true) ==> IsSettled(e.event.status.state)
  }

  predicate Enabled(p: Pump, step: Step) {
    match step
    case Emit(e) => p.pc.Loop? && !p.quiet && Proper(e)
    case Exhaust => p.pc.Loop?
    case Throw(_) => p.pc.Loop?
    case Write(_) => p.pc.Writing?
    case Recover(_) => p.pc.Recovering?
    case Publish => p.pc.Publishing?
    case ReadLatest(_) => p.pc.Drained?
    case Stage => p.pc.AtRetry? || p.pc.AtFailure? || p.pc.AtAbort? || p.pc.AtClose?
  }

  function Listed(p: Pump): Option<seq<Artifact>> {
    if p.fold.artifacts != [] then Some(p.fold.artifacts) else None
  }

  function UpdateFor(p: Pump, job: Job): TaskUpdate {
    match job
    case ForEvent(e) => WriteOf(p.fold, e)
    case ForRetry(_, update) => update
    case ForFailure =>
      StatusWrite(Status(Failed, Some(StatusMessage(if p.failure.Some? then p.failure.value else "", None))),
          Listed(p))
    case _ => StatusWrite(Status(Canceled, None), Listed(p))
  }

  /** The store, the pump, what was published and whether the bus was closed. */
  datatype Move = Move(stored: Task, pump: Pump, told: Option<TaskEvent>, closes: bool)

  function Silent(stored: Task, p: Pump): Move {
    Move(stored, p, None, false)
  }

  function DoEmit(prior: seq<Artifact>, stored: Task, p: Pump, e: Emission): Move {
    var fold := Absorb(prior, p.fold, e);
    var ends := e.StatusUpdate? && EndsInteraction(e.event);
    Silent(stored, p.(pc := Writing(ForEvent(e)), fold := fold, quiet := ends,
                      pending := if ends then Some((e.event, WriteOf(fold, e))) else None))
  }

  function DoWrite(stored: Task, p: Pump, outcome: Outcome): Move
    requires p.pc.Writing?
  {
    var job := p.pc.job;
    var update := UpdateFor(p, job);
    match outcome
    case Healthy =>
      if Refuses(stored, update) then Silent(stored, p.(pc := Recovering(job)))
      else Silent(Updated(stored, update), p.(pc := Publishing(job, Updated(stored, update))))
    case Faulty(landed) =>
      Silent(if landed then Persisted(stored, update) else stored,
             p.(pc := Recovering(job), faults := p.faults + 1,
                lost := p.lost || (!landed && (job.ForFailure? || job.ForAbort?))))
  }

  /** Where an error out of `_persistTaskState` leads. */
  function Failing(p: Pump, job: Job): Pump {
    match job
    case ForRetry(_, _) => p.(pc := AtFailure)
    case ForFailure => p.(pc := AtAbort)
    case ForAbort => p.(pc := AtClose)
    case _ => p.(pc := AtRetry, failure := Some("store"))
  }

  function DoRecover(stored: Task, p: Pump, readable: bool): Move
    requires p.pc.Recovering?
  {
    if readable && IsTerminal(stored.status.state) then Silent(stored, p.(pc := Publishing(p.pc.job, stored)))
    else Silent(stored, Failing(p, p.pc.job))
  }

  /** The status event a write's own status is published as. */
  function FinalTold(persisted: Task): StatusEvent {
    Authoritative(StatusEvent(persisted.status, Some(true)), persisted)
  }

  function DoPublish(stored: Task, p: Pump): Move
    requires p.pc.Publishing?
  {
    var t := p.pc.persisted;
    var terminal := IsTerminal(t.status.state);
    var q := p.(reachedTerminal := p.reachedTerminal || terminal);
    match p.pc.job
    case ForEvent(StatusUpdate(event, _, _)) =>
      var told := Authoritative(event, t);
      Move(stored, q.(pending := None, ended := p.ended || EndsInteraction(told),
                      pc := if terminal && t.status.state != event.status.state then AtRetry else Loop),
           Some(StatusTold(told)), false)
    case ForEvent(ArtifactUpdate(artifact, append)) =>
      if terminal then Move(stored, q.(ended := true, pc := AtRetry), Some(StatusTold(FinalTold(t))), false)
      else Move(stored, p.(pc := Loop), Some(ArtifactTold(artifact, append)), false)
    case ForLatest =>
      Move(stored, p.(ended := true, pc := AtRetry), Some(StatusTold(StatusEvent(t.status, Some(true)))), false)
    case ForExhausted => Move(stored, q.(ended := true, pc := AtRetry), Some(StatusTold(FinalTold(t))), false)
    case ForRetry(event, _) =>
      var told := Authoritative(event, t);
      Move(stored, q.(ended := p.ended || EndsInteraction(told), pc := AtFailure), Some(StatusTold(told)), false)
    case ForFailure =>
      Move(stored, q.(ended := true, failure := None, pc := AtAbort), Some(StatusTold(FinalTold(t))), false)
    case ForAbort => Move(stored, q.(ended := true, pc := AtClose), Some(StatusTold(FinalTold(t))), false)
  }

  /** After exhaustion: a task left waiting for input ends the interaction. */
  function DoReadLatest(stored: Task, p: Pump, readable: bool): Move {
    if p.ended then Silent(stored, p.(pc := AtRetry))
    else if !readable then Silent(stored, p.(pc := AtRetry, failure := Some("store"), faults := p.faults + 1))
    else if stored.status.state == InputRequired || stored.status.state == AuthRequired then
      Silent(stored, p.(pc := Publishing(ForLatest, stored)))
    else Silent(stored, p.(pc := Writing(ForExhausted)))
  }

  function DoStage(stored: Task, p: Pump): Move {
    if p.pc.AtRetry? then
      Silent(stored, p.(pc := if p.pending.Some? then Writing(ForRetry(p.pending.value.0, p.pending.value.1))
          else AtFailure))
    else if p.pc.AtFailure? then
      Silent(stored, p.(pc := if !p.ended && p.failure.Some? then Writing(ForFailure) else AtAbort))
    else if p.pc.AtAbort? then
      Silent(stored, p.(pc := if !p.ended && p.failure.None? then Writing(ForAbort) else AtClose))
    else Move(stored, p.(pc := Returned), None, p.reachedTerminal || p.failure.Some?)
  }

  function Do(prior: seq<Artifact>, stored: Task, p: Pump, step: Step): Move
    requires Enabled(p, step)
  {
    match step
    case Emit(e) => DoEmit(prior, stored, p, e)
    case Exhaust => Silent(stored, p.(pc := Drained))
    case Throw(error) => Silent(stored, p.(pc := AtRetry, failure := error, threw := true))
    case Write(outcome) => DoWrite(stored, p, outcome)
    case Recover(readable) => DoRecover(stored, p, readable)
    case Publish => DoPublish(stored, p)
    case ReadLatest(readable) => DoReadLatest(stored, p, readable)
    case Stage => DoStage(stored, p)
  }

  function Begin(task: Task): Pump {
    Pump(Loop, Start(task, 0), None, false, false, None, false, false, 0, false)
  }

  // ---- What holds between steps -----------------------------------------------------------

  /** What anybody else's write may do to the record: nothing once it is terminal, and
      otherwise only stop the task. */
  predicate Evolves(a: Task, b: Task) {
    b.status == a.status || (!IsTerminal(a.status.state) && IsSettled(b.status.state))
  }

  /** More than one store call failed, or the generator threw and the one closing write
      was lost. */
  predicate Excused(p: Pump) {
    p.faults > 1 || (p.threw && p.lost)
  }

  predicate Settled(task: Task) {
    IsSettled(task.status.state)
  }

  /** The status a job was published with: its own, unless a terminal one had won. */
  predicate Carries(job: Job, t: Task) {
    match job
    case ForEvent(StatusUpdate(event, _, _)) => t.status == event.status || IsTerminal(t.status.state)
    case ForEvent(ArtifactUpdate(_, _)) => true
    case ForLatest => Settled(t) && !IsTerminal(t.status.state)
    case ForRetry(event, _) => t.status == event.status || IsTerminal(t.status.state)
    case _ => IsTerminal(t.status.state)
  }

  predicate PendingFor(p: Pump, job: Job) {
    match job
    case ForEvent(e) =>
      && (p.pending.Some? <==> e.StatusUpdate? && EndsInteraction(e.event))
      && (p.pending.Some? ==> p.pending.value.0 == e.event) && Proper(e)
      && (p.quiet <==> p.pending.Some?) && !p.ended
    case ForRetry(event, update) => IsSettled(event.status.state) && update.status == Some(event.status)
    case _ => !p.ended
  }

  predicate InFinally(pc: Pc) {
    || pc.AtRetry? || pc.AtFailure? || pc.AtAbort? || pc.AtClose? || pc.Returned?
    || ((pc.Writing? || pc.Recovering? || pc.Publishing?) && (pc.job.ForRetry? || pc.job.ForFailure?
        || pc.job.ForAbort?))
  }

  predicate PendingHeld(p: Pump) {
    p.pending.Some? ==>
      var (event, update) := p.pending.value;
      IsSettled(event.status.state) && update.status == Some(event.status)
  }

  /** The write ahead, if the record is not settled yet. */
  predicate StageOk(stored: Task, p: Pump) {
    match p.pc
    case Loop => p.pending.None? && (p.quiet <==> p.ended)
    case Drained => p.pending.None?
    case Writing(job) =>
      && PendingFor(p, job) && !job.ForLatest?
      && (job.ForRetry? && !Settled(stored) ==> p.faults >= 1)
      && (job.ForFailure? ==> p.failure.Some?)
      && (job.ForAbort? && !Settled(stored) ==> p.threw)
    case Recovering(job) =>
      && PendingFor(p, job) && !job.ForLatest?
      && (!Settled(stored) ==> p.faults >= 1)
      && (job.ForRetry? && !Settled(stored) ==> p.faults > 1)
      && ((job.ForFailure? || job.ForAbort?) && !Settled(stored) ==> Excused(p))
    case Publishing(job, t) =>
      && PendingFor(p, job) && Carries(job, t)
      && (IsTerminal(t.status.state) ==> stored.status == t.status)
      && (p.reachedTerminal ==> stored.status == t.status)
      && (Settled(t) ==> Settled(stored))
    case AtRetry => p.pending.Some? && !Settled(stored) ==> p.faults >= 1
    case AtFailure => true
    case AtAbort => Settled(stored) || Excused(p) || (!p.ended && p.failure.None?)
    case AtClose => Settled(stored) || Excused(p)
    case Returned => Settled(stored) || Excused(p)
  }

  predicate Good(stored: Task, p: Pump) {
    && StageOk(stored, p) && PendingHeld(p)
    && (p.ended ==> Settled(stored))
    && (p.reachedTerminal ==> IsTerminal(stored.status.state) && p.ended)
    && (InFinally(p.pc) && !p.ended && p.failure.None? ==> p.threw)
    && (InFinally(p.pc) && p.failure.Some? && !Settled(stored) && p.faults == 0 ==> p.threw)
  }

  // ---- Every step keeps it ------------------------------------------------------------------

  lemma BeginGood(task: Task)
    ensures Good(task, Begin(task))
  {
  }

  /** Writes by others. */
  lemma EvolveKeeps(a: Task, b: Task, p: Pump)
    requires Good(a, p) && Evolves(a, b)
    ensures Good(b, p)
  {
    assert IsTerminal(a.status.state) ==> b.status == a.status;
    assert Settled(a) ==> Settled(b);
  }

  lemma EmitKeeps(prior: seq<Artifact>, stored: Task, p: Pump, e: Emission)
    requires Good(stored, p) && Enabled(p, Emit(e))
    ensures var m := DoEmit(prior, stored, p, e); Good(m.stored, m.pump)
  {
  }

  lemma UpdateSettles(p: Pump, job: Job)
    requires PendingFor(p, job) && !job.ForEvent? && !job.ForLatest?
    ensures UpdateFor(p, job).status.Some? && IsSettled(UpdateFor(p, job).status.value.state)
  {
  }

  lemma EventWriteKeeps(stored: Task, p: Pump)
    requires Good(stored, p) && p.pc.Writing? && p.pc.job.ForEvent?
    ensures var m := DoWrite(stored, p, Healthy); Good(m.stored, m.pump)
  {
  }

  lemma RetryWriteKeeps(stored: Task, p: Pump)
    requires Good(stored, p) && p.pc.Writing? && p.pc.job.ForRetry?
    ensures var m := DoWrite(stored, p, Healthy); Good(m.stored, m.pump)
  {
    if !Refuses(stored, UpdateFor(p, p.pc.job)) {
      assert DoWrite(stored, p, Healthy).stored.status == p.pc.job.event.status;
    }
  }

  lemma ClosingWriteKeeps(stored: Task, p: Pump)
    requires Good(stored, p) && p.pc.Writing? && !p.pc.job.ForEvent? && !p.pc.job.ForRetry?
    ensures var m := DoWrite(stored, p, Healthy); Good(m.stored, m.pump)
  {
    UpdateSettles(p, p.pc.job);
  }

  lemma FaultyWriteKeeps(stored: Task, p: Pump, landed: bool)
    requires Good(stored, p) && p.pc.Writing?
    ensures var m := DoWrite(stored, p, Faulty(landed)); Good(m.stored, m.pump)
  {
    if !p.pc.job.ForEvent? {
      UpdateSettles(p, p.pc.job);
    }
  }

  lemma FailingKeeps(stored: Task, p: Pump)
    requires Good(stored, p) && p.pc.Recovering?
    ensures Good(stored, Failing(p, p.pc.job))
  {
  }

  lemma RecoverKeeps(stored: Task, p: Pump, readable: bool)
    requires Good(stored, p) && p.pc.Recovering?
    ensures var m := DoRecover(stored, p, readable); Good(m.stored, m.pump)
  {
    FailingKeeps(stored, p);
  }

  lemma PublishStatusKeeps(stored: Task, p: Pump)
    requires Good(stored, p) && p.pc.Publishing? && p.pc.job.ForEvent? && p.pc.job.e.StatusUpdate?
    ensures var m := DoPublish(stored, p); Good(m.stored, m.pump)
  {
  }

  lemma PublishRetryKeeps(stored: Task, p: Pump)
    requires Good(stored, p) && p.pc.Publishing? && p.pc.job.ForRetry?
    ensures var m := DoPublish(stored, p); Good(m.stored, m.pump)
  {
  }

  lemma PublishOtherKeeps(stored: Task, p: Pump)
    requires Good(stored, p) && p.pc.Publishing? && !p.pc.job.ForRetry?
    requires p.pc.job.ForEvent? ==> p.pc.job.e.ArtifactUpdate?
    ensures var m := DoPublish(stored, p); Good(m.stored, m.pump)
  {
  }

  lemma ReadLatestKeeps(stored: Task, p: Pump, readable: bool)
    requires Good(stored, p) && p.pc.Drained?
    ensures var m := DoReadLatest(stored, p, readable); Good(m.stored, m.pump)
  {
  }

  lemma StageKeeps(stored: Task, p: Pump)
    requires Good(stored, p) && Enabled(p, Stage)
    ensures var m := DoStage(stored, p); Good(m.stored, m.pump)
  {
  }

  lemma WriteKeeps(stored: Task, p: Pump, outcome: Outcome)
    requires Good(stored, p) && p.pc.Writing?
    ensures var m := DoWrite(stored, p, outcome); Good(m.stored, m.pump)
  {
    if outcome.Faulty? {
      FaultyWriteKeeps(stored, p, outcome.landed);
    } else if p.pc.job.ForEvent? {
      EventWriteKeeps(stored, p);
    } else if p.pc.job.ForRetry? {
      RetryWriteKeeps(stored, p);
    } else {
      ClosingWriteKeeps(stored, p);
    }
  }

  lemma PublishKeeps(stored: Task, p: Pump)
    requires Good(stored, p) && p.pc.Publishing?
    ensures var m := DoPublish(stored, p); Good(m.stored, m.pump)
  {
    if p.pc.job.ForRetry? {
      PublishRetryKeeps(stored, p);
    } else if p.pc.job.ForEvent? && p.pc.job.e.StatusUpdate? {
      PublishStatusKeeps(stored, p);
    } else {
      PublishOtherKeeps(stored, p);
    }
  }

  lemma StepKeeps(prior: seq<Artifact>, stored: Task, p: Pump, step: Step)
    requires Good(stored, p) && Enabled(p, step)
    ensures var m := Do(prior, stored, p, step); Good(m.stored, m.pump)
  {
    match step
    case Emit(e) => EmitKeeps(prior, stored, p, e);
    case Exhaust =>
    case Throw(_) =>
    case Write(outcome) => WriteKeeps(stored, p, outcome);
    case Recover(readable) => RecoverKeeps(stored, p, readable);
    case Publish => PublishKeeps(stored, p);
    case ReadLatest(readable) => ReadLatestKeeps(stored, p, readable);
    case Stage => StageKeeps(stored, p);
  }

  /** A closing write stores everything accumulated, also what an event's own lost write did
      not; with nothing accumulated the stored list stays. */
  lemma ClosingWriteCarriesAll(stored: Task, p: Pump)
    requires p.pc.Writing? && (p.pc.job.ForExhausted? || p.pc.job.ForFailure? || p.pc.job.ForAbort?)
    requires !IsTerminal(stored.status.state)
    ensures DoWrite(stored, p, Healthy).stored.artifacts
            == if p.fold.artifacts != [] then Some(p.fold.artifacts) else stored.artifacts
  {
  }

  // ---- What a step does to others --------------------------------------------------------

  /** The pump never overwrites a terminal status either. */
  lemma StepRespectsTerminal(prior: seq<Artifact>, stored: Task, p: Pump, step: Step)
    requires Enabled(p, step)
    ensures IsTerminal(stored.status.state) ==> Do(prior, stored, p, step).stored.status == stored.status
  {
  }

  /** What is published is the status its write or read was answered with; a terminal status
      is published only once it is the stored one, every status published
      after the pump has seen a terminal record is that record's, and a status published
      as ending leaves the interaction ended. */
  lemma StepTells(prior: seq<Artifact>, stored: Task, p: Pump, step: Step)
    requires Good(stored, p) && Enabled(p, step)
    ensures var m := Do(prior, stored, p, step);
            m.told.Some? && m.told.value.StatusTold? ==>
              && m.stored == stored && p.pc.Publishing? && m.told.value.event.status == p.pc.persisted.status
              && (IsTerminal(m.told.value.event.status.state) ==>
                    m.told.value.event.status == stored.status && m.pump.reachedTerminal)
              && (p.reachedTerminal ==> m.told.value.event.status == stored.status)
              && (EndsInteraction(m.told.value.event) ==> m.pump.ended && IsSettled(m.told.value.event.status.state))
  {
  }

  /** The bus is closed only after the interaction settled, or in an excused run. */
  lemma StepCloses(prior: seq<Artifact>, stored: Task, p: Pump, step: Step)
    requires Good(stored, p) && Enabled(p, step)
    ensures var m := Do(prior, stored, p, step);
            m.closes ==> m.pump.pc.Returned? && (Settled(m.stored) || Excused(m.pump))
  {
  }

  lemma StepRemembers(prior: seq<Artifact>, stored: Task, p: Pump, step: Step)
    requires Enabled(p, step)
    ensures p.reachedTerminal ==> Do(prior, stored, p, step).pump.reachedTerminal
  {
  }

  // ---- Stored before published -------------------------------------------------------------

  /** The list carries the artifact as it was emitted. */
  predicate Carried(xs: seq<Artifact>, artifact: Artifact, append: bool) {
    exists x | x in xs :: Reflects(x, artifact, append)
  }

  predicate InRecord(t: Task, artifact: Artifact, append: bool) {
    t.artifacts.Some? && Carried(t.artifacts.value, artifact, append)
  }

  /** The artifact in hand is in the list being written, and once written in the record. */
  predicate InHand(p: Pump) {
    (p.pc.Writing? || p.pc.Recovering? || p.pc.Publishing?) && p.pc.job.ForEvent? && p.pc.job.e.ArtifactUpdate? ==>
      var e := p.pc.job.e;
      && Carried(p.fold.artifacts, e.artifact, e.append)
      && (p.pc.Publishing? ==>
            IsTerminal(p.pc.persisted.status.state) || InRecord(p.pc.persisted, e.artifact, e.append))
  }

  lemma EmitTakesInHand(prior: seq<Artifact>, stored: Task, p: Pump, e: Emission)
    ensures InHand(DoEmit(prior, stored, p, e).pump)
  {
    if e.ArtifactUpdate? {
      UpdateReflects(p.fold.artifacts, e.artifact, e.append);
    }
  }

  lemma WriteKeepsInHand(stored: Task, p: Pump, outcome: Outcome)
    requires InHand(p) && p.pc.Writing?
    ensures InHand(DoWrite(stored, p, outcome).pump)
  {
  }

  lemma RecoverKeepsInHand(stored: Task, p: Pump, readable: bool)
    requires InHand(p) && p.pc.Recovering?
    ensures InHand(DoRecover(stored, p, readable).pump)
  {
  }

  lemma PublishMovesOn(stored: Task, p: Pump)
    requires p.pc.Publishing?
    ensures var pc := DoPublish(stored, p).pump.pc; !pc.Writing? && !pc.Recovering? && !pc.Publishing?
  {
  }

  lemma StageKeepsInHand(stored: Task, p: Pump)
    requires Enabled(p, Stage)
    ensures InHand(DoStage(stored, p).pump)
  {
  }

  lemma StepKeepsInHand(prior: seq<Artifact>, stored: Task, p: Pump, step: Step)
    requires InHand(p) && Enabled(p, step)
    ensures InHand(Do(prior, stored, p, step).pump)
  {
    match step
    case Emit(e) => EmitTakesInHand(prior, stored, p, e);
    case Write(outcome) => WriteKeepsInHand(stored, p, outcome);
    case Publish => PublishMovesOn(stored, p);
    case Recover(readable) => RecoverKeepsInHand(stored, p, readable);
    case Stage => StageKeepsInHand(stored, p);
    case Exhaust =>
    case Throw(_) =>
    case ReadLatest(_) =>
  }

  lemma InHandIsStored(prior: seq<Artifact>, stored: Task, p: Pump, step: Step)
    requires InHand(p) && Enabled(p, step)
    ensures var m := Do(prior, stored, p, step);
            m.told.Some? && m.told.value.ArtifactTold? ==>
              p.pc.Publishing? && InRecord(p.pc.persisted, m.told.value.artifact, m.told.value.append)
  {
  }

  /** A status is published as its write or read was answered. */
  lemma StepTold(prior: seq<Artifact>, stored: Task, p: Pump, step: Step)
    requires Enabled(p, step)
    ensures var m := Do(prior, stored, p, step);
            m.told.Some? ==>
              p.pc.Publishing? && (m.told.value.StatusTold? ==> m.told.value.event.status == p.pc.persisted.status)
  {
  }

  /** What the pump is about to publish is the store's answer to the step before. */
  lemma StepAnswers(prior: seq<Artifact>, stored: Task, p: Pump, step: Step)
    requires Enabled(p, step)
    ensures var m := Do(prior, stored, p, step);
            m.pump.pc.Publishing? ==> m.pump.pc.persisted == m.stored
  {
    match step
    case Publish => PublishMovesOn(stored, p);
    case Write(Healthy) =>
    case Write(Faulty(_)) =>
    case Recover(_) =>
    case ReadLatest(_) =>
    case Stage =>
    case Emit(_) =>
    case Throw(_) =>
    case Exhaust =>
  }
}
