/** One streaming turn with everything that races it: the pump, any number of `tasks/cancel`
    and `tasks/resubscribe` calls, and failing store calls (transport/request-handler.ts). */
module PumpProtocol {
  import opened Options
  import opened Artifacts
  import opened Tasks
  import opened StreamFold
  import Machine = PumpMachine

  /** A `tasks/cancel` call: its snapshot, the failed or refused write it re-reads after,
      or its verdict. */
  datatype Cancel =
    | Looked(snapshot: Task)
    | Rereading(requested: Status)
    | Succeeded(requested: Status)
    | NotCancelable(stored: TaskState)
    | StoreError

  /** A `tasks/resubscribe` call. By the bus's exact delivery (module TaskEventBus) an
      attached subscriber is the events it has not taken yet and whether its channel ended. */
  datatype Reader =
    | Snapped(task: Task)
    | Attached(inbox: seq<TaskEvent>, shut: bool, got: seq<TaskEvent>)
    | Asking(got: seq<TaskEvent>)
    | Answered(got: seq<TaskEvent>)
    | GaveUp(got: seq<TaskEvent>)

  /** `completed`: the pump returned and its entry in `activeStreamExecutions` is gone. */
  datatype System = System(
    prior: seq<Artifact>, stored: Task, pump: Machine.Pump, completed: bool,
    published: seq<TaskEvent>, cancels: seq<Cancel>, readers: seq<Reader>)

  datatype Action =
    | PumpStep(step: Machine.Step)
    | Complete
    | Look
    | CancelWrite(i: nat, requested: Status, outcome: Machine.Outcome)
    | Reread(i: nat, readable: bool)
    | Snap
    | Attach(i: nat)
    | Take(i: nat)
    | Ask(i: nat)

  function Begin(task: Task): System {
    System(PriorOf(task), task, Machine.Begin(task), false, [], [], [])
  }

  predicate Enabled(s: System, a: Action) {
    match a
    case PumpStep(step) => Machine.Enabled(s.pump, step)
    case Complete => s.pump.pc.Returned? && !s.completed
    case Look => true
    case CancelWrite(i, requested, _) => i < |s.cancels| && s.cancels[i].Looked? && IsSettled(requested.state)
    case Reread(i, _) => i < |s.cancels| && s.cancels[i].Rereading?
    case Snap => true
    case Attach(i) => i < |s.readers| && s.readers[i].Snapped?
    case Take(i) =>
      i < |s.readers| && s.readers[i].Attached? && (s.readers[i].inbox != [] || s.readers[i].shut)
    case Ask(i) => i < |s.readers| && s.readers[i].Asking?
  }

  // ---- Resubscribers ------------------------------------------------------------------------

  function Hear(r: Reader, told: Option<TaskEvent>, closes: bool): Reader {
    if !r.Attached? || r.shut then r
    else r.(inbox := if told.Some? then r.inbox + [told.value] else r.inbox, shut := closes)
  }

  function HearAll(rs: seq<Reader>, told: Option<TaskEvent>, closes: bool): seq<Reader> {
    seq(|rs|, i requires 0 <= i < |rs| => Hear(rs[i], told, closes))
  }

  function FinalEvent(task: Task): TaskEvent {
    StatusTold(StatusEvent(task.status, Some(true)))
  }

  /** The guard after the first store read: an ended interaction is answered at once. */
  function Attaching(s: System, t: Task): Reader {
    if IsTerminal(t.status.state) || ((s.completed || s.pump.ended) && IsSettled(t.status.state))
        then Answered([FinalEvent(t)])
    else if s.completed then Asking([])
    else Attached([], false, [])
  }

  predicate Ends(e: TaskEvent) {
    e.StatusTold? && EndsInteraction(e.event)
  }

  function Taking(r: Reader): Reader
    requires r.Attached?
  {
    if r.inbox == [] then Asking(r.got)
    else if Ends(r.inbox[0]) then Answered(r.got + [r.inbox[0]])
    else Attached(r.inbox[1..], r.shut, r.got + [r.inbox[0]])
  }

  /** The recovery read: a stopped task's status, or an error once the execution is over. */
  function Asked(stored: Task, got: seq<TaskEvent>): Reader {
    if IsSettled(stored.status.state) then Answered(got + [FinalEvent(stored)]) else GaveUp(got)
  }

  // ---- Cancel calls -------------------------------------------------------------------------

  function CancelUpdate(snapshot: Task, requested: Status): TaskUpdate {
    UpdateFrom(snapshot.(status := requested))
  }

  function Judge(requested: Status, persisted: Task): Cancel {
    if persisted.status.state != requested.state || !IsTerminal(persisted.status.state)
    then NotCancelable(persisted.status.state) else Succeeded(requested)
  }

  function CancelStored(stored: Task, update: TaskUpdate, outcome: Machine.Outcome): Task {
    if outcome.Healthy? || outcome.landed then Persisted(stored, update) else stored
  }

  function Canceling(stored: Task, update: TaskUpdate, requested: Status, outcome: Machine.Outcome): Cancel {
    if outcome.Faulty? || Refuses(stored, update) then Rereading(requested)
        else Judge(requested, Updated(stored, update))
  }

  function Do(s: System, a: Action): System
    requires Enabled(s, a)
  {
    match a
    case PumpStep(step) =>
      var m := Machine.Do(s.prior, s.stored, s.pump, step);
      s.(stored := m.stored, pump := m.pump, readers := HearAll(s.readers, m.told, m.closes),
         published := if m.told.Some? then s.published + [m.told.value] else s.published)
    case Complete => s.(completed := true, readers := HearAll(s.readers, None, true))
    case Look =>
      s.(cancels := s.cancels + [if IsTerminal(s.stored.status.state) then NotCancelable(s.stored.status.state)
                                 else Looked(s.stored)])
    case CancelWrite(i, requested, outcome) =>
      var update := CancelUpdate(s.cancels[i].snapshot, requested);
      s.(stored := CancelStored(s.stored, update, outcome),
         cancels := s.cancels[i := Canceling(s.stored, update, requested, outcome)])
    case Reread(i, readable) =>
      s.(cancels := s.cancels[i := if readable && IsTerminal(s.stored.status.state)
                                   then Judge(s.cancels[i].requested, s.stored) else StoreError])
    case Snap => s.(readers := s.readers + [Snapped(s.stored)])
    case Attach(i) => s.(readers := s.readers[i := Attaching(s, s.readers[i].task)])
    case Take(i) => s.(readers := s.readers[i := Taking(s.readers[i])])
    case Ask(i) => s.(readers := s.readers[i := Asked(s.stored, s.readers[i].got)])
  }

  ghost predicate Runs(s: System, actions: seq<Action>)
    decreases |actions|
  {
    actions != [] ==> Enabled(s, actions[0]) && Runs(Do(s, actions[0]), actions[1..])
  }

  ghost function After(s: System, actions: seq<Action>): System
    requires Runs(s, actions)
    decreases |actions|
  {
    if actions == [] then s else After(Do(s, actions[0]), actions[1..])
  }

  // ---- What holds in every reachable state ---------------------------------------------------

  predicate Agrees(e: TaskEvent, stored: Task) {
    e.StatusTold? && IsTerminal(e.event.status.state) ==> e.event.status == stored.status
  }

  predicate AllAgree(es: seq<TaskEvent>, stored: Task) {
    forall e | e in es :: Agrees(e, stored)
  }

  predicate NoneEnds(es: seq<TaskEvent>) {
    forall e | e in es :: !Ends(e)
  }

  /** One ending status, last; if terminal it is the stored one. */
  predicate ProperAnswer(got: seq<TaskEvent>, stored: Task) {
    got != [] && Ends(got[|got| - 1]) && NoneEnds(got[..|got| - 1]) && AllAgree(got, stored)
  }

  predicate ReaderOk(stored: Task, pump: Machine.Pump, completed: bool, r: Reader) {
    match r
    case Snapped(t) => IsTerminal(t.status.state) ==> t.status == stored.status
    case Attached(inbox, shut, got) =>
      && AllAgree(inbox, stored) && AllAgree(got, stored) && NoneEnds(got)
      && (shut ==> pump.pc.Returned?) && (completed ==> shut)
    case Asking(got) => AllAgree(got, stored) && NoneEnds(got) && pump.pc.Returned?
    case Answered(got) => ProperAnswer(got, stored)
    case GaveUp(_) => pump.pc.Returned? && Machine.Excused(pump)
  }

  predicate CancelOk(stored: Task, c: Cancel) {
    c.Succeeded? ==> IsTerminal(stored.status.state) && stored.status.state == c.requested.state
  }

  /** After a terminal status only that status is published. */
  predicate OneWinner(published: seq<TaskEvent>) {
    forall i, j | 0 <= i < j < |published|
        && published[i].StatusTold? && IsTerminal(published[i].event.status.state) && published[j].StatusTold? ::
      published[j].event.status == published[i].event.status
  }

  predicate TerminalSeen(published: seq<TaskEvent>, pump: Machine.Pump) {
    forall e | e in published :: e.StatusTold? && IsTerminal(e.event.status.state) ==> pump.reachedTerminal
  }

  predicate Inv(s: System) {
    && Machine.Good(s.stored, s.pump)
    && AllAgree(s.published, s.stored) && TerminalSeen(s.published, s.pump) && OneWinner(s.published)
    && (s.completed ==> s.pump.pc.Returned?)
    && (forall i | 0 <= i < |s.readers| :: ReaderOk(s.stored, s.pump, s.completed, s.readers[i]))
    && (forall i | 0 <= i < |s.cancels| :: CancelOk(s.stored, s.cancels[i]))
  }

  lemma WinnerAfter(published: seq<TaskEvent>, told: TaskEvent, stored: Task, p: Machine.Pump)
    requires AllAgree(published, stored) && TerminalSeen(published, p) && OneWinner(published)
    requires told.StatusTold? && p.reachedTerminal ==> told.event.status == stored.status
    ensures OneWinner(published + [told])
  {
    forall i | 0 <= i < |published| && published[i].StatusTold? && IsTerminal(published[i].event.status.state)
      ensures published[i].event.status == stored.status && p.reachedTerminal
    {
      assert published[i] in published && Agrees(published[i], stored);
    }
  }

  lemma PublishedAfter(s: System, m: Machine.Move, step: Machine.Step)
    requires Inv(s) && Machine.Enabled(s.pump, step) && m == Machine.Do(s.prior, s.stored, s.pump, step)
    ensures var published := if m.told.Some? then s.published + [m.told.value] else s.published;
            AllAgree(published, m.stored) && TerminalSeen(published, m.pump) && OneWinner(published)
    ensures m.told.Some? ==> Agrees(m.told.value, m.stored)
  {
    Machine.StepTells(s.prior, s.stored, s.pump, step);
    Machine.StepRespectsTerminal(s.prior, s.stored, s.pump, step);
    Machine.StepRemembers(s.prior, s.stored, s.pump, step);
    if m.told.Some? {
      WinnerAfter(s.published, m.told.value, s.stored, s.pump);
    }
  }

  lemma PumpStepKeeps(s: System, step: Machine.Step)
    requires Inv(s) && Machine.Enabled(s.pump, step)
    ensures Inv(Do(s, PumpStep(step)))
  {
    var m := Machine.Do(s.prior, s.stored, s.pump, step);
    Machine.StepKeeps(s.prior, s.stored, s.pump, step);
    Machine.StepRespectsTerminal(s.prior, s.stored, s.pump, step);
    Machine.StepCloses(s.prior, s.stored, s.pump, step);
    PublishedAfter(s, m, step);
    forall i | 0 <= i < |s.readers|
      ensures ReaderOk(m.stored, m.pump, s.completed, Hear(s.readers[i], m.told, m.closes))
    {
    }
    forall i | 0 <= i < |s.cancels| ensures CancelOk(m.stored, s.cancels[i]) {
      assert CancelOk(s.stored, s.cancels[i]);
    }
  }

  lemma ReaderStepOk(s: System, i: nat, a: Action)
    requires Inv(s) && Enabled(s, a) && (a == Attach(i) || a == Take(i) || a == Ask(i))
    ensures ReaderOk(s.stored, s.pump, s.completed, Do(s, a).readers[i])
  {
    assert ReaderOk(s.stored, s.pump, s.completed, s.readers[i]);
  }

  lemma CancelWriteKeeps(s: System, i: nat, requested: Status, outcome: Machine.Outcome)
    requires Inv(s) && Enabled(s, CancelWrite(i, requested, outcome))
    ensures Inv(Do(s, CancelWrite(i, requested, outcome)))
  {
    Machine.EvolveKeeps(s.stored, Do(s, CancelWrite(i, requested, outcome)).stored, s.pump);
  }

  lemma ActionKeeps(s: System, a: Action)
    requires Inv(s) && Enabled(s, a)
    ensures Inv(Do(s, a))
  {
    match a
    case PumpStep(step) => PumpStepKeeps(s, step);
    case Complete =>
    case CancelWrite(i, requested, outcome) => CancelWriteKeeps(s, i, requested, outcome);
    case Look =>
    case Reread(i, readable) =>
    case Snap =>
    case Attach(i) => ReaderStepOk(s, i, a);
    case Take(i) => ReaderStepOk(s, i, a);
    case Ask(i) => ReaderStepOk(s, i, a);
  }

  lemma {:induction false} RunKeeps(s: System, actions: seq<Action>)
    requires Inv(s) && Runs(s, actions)
    ensures Inv(After(s, actions))
    decreases |actions|
  {
    if actions != [] {
      ActionKeeps(s, actions[0]);
      RunKeeps(Do(s, actions[0]), actions[1..]);
    }
  }

  lemma Reachable(task: Task, actions: seq<Action>)
    requires Runs(Begin(task), actions)
    ensures Inv(After(Begin(task), actions))
  {
    Machine.BeginGood(task);
    RunKeeps(Begin(task), actions);
  }

  // ---- The theorems ---------------------------------------------------------------------------

  /** Convergence: once the pump has returned, the stored task is terminal or waits for
      input, whatever cancels and faults were interleaved, unless more than one of the
      pump's store calls failed or the executor's generator threw and the one write that
      records it was lost. */
  lemma Converges(task: Task, actions: seq<Action>)
    requires Runs(Begin(task), actions)
    ensures var s := After(Begin(task), actions);
            s.pump.pc.Returned? ==>
              IsSettled(s.stored.status.state) || s.pump.faults > 1 || (s.pump.threw && s.pump.lost)
  {
    Reachable(task, actions);
  }

  /** A stored terminal status never changes. */
  lemma {:induction false} TerminalStays(s: System, actions: seq<Action>)
    requires Runs(s, actions) && IsTerminal(s.stored.status.state)
    ensures After(s, actions).stored.status == s.stored.status
    decreases |actions|
  {
    if actions != [] {
      var t := Do(s, actions[0]);
      if actions[0].PumpStep? {
        Machine.StepRespectsTerminal(s.prior, s.stored, s.pump, actions[0].step);
      }
      TerminalStays(t, actions[1..]);
    }
  }

  /** One terminal winner: every published terminal status is the stored one, every status
      published after it is the same, and a cancel that succeeded asked for the state the
      task is in. */
  lemma OneTerminalWinner(task: Task, actions: seq<Action>)
    requires Runs(Begin(task), actions)
    ensures var s := After(Begin(task), actions);
            && OneWinner(s.published)
            && (forall e | e in s.published :: e.StatusTold? && IsTerminal(e.event.status.state) ==>
                e.event.status == s.stored.status)
            && (forall i | 0 <= i < |s.cancels| && s.cancels[i].Succeeded? ::
                  IsTerminal(s.stored.status.state) && s.stored.status.state == s.cancels[i].requested.state)
  {
    Reachable(task, actions);
    var s := After(Begin(task), actions);
    forall e | e in s.published ensures Agrees(e, s.stored) {
    }
    forall i | 0 <= i < |s.cancels| ensures CancelOk(s.stored, s.cancels[i]) {
    }
  }

  lemma {:induction false} RunKeepsInHand(s: System, actions: seq<Action>)
    requires Machine.InHand(s.pump) && Runs(s, actions)
    ensures Machine.InHand(After(s, actions).pump)
    decreases |actions|
  {
    if actions != [] {
      if actions[0].PumpStep? {
        Machine.StepKeepsInHand(s.prior, s.stored, s.pump, actions[0].step);
      }
      RunKeepsInHand(Do(s, actions[0]), actions[1..]);
    }
  }

  /** The record carries what the event says: its status, or its artifact's content. */
  predicate Bears(t: Task, e: TaskEvent) {
    if e.StatusTold? then e.event.status == t.status else Machine.InRecord(t, e.artifact, e.append)
  }

  /** Every record the store has held, in order. */
  ghost function Held(s: System, actions: seq<Action>): seq<Task>
    requires Runs(s, actions)
    decreases |actions|
  {
    [s.stored] + if actions == [] then [] else Held(Do(s, actions[0]), actions[1..])
  }

  /** What the pump is about to publish is a record the store has held. */
  lemma {:induction false} RunAnswers(s: System, actions: seq<Action>)
    requires Runs(s, actions) && After(s, actions).pump.pc.Publishing?
    ensures || After(s, actions).pump.pc.persisted in Held(s, actions)
            || After(s, actions).pump.pc == s.pump.pc
    decreases |actions|
  {
    if actions != [] {
      var t := Do(s, actions[0]);
      RunAnswers(t, actions[1..]);
      if actions[0].PumpStep? {
        Machine.StepAnswers(s.prior, s.stored, s.pump, actions[0].step);
      }
    }
  }

  /** Stored before published, in every run: whatever is published, a record the store has
      held carries it: the same status, and an artifact with that content (for an appended
      chunk, one that ends with it). */
  lemma StoredBeforePublished(task: Task, actions: seq<Action>, step: Machine.Step)
    requires Runs(Begin(task), actions) && Machine.Enabled(After(Begin(task), actions).pump, step)
    ensures var s := After(Begin(task), actions);
            var told := Machine.Do(s.prior, s.stored, s.pump, step).told;
            told.Some? ==>
              exists t | t in Held(Begin(task), actions) :: Bears(t, told.value)
  {
    RunKeepsInHand(Begin(task), actions);
    var s := After(Begin(task), actions);
    Machine.InHandIsStored(s.prior, s.stored, s.pump, step);
    Machine.StepTold(s.prior, s.stored, s.pump, step);
    if s.pump.pc.Publishing? {
      RunAnswers(Begin(task), actions);
      assert Bears(s.pump.pc.persisted, Machine.Do(s.prior, s.stored, s.pump, step).told.value);
    }
  }

  /** The bus is closed as the pump returns exactly when a terminal record was seen or an error
      is left over: once a terminal status was published every attached resubscriber's
      channel ends with the pump's last step. */
  lemma TerminalClosesChannels(s: System, i: nat)
    requires Inv(s) && s.pump.pc.AtClose? && i < |s.readers| && s.readers[i].Attached?
    requires Enabled(s, PumpStep(Machine.Stage))
    ensures var t := Do(s, PumpStep(Machine.Stage));
            && t.readers[i].Attached?
            && (t.readers[i].shut <==> s.readers[i].shut || s.pump.reachedTerminal || s.pump.failure.Some?)
            && ((exists e | e in s.published :: e.StatusTold? && IsTerminal(e.event.status.state)) ==>
                  t.readers[i].shut)
  {
    assert TerminalSeen(s.published, s.pump);
  }

  /** A resubscriber that read a settled task is answered with its status as it attaches, not
      left waiting, whenever the interaction or the execution has ended, or the status is
      terminal. */
  lemma EndedIsAnsweredAtOnce(s: System, i: nat)
    requires Enabled(s, Attach(i)) && IsSettled(s.readers[i].task.status.state)
    requires s.completed || s.pump.ended || IsTerminal(s.readers[i].task.status.state)
    ensures Do(s, Attach(i)).readers[i]
            == Answered([StatusTold(StatusEvent(s.readers[i].task.status, Some(true)))])
  {
  }

  /** A resubscriber that stays until it is answered got exactly one interaction-ending
      status, as its last event, and if that is terminal it is the stored status. It is
      turned away only in a run that excuses the pump from converging. */
  lemma ResubscriberSeesOneEnding(task: Task, actions: seq<Action>, i: nat)
    requires Runs(Begin(task), actions) && i < |After(Begin(task), actions).readers|
    ensures var s := After(Begin(task), actions);
            && (s.readers[i].Answered? ==> ProperAnswer(s.readers[i].got, s.stored))
            && (s.readers[i].GaveUp? ==> Machine.Excused(s.pump))
  {
    Reachable(task, actions);
    assert ReaderOk(After(Begin(task), actions).stored, After(Begin(task), actions).pump,
                    After(Begin(task), actions).completed, After(Begin(task), actions).readers[i]);
  }

  /** Steps left to a reader once the execution is over. */
  function ToGo(r: Reader): nat {
    match r
    case Snapped(_) => 3
    case Attached(inbox, _, _) => |inbox| + 2
    case Asking(_) => 1
    case _ => 0
  }

  function NextFor(r: Reader, i: nat): Action {
    if r.Snapped? then Attach(i) else if r.Attached? then Take(i) else Ask(i)
  }

  /** Nobody waits forever: when the execution is over, every resubscriber has a next step
      of its own until it is answered or turned away, and only finitely many. */
  lemma ResubscriberFinishes(task: Task, actions: seq<Action>, i: nat)
    requires Runs(Begin(task), actions) && i < |After(Begin(task), actions).readers|
    requires After(Begin(task), actions).completed
    ensures var s := After(Begin(task), actions);
            var r := s.readers[i];
            r.Answered? || r.GaveUp?
            || (Enabled(s, NextFor(r, i)) && ToGo(Do(s, NextFor(r, i)).readers[i]) < ToGo(r))
  {
    Reachable(task, actions);
    var s := After(Begin(task), actions);
    assert ReaderOk(s.stored, s.pump, s.completed, s.readers[i]);
  }

  /** A cancel whose healthy write finds the task still open stores the requested terminal
      status and succeeds; one that comes too late re-reads, and succeeds after all if the
      state it asked for is the one the task ended in. */
  lemma CancelSucceeds(s: System, i: nat, requested: Status)
    requires Enabled(s, CancelWrite(i, requested, Machine.Healthy)) && IsTerminal(requested.state)
    ensures var t := Do(s, CancelWrite(i, requested, Machine.Healthy));
            if IsTerminal(s.stored.status.state)
            then
              && t.stored == s.stored && t.cancels[i] == Rereading(requested)
              && Enabled(t, Reread(i, true))
              && Do(t, Reread(i, true)).cancels[i] ==
                   if s.stored.status.state == requested.state then Succeeded(requested)
                   else NotCancelable(s.stored.status.state)
            else t.stored.status == requested && t.cancels[i] == Succeeded(requested)
  {
  }

  // ---- What a cancel does to the artifacts ---------------------------------------------------

  /** The cancel's write carries the artifact list of its own snapshot: the record keeps
      what was streamed since exactly when the snapshot had no list or the list is current. */
  lemma CancelArtifacts(stored: Task, snapshot: Task, requested: Status)
    requires !IsTerminal(stored.status.state)
    ensures CancelStored(stored, CancelUpdate(snapshot, requested), Machine.Healthy).artifacts == stored.artifacts
            <==> snapshot.artifacts.None? || snapshot.artifacts == stored.artifacts
  {
  }
}
