/** Tasks, their status events and the one rule for writing them (types/task.ts,
    a2x/task-store.ts, transport/request-handler.ts). */
module Tasks {
  import opened Options
  import opened Artifacts

  datatype TaskState =
    Submitted | Working | InputRequired | AuthRequired | Unknown | Completed | Failed | Canceled | Rejected

  predicate IsTerminal(s: TaskState) {
    s == Completed || s == Failed || s == Canceled || s == Rejected
  }

  /** The states at which a turn may stop. */
  predicate IsSettled(s: TaskState) {
    IsTerminal(s) || s == InputRequired || s == AuthRequired
  }

  /** A status message: its text and metadata, without the generated id. */
  datatype StatusMessage = StatusMessage(text: string, metadata: Option<Entries>)

  datatype Status = Status(state: TaskState, message: Option<StatusMessage>)

  datatype Task = Task(
    id: string, contextId: string, status: Status, artifacts: Option<seq<Artifact>>,
    history: Option<seq<string>>, metadata: Option<map<string, Value>>)

  datatype TaskUpdate = TaskUpdate(
    status: Option<Status>, artifacts: Option<seq<Artifact>>,
    history: Option<seq<string>>, metadata: Option<map<string, Value>>)

  function StatusWrite(status: Status, artifacts: Option<seq<Artifact>>): TaskUpdate {
    TaskUpdate(Some(status), artifacts, None, None)
  }

  /** A stored terminal status refuses every further status. */
  predicate Refuses(task: Task, update: TaskUpdate) {
    update.status.Some? && IsTerminal(task.status.state)
  }

  function Updated(task: Task, update: TaskUpdate): Task {
    task.(
      status := if update.status.Some? then update.status.value else task.status,
      artifacts := Over(task.artifacts, update.artifacts),
      history := Over(task.history, update.history),
      metadata := if update.metadata.None? then task.metadata
                  else Some((if task.metadata.Some? then task.metadata.value else map[]) + update.metadata.value))
  }

  /** `_persistTaskState` on a healthy store: a refused write answers with the stored task. */
  function Persisted(task: Task, update: TaskUpdate): Task {
    if Refuses(task, update) then task else Updated(task, update)
  }

  /** `taskUpdateFrom`: a whole snapshot as an update. */
  function UpdateFrom(task: Task): TaskUpdate {
    TaskUpdate(Some(task.status), task.artifacts, task.history, task.metadata)
  }

  /** A status update as published; `final` may be absent. */
  datatype StatusEvent = StatusEvent(status: Status, final: Option<bool>)

  /** What the bus carries. */
  datatype TaskEvent = StatusTold(event: StatusEvent) | ArtifactTold(artifact: Artifact, append: bool)

  predicate EndsInteraction(e: StatusEvent) {
    || e.final == Some(true)
    || IsTerminal(e.status.state)
    || (e.final != Some(false) && IsSettled(e.status.state))
  }

  /** `statusEventFromTask`: the stored status replaces the executor's own. */
  function Authoritative(e: StatusEvent, stored: Task): StatusEvent {
    var told := StatusEvent(stored.status, e.final);
    if EndsInteraction(told) then told.(final := Some(true)) else told
  }
}
