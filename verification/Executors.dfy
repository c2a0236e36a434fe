/** The default executor, blocking and streaming (a2x/agent-executor.ts). */
module Executors {
  import opened Options
  import opened Artifacts
  import opened Tasks
  import opened StreamFold
  import Alloc = ArtifactIds

  datatype AgentEvent =
    | TextEvent(text: string, artifact: Option<Descriptor>)
    | FileEvent(file: Value, artifact: Option<Descriptor>)
    | DataEvent(data: Value, mediaType: Option<string>, artifact: Option<Descriptor>)
    | RequestInput(metadata: Entries, message: Option<string>)
    | Done(doneMetadata: Option<Entries>)
    | ErrorEvent(error: string, errorMetadata: Option<Entries>)
    /** Tool calls and results. */
    | Other

  /** How the agent's generator ends when no event halts it first. */
  datatype Ending = Returned | Threw(error: string)

  datatype AgentRun = NoSession(error: string) | Session(events: seq<AgentEvent>, ending: Ending)

  datatype Result<T> = Ok(value: T) | Conflict(error: string)

  // ---- Text descriptors -------------------------------------------------------------

  function CopyDescriptor(d: Option<Descriptor>): Descriptor {
    if d.None? then NoDescriptor else d.value
  }

  function Lookup(entries: Entries, key: string): Option<Value> {
    if entries == [] then None
    else if entries[0].0 == key then Some(entries[0].1)
    else Lookup(entries[1..], key)
  }

  /** A metadata key may be repeated only with the same value. */
  function MergeEntries(merged: Entries, incoming: Entries): Result<Entries>
    decreases |incoming|
  {
    if incoming == [] then Ok(merged)
    else
      var (key, value) := incoming[0];
      var known := Lookup(merged, key);
      if known.None? then MergeEntries(merged + [(key, value)], incoming[1..])
      else if known.value != value then Conflict("Conflicting text artifact metadata key: " + key)
      else MergeEntries(merged, incoming[1..])
  }

  /** First occurrences only, in order. */
  function Deduped(seen: seq<string>, incoming: seq<string>): seq<string>
    decreases |incoming|
  {
    if incoming == [] then seen
    else Deduped(if incoming[0] in seen then seen else seen + [incoming[0]], incoming[1..])
  }

  predicate Clash(previous: Option<string>, next: Option<string>) {
    previous.Some? && next.Some? && previous != next
  }

  function MergeDescriptor(current: Option<Descriptor>, incoming: Option<Descriptor>): Result<Option<Descriptor>> {
    if incoming.None? then Ok(current)
    else if current.None? then Ok(incoming)
    else
      var c, e := current.value, incoming.value;
      if Clash(c.name, e.name) then Conflict("Conflicting text artifact name")
      else if Clash(c.description, e.description) then Conflict("Conflicting text artifact description")
      else
        var extensions := if e.extensions.None? then c.extensions
                          else Some(Deduped([], (if c.extensions.Some? then c.extensions.value else [])
                              + e.extensions.value));
        if e.metadata.None? then
          Ok(Some(Descriptor(Over(c.name, e.name), Over(c.description, e.description), c.metadata, extensions)))
        else
          var merged := MergeEntries(if c.metadata.Some? then c.metadata.value else [], e.metadata.value);
          if merged.Conflict? then Conflict(merged.error)
          else Ok(Some(Descriptor(Over(c.name, e.name), Over(c.description, e.description), Some(merged.value),
              extensions)))
  }

  // ---- What a turn has collected -------------------------------------------------------

  datatype Turn = Turn(others: seq<Artifact>, texts: seq<string>, descriptor: Option<Descriptor>, ids: Alloc.State)

  function NewTurn(existing: set<string>): Turn {
    Turn([], [], None, Alloc.Fresh(existing))
  }

  function OwnDescriptor(e: AgentEvent): Option<Descriptor>
    requires e.FileEvent? || e.DataEvent?
  {
    if e.FileEvent? then e.artifact else e.artifact
  }

  function PartOf(e: AgentEvent): Part
    requires e.FileEvent? || e.DataEvent?
  {
    if e.FileEvent? then FilePart(e.file)
    else DataPart(e.data, if e.mediaType == Some("") then None else e.mediaType)
  }

  function KindOf(e: AgentEvent): Alloc.Kind {
    if e.FileEvent? then Alloc.FileKind else Alloc.DataKind
  }

  predicate IsLifecycle(e: AgentEvent) {
    e.RequestInput? || e.Done? || e.ErrorEvent?
  }

  function AddOther(taskId: string, t: Turn, e: AgentEvent): Turn
    requires e.FileEvent? || e.DataEvent?
  {
    var (id, ids) := Alloc.NextId(taskId, KindOf(e), t.ids);
    t.(others := t.others + [Artifact(id, CopyDescriptor(OwnDescriptor(e)), [PartOf(e)])], ids := ids)
  }

  /** The blocking executor's step: it asks for the text id only when it attaches. */
  function Collect(taskId: string, t: Turn, e: AgentEvent): Result<Turn>
    requires !IsLifecycle(e)
  {
    if e.TextEvent? then
      var merged := MergeDescriptor(t.descriptor, e.artifact);
      if merged.Conflict? then Conflict(merged.error)
      else Ok(t.(texts := t.texts + [e.text], descriptor := merged.value))
    else if e.FileEvent? || e.DataEvent? then Ok(AddOther(taskId, t, e))
    else Ok(t)
  }

  function Joined(texts: seq<string>): string {
    if texts == [] then "" else Joined(texts[..|texts| - 1]) + texts[|texts| - 1]
  }

  function FailedStatus(error: string, metadata: Option<Entries>): Status {
    Status(Failed, Some(StatusMessage(error, metadata)))
  }

  function InputText(message: Option<string>): string {
    if message.Some? then message.value else "Input is required to continue."
  }

  function StatusFor(e: AgentEvent): Status
    requires IsLifecycle(e)
  {
    match e
    case RequestInput(metadata, message) =>
      Status(InputRequired, Some(StatusMessage(InputText(message), Some(metadata))))
    case Done(metadata) =>
      Status(Completed, if metadata.None? then None else Some(StatusMessage("", metadata)))
    case ErrorEvent(error, metadata) => FailedStatus(error, metadata)
  }

  /** The text artifact of the turn, and all it produced: file and data parts in order,
      then the joined text. */
  function TextArtifact(id: string, t: Turn): Artifact {
    Artifact(id, CopyDescriptor(t.descriptor), [TextPart(Joined(t.texts))])
  }

  function Produced(taskId: string, t: Turn): seq<Artifact> {
    if t.texts == [] then t.others else t.others + [TextArtifact(Alloc.TextId(taskId, t.ids).0, t)]
  }

  /** `attachArtifacts`: a turn that produced nothing leaves the task's list alone. */
  function Attached(taskId: string, artifacts: Option<seq<Artifact>>, t: Turn): Option<seq<Artifact>> {
    if Produced(taskId, t) != [] then Some(Produced(taskId, t)) else artifacts
  }

  /** The stored status keeps all a lifecycle event said: its kind, its metadata and its
      text; only an omitted request text is the generic line. */
  lemma StatusKeepsEvent(e: AgentEvent, f: AgentEvent)
    requires IsLifecycle(e) && IsLifecycle(f)
    ensures StatusFor(e) == StatusFor(f) <==>
              || (e.RequestInput? && f.RequestInput? && e.metadata == f.metadata
                  && InputText(e.message) == InputText(f.message))
              || (e.Done? && f.Done? && e.doneMetadata == f.doneMetadata)
              || (e.ErrorEvent? && f.ErrorEvent? && e.error == f.error && e.errorMetadata == f.errorMetadata)
  {
  }

  predicate NoMedia(mediaType: Option<string>) {
    mediaType == None || mediaType == Some("")
  }

  /** A part keeps its content; an empty media type is an absent one. */
  lemma PartKeepsContent(e: AgentEvent, f: AgentEvent)
    requires (e.FileEvent? || e.DataEvent?) && (f.FileEvent? || f.DataEvent?)
    ensures PartOf(e) == PartOf(f) <==>
              || (e.FileEvent? && f.FileEvent? && e.file == f.file)
              || (e.DataEvent? && f.DataEvent? && e.data == f.data
                  && (e.mediaType == f.mediaType || (NoMedia(e.mediaType) && NoMedia(f.mediaType))))
  {
  }

  // ---- Blocking execution -----------------------------------------------------------------

  datatype Progress = Running(turn: Turn) | Stopped(turn: Turn, status: Status)

  function Gather(taskId: string, existing: set<string>, events: seq<AgentEvent>): Progress {
    if events == [] then Running(NewTurn(existing))
    else
      var so := Gather(taskId, existing, events[..|events| - 1]);
      if so.Stopped? then so else GatherOne(taskId, so.turn, events[|events| - 1])
  }

  function GatherOne(taskId: string, t: Turn, e: AgentEvent): Progress {
    if IsLifecycle(e) then Stopped(t, StatusFor(e))
    else
      var next := Collect(taskId, t, e);
      if next.Ok? then Running(next.value) else Stopped(t, FailedStatus(next.error, None))
  }

  function EndStatus(ending: Ending): Status {
    if ending.Returned? then Status(Completed, None) else FailedStatus(ending.error, None)
  }

  /** The snapshot `execute` returns. */
  function Executed(task: Task, run: AgentRun): Task {
    match run
    case NoSession(error) => task.(status := FailedStatus(error, None))
    case Session(events, ending) =>
      var p := Gather(task.id, Ids(PriorOf(task)), events);
      task.(artifacts := Attached(task.id, task.artifacts, p.turn),
            status := if p.Stopped? then p.status else EndStatus(ending))
  }

  /** The task object an executor is handed and mutates. */
  class Snapshot {
    var value: Task
    /** How often `artifacts` was assigned: the identity of the list. */
    var version: nat

    constructor (task: Task)
      ensures value == task && version == 0
    {
      value, version := task, 0;
    }

    method Assign(artifacts: seq<Artifact>)
      modifies this
      ensures value == old(value).(artifacts := Some(artifacts)) && version == old(version) + 1
    {
      value, version := value.(artifacts := Some(artifacts)), version + 1;
    }

    method SetStatus(status: Status)
      modifies this`value
      ensures value == old(value).(status := status)
    {
      value := value.(status := status);
    }
  }

  method AttachArtifacts(snapshot: Snapshot, ids: Alloc.ArtifactIdAllocator, others: seq<Artifact>,
                         texts: seq<string>, descriptor: Option<Descriptor>)
    requires ids.taskId == snapshot.value.id
    modifies snapshot, ids
    ensures snapshot.value == old(snapshot.value.(
              artifacts := Attached(snapshot.value.id, snapshot.value.artifacts,
                  Turn(others, texts, descriptor, ids.Now()))))
    ensures snapshot.version == old(snapshot.version)
              + (if Produced(old(snapshot.value.id), Turn(others, texts, descriptor, old(ids.Now()))) == [] then 0
                  else 1)
  {
    var collected := others;
    if texts != [] {
      var id := ids.Text();
      collected := others + [Artifact(id, CopyDescriptor(descriptor), [TextPart(Joined(texts))])];
    }
    if collected != [] {
      snapshot.Assign(collected);
    }
  }

  method Execute(snapshot: Snapshot, run: AgentRun)
    modifies snapshot
    ensures snapshot.value == Executed(old(snapshot.value), run)
  {
    snapshot.SetStatus(Status(Working, None));
    if run.NoSession? {
      snapshot.SetStatus(FailedStatus(run.error, None));
      return;
    }
    var taskId := snapshot.value.id;
    var ids := new Alloc.ArtifactIdAllocator(taskId, Ids(PriorOf(snapshot.value)));
    var others, texts, descriptor := [], [], None;
    for i := 0 to |run.events|
      invariant ids.taskId == taskId && fresh(ids)
      invariant snapshot.value == old(snapshot.value).(status := Status(Working, None))
      invariant Gather(taskId, Ids(PriorOf(snapshot.value)), run.events[..i])
                == Running(Turn(others, texts, descriptor, ids.Now()))
    {
      var event := run.events[i];
      GatherNext(taskId, Ids(PriorOf(snapshot.value)), run.events, i);
      if IsLifecycle(event) {
        AttachArtifacts(snapshot, ids, others, texts, descriptor);
        snapshot.SetStatus(StatusFor(event));
        return;
      }
      if event.TextEvent? {
        var merged := MergeDescriptor(descriptor, event.artifact);
        if merged.Conflict? {
          AttachArtifacts(snapshot, ids, others, texts, descriptor);
          snapshot.SetStatus(FailedStatus(merged.error, None));
          return;
        }
        texts, descriptor := texts + [event.text], merged.value;
      } else if event.FileEvent? || event.DataEvent? {
        var id := ids.Next(KindOf(event));
        others := others + [Artifact(id, CopyDescriptor(OwnDescriptor(event)), [PartOf(event)])];
      }
    }
    assert run.events[..|run.events|] == run.events;
    AttachArtifacts(snapshot, ids, others, texts, descriptor);
    snapshot.SetStatus(EndStatus(run.ending));
  }

  /** What one more event does to the turn so far; if it halts it, that is the whole turn. */
  lemma GatherNext(taskId: string, existing: set<string>, events: seq<AgentEvent>, i: nat)
    requires i < |events| && Gather(taskId, existing, events[..i]).Running?
    ensures var next := GatherOne(taskId, Gather(taskId, existing, events[..i]).turn, events[i]);
            && Gather(taskId, existing, events[..i + 1]) == next
            && (next.Stopped? ==> Gather(taskId, existing, events) == next)
  {
    assert events[..i + 1][..i] == events[..i];
    GatherSticks(taskId, existing, events, i + 1);
  }

  /** Nothing after the halting event is looked at. */
  lemma {:induction false} GatherSticks(taskId: string, existing: set<string>, events: seq<AgentEvent>, k: nat)
    requires k <= |events|
    ensures Gather(taskId, existing, events[..k]).Stopped? ==>
              Gather(taskId, existing, events) == Gather(taskId, existing, events[..k])
    decreases |events| - k
  {
    if k < |events| {
      assert events[..k + 1][..k] == events[..k];
      GatherSticks(taskId, existing, events, k + 1);
    } else {
      assert events[..k] == events;
    }
  }

  // ---- Streaming execution ------------------------------------------------------------------

  /** The streaming executor's step asks for the text id at the first chunk. */
  function Chunk(taskId: string, t: Turn, e: AgentEvent): Result<(Turn, seq<Emission>)>
    requires !IsLifecycle(e)
  {
    if e.TextEvent? then
      var merged := MergeDescriptor(t.descriptor, e.artifact);
      if merged.Conflict? then Conflict(merged.error)
      else
        var (id, ids) := Alloc.TextId(taskId, t.ids);
        Ok((Turn(t.others, t.texts + [e.text], merged.value, ids),
            [ArtifactUpdate(Artifact(id, CopyDescriptor(merged.value), [TextPart(e.text)]), t.texts != [])]))
    else if e.FileEvent? || e.DataEvent? then
      var next := AddOther(taskId, t, e);
      Ok((next, [ArtifactUpdate(next.others[|next.others| - 1], false)]))
    else Ok((t, []))
  }

  function FinalText(taskId: string, t: Turn): seq<Emission> {
    if t.texts == [] then [] else [ArtifactUpdate(TextArtifact(Alloc.TextId(taskId, t.ids).0, t), false)]
  }

  /** The status a stream stops at, with the artifact list assigned just before. */
  function Closing(task: Task, version: nat, t: Turn, status: Status): Emission {
    StatusUpdate(StatusEvent(status, Some(true)), Attached(task.id, task.artifacts, t),
                 version + (if Produced(task.id, t) == [] then 0 else 1))
  }

  datatype Streaming = Streaming(progress: Progress, emitted: seq<Emission>)

  function StreamOne(task: Task, version: nat, t: Turn, e: AgentEvent): Streaming {
    if IsLifecycle(e) then
      Streaming(Stopped(t, StatusFor(e)),
                (if e.Done? then FinalText(task.id, t) else []) + [Closing(task, version, t, StatusFor(e))])
    else
      var next := Chunk(task.id, t, e);
      if next.Ok? then Streaming(Running(next.value.0), next.value.1)
      else Streaming(Stopped(t, FailedStatus(next.error, None)),
                     [Closing(task, version, t, FailedStatus(next.error, None))])
  }

  function Streamed(task: Task, version: nat, events: seq<AgentEvent>): Streaming {
    if events == [] then
      Streaming(Running(NewTurn(Ids(PriorOf(task)))),
                [StatusUpdate(StatusEvent(Status(Working, None), Some(false)), task.artifacts, version)])
    else
      var so := Streamed(task, version, events[..|events| - 1]);
      if so.progress.Stopped? then so
      else
        var one := StreamOne(task, version, so.progress.turn, events[|events| - 1]);
        Streaming(one.progress, so.emitted + one.emitted)
  }

  function Ended(task: Task, version: nat, t: Turn, ending: Ending): seq<Emission> {
    (if ending.Returned? then FinalText(task.id, t) else []) + [Closing(task, version, t, EndStatus(ending))]
  }

  /** Everything `executeStream` yields. */
  function Emissions(task: Task, version: nat, run: AgentRun): seq<Emission> {
    match run
    case NoSession(error) => [StatusUpdate(StatusEvent(FailedStatus(error, None), Some(true)), task.artifacts,
        version)]
    case Session(events, ending) =>
      var so := Streamed(task, version, events);
      if so.progress.Stopped? then so.emitted
      else so.emitted + Ended(task, version, so.progress.turn, ending)
  }

  /** The closing events; `withText` re-sends the whole text before the status. */
  method Finish(snapshot: Snapshot, ids: Alloc.ArtifactIdAllocator, others: seq<Artifact>, texts: seq<string>,
                descriptor: Option<Descriptor>, status: Status, withText: bool) returns (tail: seq<Emission>)
    requires ids.taskId == snapshot.value.id
    modifies snapshot, ids
    ensures var turn := Turn(others, texts, descriptor, old(ids.Now()));
            tail == (if withText then FinalText(ids.taskId, turn) else [])
                    + [Closing(old(snapshot.value).(status := status), old(snapshot.version), turn, status)]
  {
    tail := [];
    if withText && texts != [] {
      var id := ids.Text();
      tail := [ArtifactUpdate(Artifact(id, CopyDescriptor(descriptor), [TextPart(Joined(texts))]), false)];
    }
    AttachArtifacts(snapshot, ids, others, texts, descriptor);
    snapshot.SetStatus(status);
    tail := tail + [StatusUpdate(StatusEvent(status, Some(true)), snapshot.value.artifacts, snapshot.version)];
  }

  /** One content event: what it adds to the turn, and the update yielded for it. */
  method Yield(ids: Alloc.ArtifactIdAllocator, others: seq<Artifact>, texts: seq<string>,
               descriptor: Option<Descriptor>, event: AgentEvent) returns (next: Result<(Turn, seq<Emission>)>)
    requires !IsLifecycle(event)
    modifies ids
    ensures next == Chunk(ids.taskId, Turn(others, texts, descriptor, old(ids.Now())), event)
    ensures ids.Now() == if next.Ok? then next.value.0.ids else old(ids.Now())
  {
    if event.TextEvent? {
      var merged := MergeDescriptor(descriptor, event.artifact);
      if merged.Conflict? {
        return Conflict(merged.error);
      }
      var id := ids.Text();
      next := Ok((Turn(others, texts + [event.text], merged.value, ids.Now()),
                  [ArtifactUpdate(Artifact(id, CopyDescriptor(merged.value), [TextPart(event.text)]), texts != [])]));
    } else if event.FileEvent? || event.DataEvent? {
      var id := ids.Next(KindOf(event));
      var artifact := Artifact(id, CopyDescriptor(OwnDescriptor(event)), [PartOf(event)]);
      next := Ok((Turn(others + [artifact], texts, descriptor, ids.Now()), [ArtifactUpdate(artifact, false)]));
    } else {
      next := Ok((Turn(others, texts, descriptor, ids.Now()), []));
    }
  }

  /** The loop body for one event; it ends the turn at a lifecycle event or a conflict. */
  method StreamStep(snapshot: Snapshot, ids: Alloc.ArtifactIdAllocator, others: seq<Artifact>, texts: seq<string>,
                    descriptor: Option<Descriptor>, event: AgentEvent) returns (one: Streaming)
    requires ids.taskId == snapshot.value.id
    modifies snapshot, ids
    ensures one == StreamOne(old(snapshot.value), old(snapshot.version),
        Turn(others, texts, descriptor, old(ids.Now())), event)
    ensures one.progress.Running? ==>
              && snapshot.value == old(snapshot.value) && snapshot.version == old(snapshot.version)
              && ids.Now() == one.progress.turn.ids
  {
    var turn := Turn(others, texts, descriptor, ids.Now());
    if IsLifecycle(event) {
      var tail := Finish(snapshot, ids, others, texts, descriptor, StatusFor(event), event.Done?);
      return Streaming(Stopped(turn, StatusFor(event)), tail);
    }
    var next := Yield(ids, others, texts, descriptor, event);
    if next.Conflict? {
      var tail := Finish(snapshot, ids, others, texts, descriptor, FailedStatus(next.error, None), false);
      return Streaming(Stopped(turn, FailedStatus(next.error, None)), tail);
    }
    one := Streaming(Running(next.value.0), next.value.1);
  }

  lemma StatusIsUnread(task: Task, status: Status, version: nat, t: Turn, e: AgentEvent)
    ensures StreamOne(task.(status := status), version, t, e) == StreamOne(task, version, t, e)
  {
  }

  method ExecuteStream(snapshot: Snapshot, run: AgentRun) returns (emitted: seq<Emission>)
    modifies snapshot
    ensures emitted == Emissions(old(snapshot.value), old(snapshot.version), run)
  {
    if run.NoSession? {
      snapshot.SetStatus(FailedStatus(run.error, None));
      return [StatusUpdate(StatusEvent(snapshot.value.status, Some(true)), snapshot.value.artifacts,
          snapshot.version)];
    }
    ghost var task, version := snapshot.value, snapshot.version;
    var taskId := snapshot.value.id;
    var ids := new Alloc.ArtifactIdAllocator(taskId, Ids(PriorOf(snapshot.value)));
    var others, texts, descriptor := [], [], None;
    snapshot.SetStatus(Status(Working, None));
    emitted := [StatusUpdate(StatusEvent(snapshot.value.status, Some(false)), snapshot.value.artifacts,
        snapshot.version)];
    for i := 0 to |run.events|
      invariant ids.taskId == taskId && fresh(ids)
      invariant snapshot.value == task.(status := Status(Working, None)) && snapshot.version == version
      invariant Streamed(task, version, run.events[..i])
                == Streaming(Running(Turn(others, texts, descriptor, ids.Now())), emitted)
    {
      var event := run.events[i];
      StreamNext(task, version, run.events, i);
      StatusIsUnread(task, snapshot.value.status, version, Turn(others, texts, descriptor, ids.Now()), event);
      var one := StreamStep(snapshot, ids, others, texts, descriptor, event);
      emitted := emitted + one.emitted;
      if one.progress.Stopped? {
        return;
      }
      others, texts, descriptor := one.progress.turn.others, one.progress.turn.texts, one.progress.turn.descriptor;
    }
    assert run.events[..|run.events|] == run.events;
    var tail := Finish(snapshot, ids, others, texts, descriptor, EndStatus(run.ending), run.ending.Returned?);
    return emitted + tail;
  }

  /** What one more event adds to the stream so far; if it halts it, nothing follows. */
  lemma StreamNext(task: Task, version: nat, events: seq<AgentEvent>, i: nat)
    requires i < |events| && Streamed(task, version, events[..i]).progress.Running?
    ensures var so := Streamed(task, version, events[..i]);
            var one := StreamOne(task, version, so.progress.turn, events[i]);
            var next := Streaming(one.progress, so.emitted + one.emitted);
            && Streamed(task, version, events[..i + 1]) == next
            && (one.progress.Stopped? ==> Streamed(task, version, events) == next)
  {
    assert events[..i + 1][..i] == events[..i];
    StreamSticks(task, version, events, i + 1);
  }

  lemma {:induction false} StreamSticks(task: Task, version: nat, events: seq<AgentEvent>, k: nat)
    requires k <= |events|
    ensures Streamed(task, version, events[..k]).progress.Stopped? ==>
              Streamed(task, version, events) == Streamed(task, version, events[..k])
    decreases |events| - k
  {
    if k < |events| {
      assert events[..k + 1][..k] == events[..k];
      StreamSticks(task, version, events, k + 1);
    } else {
      assert events[..k] == events;
    }
  }
}
