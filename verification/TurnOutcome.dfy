/** What a turn leaves, told from what the agent said: the state the task stops in, with its
    text and metadata, and the artifacts, in order (a2x/agent-executor.ts,
    transport/request-handler.ts). Both methods, for every agent run. */
module TurnOutcome {
  import opened Options
  import opened Artifacts
  import opened Tasks
  import opened StreamFold
  import opened Executors
  import opened StreamEqualsSend
  import opened StreamRecord
  import opened StreamClient
  import Alloc = ArtifactIds

  // ---- Where a turn stops --------------------------------------------------------------------

  /** The turn is still running when event `i` arrives. */
  predicate Reaches(task: Task, events: seq<AgentEvent>, i: nat) {
    i < |events| && Gather(task.id, Ids(PriorOf(task)), events[..i]).Running?
  }

  /** Event `i` ends it: it says so, or its text cannot be merged with the texts before. */
  predicate Halts(task: Task, events: seq<AgentEvent>, i: nat) {
    Reaches(task, events, i) && Gather(task.id, Ids(PriorOf(task)), events[..i + 1]).Stopped?
  }

  /** The descriptors of the texts so far, merged. */
  function Described(events: seq<AgentEvent>): Result<Option<Descriptor>> {
    if events == [] then Ok(None)
    else
      var before := Described(events[..|events| - 1]);
      var e := events[|events| - 1];
      if before.Conflict? || !e.TextEvent? then before else MergeDescriptor(before.value, e.artifact)
  }

  /** The events that become file and data artifacts. */
  function Content(events: seq<AgentEvent>): seq<AgentEvent> {
    if events == [] then []
    else
      var e := events[|events| - 1];
      Content(events[..|events| - 1]) + if e.FileEvent? || e.DataEvent? then [e] else []
  }

  function Texts(events: seq<AgentEvent>): seq<string> {
    if events == [] then []
    else
      var e := events[|events| - 1];
      Texts(events[..|events| - 1]) + if e.TextEvent? then [e.text] else []
  }

  /** The artifact holds what the event carried. */
  predicate Carries(taskId: string, x: Artifact, e: AgentEvent) {
    match e
    case FileEvent(file, artifact) =>
      && x.parts == [FilePart(file)] && x.descriptor == (if artifact.Some? then artifact.value else NoDescriptor)
      && "artifact-" + taskId + "-file-" <= x.artifactId
    case DataEvent(data, mediaType, artifact) =>
      && x.parts == [DataPart(data, if mediaType == Some("") then None else mediaType)]
      && x.descriptor == (if artifact.Some? then artifact.value else NoDescriptor)
      && "artifact-" + taskId + "-data-" <= x.artifactId
    case _ => false
  }

  ghost predicate Collected(taskId: string, events: seq<AgentEvent>, t: Turn) {
    && t.texts == Texts(events) && Described(events) == Ok(t.descriptor)
    && |t.others| == |Content(events)|
    && forall k | 0 <= k < |t.others| :: Carries(taskId, t.others[k], Content(events)[k])
  }

  /** A running turn has collected exactly what was said so far. */
  lemma {:induction false} GatherCollects(taskId: string, existing: set<string>, events: seq<AgentEvent>)
    ensures Gather(taskId, existing, events).Running? ==>
              Collected(taskId, events, Gather(taskId, existing, events).turn)
    ensures Gather(taskId, existing, events).Running? <==>
              Described(events).Ok? && forall e | e in events :: !IsLifecycle(e)
  {
    if events != [] {
      var n := |events| - 1;
      GatherCollects(taskId, existing, events[..n]);
      assert events == events[..n] + [events[n]];
      var g := Gather(taskId, existing, events[..n]);
      if g.Running? && (events[n].FileEvent? || events[n].DataEvent?) {
        OtherCarries(taskId, g.turn, events[n]);
      }
    }
  }

  lemma OtherCarries(taskId: string, t: Turn, e: AgentEvent)
    requires e.FileEvent? || e.DataEvent?
    ensures var u := AddOther(taskId, t, e);
            && u.others[..|t.others|] == t.others && |u.others| == |t.others| + 1
            && Carries(taskId, u.others[|t.others|], e)
  {
  }

  /** The first event that ends the turn is the last one looked at. */
  lemma {:induction false} SomeHalts(task: Task, events: seq<AgentEvent>) returns (i: nat)
    requires Gather(task.id, Ids(PriorOf(task)), events).Stopped?
    ensures Halts(task, events, i)
  {
    var n := |events| - 1;
    if Gather(task.id, Ids(PriorOf(task)), events[..n]).Stopped? {
      i := SomeHalts(task, events[..n]);
      assert events[..n][..i] == events[..i] && events[..n][..i + 1] == events[..i + 1];
    } else {
      i := n;
      assert events[..n + 1] == events;
    }
  }

  lemma HaltDecides(task: Task, events: seq<AgentEvent>, i: nat)
    requires Halts(task, events, i)
    ensures var t := Gather(task.id, Ids(PriorOf(task)), events[..i]).turn;
            && Gather(task.id, Ids(PriorOf(task)), events) == GatherOne(task.id, t, events[i])
            && Gather(task.id, Ids(PriorOf(task)), events).turn == t
            && Collected(task.id, events[..i], t)
            && (IsLifecycle(events[i]) || events[i].TextEvent?)
  {
    GatherNext(task.id, Ids(PriorOf(task)), events, i);
    GatherCollects(task.id, Ids(PriorOf(task)), events[..i]);
  }

  // ---- The state it stops in ---------------------------------------------------------------------

  const DefaultPrompt := "Input is required to continue."

  /** The status says what the halting event said. */
  ghost predicate Says(s: Status, e: AgentEvent, before: seq<AgentEvent>) {
    match e
    case RequestInput(metadata, message) =>
      s == Status(InputRequired, Some(StatusMessage(if message.Some? then message.value else DefaultPrompt,
                                                    Some(metadata))))
    case Done(None) => s == Status(Completed, None)
    case Done(Some(metadata)) => s == Status(Completed, Some(StatusMessage("", Some(metadata))))
    case ErrorEvent(error, metadata) => s == Status(Failed, Some(StatusMessage(error, metadata)))
    case TextEvent(_, artifact) =>
      && Described(before).Ok? && MergeDescriptor(Described(before).value, artifact).Conflict?
      && s == Status(Failed, Some(StatusMessage(MergeDescriptor(Described(before).value, artifact).error, None)))
    case _ => false
  }

  /** And without one, how the agent's generator ended. */
  predicate SaysEnding(s: Status, ending: Ending) {
    match ending
    case Returned => s == Status(Completed, None)
    case Threw(error) => s == Status(Failed, Some(StatusMessage(error, None)))
  }

  ghost predicate EndsAs(task: Task, run: AgentRun, s: Status) {
    match run
    case NoSession(error) => s == Status(Failed, Some(StatusMessage(error, None)))
    case Session(events, ending) =>
      && (forall i: nat | Halts(task, events, i) :: Says(s, events[i], events[..i]))
      && ((forall i: nat :: !Halts(task, events, i)) ==> SaysEnding(s, ending))
  }

  lemma EndOfSays(task: Task, run: AgentRun)
    ensures EndsAs(task, run, EndOf(task, run).1)
  {
    if run.Session? {
      forall i: nat | Halts(task, run.events, i) ensures Says(EndOf(task, run).1, run.events[i], run.events[..i]) {
        HaltDecides(task, run.events, i);
      }
      if Gather(task.id, Ids(PriorOf(task)), run.events).Stopped? {
        var i := SomeHalts(task, run.events);
      }
    }
  }

  /** Both methods store, on every task still open, the status the agent's own words or the
      end of its generator call for. */
  lemma TurnEndsAsAgentSaid(task: Task, run: AgentRun)
    requires !IsTerminal(task.status.state)
    ensures EndsAs(task, run, SendStored(task, run).status)
    ensures EndsAs(task, run, StreamStored(task, run).stored.status)
  {
    EndOfSays(task, run);
    SendLeaves(task, run);
    StreamLeaves(task, run);
  }

  lemma {:induction false} HaltedByDoneIs(task: Task, events: seq<AgentEvent>, i: nat)
    requires Halts(task, events, i)
    ensures HaltedByDone(task.id, Ids(PriorOf(task)), events) <==> events[i].Done?
  {
    var n := |events| - 1;
    if i < n {
      HaltInFront(task, events, i);
      HaltedByDoneIs(task, events[..n], i);
    } else {
      assert events[..n + 1] == events;
    }
  }

  lemma HaltSticks(task: Task, events: seq<AgentEvent>, i: nat)
    requires Halts(task, events, i) && i < |events| - 1
    ensures Gather(task.id, Ids(PriorOf(task)), events[..|events| - 1]).Stopped?
  {
    var front := events[..|events| - 1];
    assert front[..i + 1] == events[..i + 1];
    GatherSticks(task.id, Ids(PriorOf(task)), front, i + 1);
  }

  ghost predicate StateFits(task: Task, run: AgentRun, state: TaskState) {
    && (state == Completed <==> Resends(task.id, Ids(PriorOf(task)), run))
    && (state == InputRequired <==>
          run.Session? && exists i: nat :: Halts(task, run.events, i) && run.events[i].RequestInput?)
    && (state == Completed || state == InputRequired || state == Failed)
  }

  lemma HaltedStates(task: Task, run: AgentRun, s: Status, i: nat)
    requires EndsAs(task, run, s) && run.Session? && Halts(task, run.events, i)
    ensures StateFits(task, run, s.state)
  {
    assert Says(s, run.events[i], run.events[..i]);
    HaltDecides(task, run.events, i);
    HaltedByDoneIs(task, run.events, i);
    GatherSticks(task.id, Ids(PriorOf(task)), run.events, i + 1);
    forall k: nat | Halts(task, run.events, k) ensures Says(s, run.events[k], run.events[..k]) {
    }
  }

  lemma StatusStates(task: Task, run: AgentRun, s: Status)
    requires EndsAs(task, run, s)
    ensures StateFits(task, run, s.state)
  {
    if run.Session? {
      if Gather(task.id, Ids(PriorOf(task)), run.events).Stopped? {
        var i := SomeHalts(task, run.events);
        HaltedStates(task, run, s, i);
      } else {
        RunningHasNoHalt(task, run.events);
      }
    }
  }

  /** So a turn completes if and only if the agent was done or returned, which is when the
      stream sends the whole text once more; it waits for input if and only if an event
      asked for it; and otherwise it failed. */
  lemma TurnStates(task: Task, run: AgentRun)
    requires !IsTerminal(task.status.state)
    ensures StateFits(task, run, SendStored(task, run).status.state)
    ensures StateFits(task, run, StreamStored(task, run).stored.status.state)
  {
    TurnEndsAsAgentSaid(task, run);
    StatusStates(task, run, SendStored(task, run).status);
    StatusStates(task, run, StreamStored(task, run).stored.status);
  }

  lemma RunningHasNoHalt(task: Task, events: seq<AgentEvent>)
    requires Gather(task.id, Ids(PriorOf(task)), events).Running?
    ensures forall i: nat :: !Halts(task, events, i)
  {
    forall i: nat ensures !Halts(task, events, i) {
      if Halts(task, events, i) {
        GatherSticks(task.id, Ids(PriorOf(task)), events, i + 1);
      }
    }
  }

  // ---- What it leaves --------------------------------------------------------------------------

  /** The events the turn took in: all before the one that ended it. */
  function Heard(task: Task, events: seq<AgentEvent>): seq<AgentEvent> {
    if events == [] || Gather(task.id, Ids(PriorOf(task)), events).Running? then events
    else Heard(task, events[..|events| - 1])
  }

  lemma HaltInFront(task: Task, events: seq<AgentEvent>, i: nat)
    requires Halts(task, events, i) && i < |events| - 1
    ensures Halts(task, events[..|events| - 1], i) && events[..|events| - 1][..i] == events[..i]
    ensures Gather(task.id, Ids(PriorOf(task)), events[..|events| - 1]).Stopped?
  {
    var front := events[..|events| - 1];
    HaltSticks(task, events, i);
    assert front[..i] == events[..i] && front[..i + 1] == events[..i + 1];
  }

  lemma {:induction false} HeardIsCollected(task: Task, events: seq<AgentEvent>)
    ensures Heard(task, events) <= events
    ensures Collected(task.id, Heard(task, events), Gather(task.id, Ids(PriorOf(task)), events).turn)
    ensures forall i: nat | Halts(task, events, i) :: Heard(task, events) == events[..i]
  {
    GatherCollects(task.id, Ids(PriorOf(task)), events);
    if Gather(task.id, Ids(PriorOf(task)), events).Running? {
      RunningHasNoHalt(task, events);
    } else {
      var front := events[..|events| - 1];
      HeardIsCollected(task, front);
      GatherCollects(task.id, Ids(PriorOf(task)), front);
      forall i: nat | Halts(task, events, i) ensures Heard(task, events) == events[..i] {
        if i < |events| - 1 {
          HaltInFront(task, events, i);
        }
      }
    }
  }

  /** What one turn adds, told from the events it took in. */
  ghost predicate Adds(task: Task, heard: seq<AgentEvent>, added: seq<Artifact>) {
    var content, texts := Content(heard), Texts(heard);
    && |added| == |content| + (if texts == [] then 0 else 1)
    && (forall k | 0 <= k < |content| :: Carries(task.id, added[k], content[k]))
    && (texts != [] ==>
          var x := added[|content|];
          && x.parts == [TextPart(Joined(texts))] && Described(heard).Ok?
          && x.descriptor == CopyDescriptor(Described(heard).value)
          && (var base := "artifact-" + task.id + "-text";
              if base !in Ids(PriorOf(task)) then x.artifactId == base else base + "-" <= x.artifactId))
  }

  lemma ProducedAdds(task: Task, heard: seq<AgentEvent>, t: Turn)
    requires Collected(task.id, heard, t) && Alloc.TextId(task.id, t.ids).0 == TextIdOf(task.id, Ids(PriorOf(task)))
    ensures Adds(task, heard, Produced(task.id, t))
  {
    assert Alloc.TextBase(task.id) == "artifact-" + task.id + "-text";
  }

  lemma EndCollects(task: Task, run: AgentRun)
    ensures Collected(task.id, if run.Session? then Heard(task, run.events) else [], EndOf(task, run).0)
  {
    if run.Session? {
      HeardIsCollected(task, run.events);
    }
  }

  /** Both methods leave the prior artifacts untouched and behind them exactly what the agent
      said before the turn ended: a file or data artifact for each such event, in order,
      then one artifact with the joined text. */
  lemma TurnStoresWhatAgentSaid(task: Task, run: AgentRun)
    requires !IsTerminal(task.status.state) && Distinct(PriorOf(task))
    ensures exists added :: Adds(task, if run.Session? then Heard(task, run.events) else [], added)
              && PriorOf(SendStored(task, run)) == PriorOf(task) + added
              && PriorOf(StreamStored(task, run).stored) == PriorOf(task) + added
  {
    TurnOnlyAdds(task, run);
    StreamLeavesWhatSendLeaves(task, run);
    EndIsSame(task, run);
    EndCollects(task, run);
    ProducedAdds(task, if run.Session? then Heard(task, run.events) else [], EndOf(task, run).0);
  }
}
