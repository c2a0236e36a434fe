/** `message/stream` leaves the same stored task as `message/send`
    (transport/request-handler.ts, a2x/agent-executor.ts), for any agent run nobody
    interrupts. Timestamps and generated message ids are not part of a `Status`. */
module StreamEqualsSend {
  import opened Options
  import opened Artifacts
  import opened Tasks
  import opened StreamFold
  import opened Executors
  import Alloc = ArtifactIds

  // ---- The two handlers ---------------------------------------------------------------------

  function SendUpdate(working: Task, executed: Task): TaskUpdate {
    UpdateFrom(executed).(
      artifacts := if executed.artifacts.Some? then Some(Merge(PriorOf(working), executed.artifacts.value)) else None)
  }

  function SendStored(task: Task, run: AgentRun): Task {
    var working := Persisted(task, StatusWrite(Status(Working, None), None));
    if IsTerminal(working.status.state) then working
    else Persisted(working, SendUpdate(working, Executed(working, run)))
  }

  function StreamStored(task: Task, run: AgentRun): Feed {
    TakeAll(PriorOf(task), Feed(task, Start(task, 0), false, false), Emissions(task, 0, run))
  }

  /** `_handleSendMessage` and `_executeSendMessage`, answering the stored task. */
  method SendMessage(task: Task, run: AgentRun) returns (stored: Task)
    ensures stored == SendStored(task, run)
  {
    stored := Persisted(task, StatusWrite(Status(Working, None), None));
    if IsTerminal(stored.status.state) {
      return;
    }
    var snapshot := new Snapshot(stored);
    var prior := PriorOf(stored);
    Execute(snapshot, run);
    var update := UpdateFrom(snapshot.value);
    if snapshot.value.artifacts.Some? {
      update := update.(artifacts := Some(Merge(prior, snapshot.value.artifacts.value)));
    }
    stored := Persisted(stored, update);
  }

  /** The pump's loop: each yielded event is folded in and written before the next. */
  method StreamMessage(task: Task, run: AgentRun) returns (p: Feed)
    ensures p == StreamStored(task, run)
  {
    var snapshot := new Snapshot(task);
    var prior := PriorOf(task);
    var emitted := ExecuteStream(snapshot, run);
    p := Feed(task, Start(task, 0), false, false);
    for i := 0 to |emitted|
      invariant p == TakeAll(prior, Feed(task, Start(task, 0), false, false), emitted[..i])
    {
      assert emitted[..i + 1][..i] == emitted[..i];
      p := Take(prior, p, emitted[i]);
    }
    assert emitted[..|emitted|] == emitted;
  }

  // ---- The two executors collect the same turn -----------------------------------------

  /** Same parts, texts and descriptor; the streaming allocator has the text id already. */
  ghost predicate SameTurn(taskId: string, existing: set<string>, b: Turn, s: Turn) {
    && s.others == b.others && s.texts == b.texts && s.descriptor == b.descriptor
    && s.ids.counter == b.ids.counter && b.ids.textId.None?
    && existing <= b.ids.taken
    && Alloc.TurnInv(taskId, existing, b.ids, b.ids.taken - existing)
    && (b.texts == [] ==> s.ids == b.ids)
    && (b.texts != [] ==>
          && s.ids.textId == Some(TextIdOf(taskId, existing))
          && s.ids.taken == b.ids.taken + {TextIdOf(taskId, existing)})
  }

  function TextIdOf(taskId: string, existing: set<string>): string {
    Alloc.Claim(Alloc.TextBase(taskId), existing)
  }

  lemma SameTextId(taskId: string, existing: set<string>, b: Turn, s: Turn)
    requires SameTurn(taskId, existing, b, s)
    ensures Alloc.TextId(taskId, b.ids).0 == TextIdOf(taskId, existing)
    ensures Alloc.TextId(taskId, s.ids).0 == TextIdOf(taskId, existing)
    ensures Produced(taskId, b) == Produced(taskId, s)
    ensures Alloc.TextId(taskId, s.ids).1.textId == Some(TextIdOf(taskId, existing))
    ensures Alloc.TextId(taskId, s.ids).1.taken == b.ids.taken + {TextIdOf(taskId, existing)}
  {
    Alloc.TextStep(taskId, existing, b.ids, b.ids.taken - existing);
  }

  lemma SameOther(taskId: string, existing: set<string>, b: Turn, s: Turn, e: AgentEvent)
    requires SameTurn(taskId, existing, b, s)
    requires e.FileEvent? || e.DataEvent?
    ensures SameTurn(taskId, existing, AddOther(taskId, b, e), AddOther(taskId, s, e))
  {
    var prefix := Alloc.CounterPrefix(taskId, KindOf(e));
    var (id, ids) := Alloc.NextId(taskId, KindOf(e), b.ids);
    Alloc.NextIdIsFresh(taskId, KindOf(e), b.ids);
    assert ids.taken - existing == (b.ids.taken - existing) + {id};
    if b.texts != [] {
      forall m: nat ensures prefix + Alloc.Decimal.Dec(m) != TextIdOf(taskId, existing) {
        Alloc.FamiliesDiffer(taskId, KindOf(e), m, TextIdOf(taskId, existing));
      }
      Alloc.FirstFreeOnFamily(prefix, b.ids.taken, {TextIdOf(taskId, existing)}, b.ids.counter + 1);
      assert b.ids.taken + {TextIdOf(taskId, existing)} + {id} == b.ids.taken + {id} + {TextIdOf(taskId, existing)};
    }
  }

  lemma SameStep(task: Task, existing: set<string>, b: Turn, s: Turn, e: AgentEvent)
    requires SameTurn(task.id, existing, b, s)
    ensures var p, q := GatherOne(task.id, b, e), StreamOne(task, 0, s, e).progress;
            && p.Stopped? == q.Stopped? && SameTurn(task.id, existing, p.turn, q.turn)
            && (p.Stopped? ==> p.status == q.status)
  {
    if e.TextEvent? {
      SameTextId(task.id, existing, b, s);
    } else if e.FileEvent? || e.DataEvent? {
      SameOther(task.id, existing, b, s, e);
    }
  }

  // ---- The pump while the turn is running ------------------------------------------------

  function TurnIds(taskId: string, existing: set<string>, t: Turn): set<string> {
    Ids(t.others) + (if t.texts == [] then {} else {TextIdOf(taskId, existing)})
  }

  function StoredAs(task: Task, status: Status, artifacts: seq<Artifact>): Task {
    task.(status := status, artifacts := if artifacts == [] then task.artifacts else Some(artifacts))
  }

  /** Everything streamed so far is in the record, and nothing else was added. */
  ghost predicate Accumulates(task: Task, t: Turn, p: Feed) {
    && !p.stopped && !p.ended && p.fold.observed == 0
    && p.stored == StoredAs(task, Status(Working, None), p.fold.artifacts)
    && Ids(p.fold.artifacts) == Ids(PriorOf(task)) + TurnIds(task.id, Ids(PriorOf(task)), t)
    && (t.others == [] && t.texts == [] ==> p.fold.artifacts == PriorOf(task))
  }

  lemma TakeArtifact(task: Task, t: Turn, u: Turn, p: Feed, artifact: Artifact, append: bool)
    requires Accumulates(task, t, p)
    requires u.others != [] || u.texts != []
    requires TurnIds(task.id, Ids(PriorOf(task)), u) == TurnIds(task.id, Ids(PriorOf(task)), t)
        + {artifact.artifactId}
    ensures Accumulates(task, u, Take(PriorOf(task), p, ArtifactUpdate(artifact, append)))
  {
    UpdateWritesOne(p.fold.artifacts, artifact, append);
    assert ApplyUpdate(p.fold.artifacts, artifact, append) != [];
  }

  lemma OneMore(p: Feed, prior: seq<Artifact>, e: Emission)
    ensures TakeAll(prior, p, [e]) == Take(prior, p, e)
    ensures TakeAll(prior, p, []) == p
  {
    assert [e][..0] == [];
  }

  /** One running step. */
  lemma RunningStep(task: Task, b: Turn, s: Turn, e: AgentEvent, p: Feed)
    requires SameTurn(task.id, Ids(PriorOf(task)), b, s) && Accumulates(task, b, p)
    requires StreamOne(task, 0, s, e).progress.Running?
    ensures var one := StreamOne(task, 0, s, e);
            Accumulates(task, one.progress.turn, TakeAll(PriorOf(task), p, one.emitted))
  {
    var existing := Ids(PriorOf(task));
    var one := StreamOne(task, 0, s, e);
    var u := one.progress.turn;
    if one.emitted == [] {
      assert TakeAll(PriorOf(task), p, one.emitted) == p;
    } else {
      var update := one.emitted[0];
      assert one.emitted == [update];
      OneMore(p, PriorOf(task), update);
      if e.TextEvent? {
        SameTextId(task.id, existing, b, s);
      } else {
        assert u.others == b.others + [update.artifact];
      }
      TakeArtifact(task, b, u, p, update.artifact, update.append);
    }
  }

  // ---- The closing events --------------------------------------------------------------------

  /** What both handlers leave: the prior artifacts with the turn's merged in. */
  function Final(task: Task, t: Turn, status: Status): Task {
    StoredAs(task, status, if Produced(task.id, t) == [] then PriorOf(task)
        else Merge(PriorOf(task), Produced(task.id, t)))
  }

  lemma ProducedIds(taskId: string, existing: set<string>, b: Turn, s: Turn)
    requires SameTurn(taskId, existing, b, s)
    ensures Ids(Produced(taskId, s)) == TurnIds(taskId, existing, b)
    ensures Produced(taskId, s) == [] <==> b.others == [] && b.texts == []
  {
    SameTextId(taskId, existing, b, s);
  }

  lemma MergeNonEmpty(prior: seq<Artifact>, produced: seq<Artifact>)
    requires produced != []
    ensures Merge(prior, produced) != []
  {
    MergeIds(prior, produced);
    IdsMember(produced, 0);
  }

  lemma CloseStep(task: Task, b: Turn, s: Turn, p: Feed, status: Status)
    requires SameTurn(task.id, Ids(PriorOf(task)), b, s) && Accumulates(task, b, p)
    ensures var q := Take(PriorOf(task), p, Closing(task, 0, s, status));
            q.stored == Final(task, b, status) && q.ended && !q.stopped
  {
    var prior := PriorOf(task);
    var produced := Produced(task.id, s);
    SameTextId(task.id, Ids(prior), b, s);
    ProducedIds(task.id, Ids(prior), b, s);
    if produced != [] {
      MergeIds(prior, produced);
      MergeNonEmpty(prior, produced);
      var canonical := Merge(prior, produced);
      assert Ids(p.fold.artifacts) <= Ids(canonical);
      assert canonical + [] == canonical;
    }
  }

  lemma FinalTextStep(task: Task, b: Turn, s: Turn, p: Feed)
    requires SameTurn(task.id, Ids(PriorOf(task)), b, s) && Accumulates(task, b, p)
    ensures Accumulates(task, b, TakeAll(PriorOf(task), p, FinalText(task.id, s)))
  {
    if s.texts != [] {
      SameTextId(task.id, Ids(PriorOf(task)), b, s);
      var update := ArtifactUpdate(TextArtifact(TextIdOf(task.id, Ids(PriorOf(task))), s), false);
      OneMore(p, PriorOf(task), update);
      TakeArtifact(task, b, b, p, update.artifact, false);
    }
  }

  /** Closing a running turn, with or without the whole text first. */
  lemma CloseAll(task: Task, b: Turn, s: Turn, p: Feed, status: Status, withText: bool)
    requires SameTurn(task.id, Ids(PriorOf(task)), b, s) && Accumulates(task, b, p)
    ensures var q := TakeAll(PriorOf(task), p, (if withText then FinalText(task.id, s) else [])
        + [Closing(task, 0, s, status)]);
            q.stored == Final(task, b, status) && q.ended && !q.stopped
  {
    var prior := PriorOf(task);
    var text := if withText then FinalText(task.id, s) else [];
    FinalTextStep(task, b, s, p);
    var p1 := TakeAll(prior, p, text);
    assert Accumulates(task, b, p1);
    TakeAllConcat(prior, p, text, [Closing(task, 0, s, status)]);
    OneMore(p1, prior, Closing(task, 0, s, status));
    CloseStep(task, b, s, p1, status);
  }

  /** Where the pump stands after a prefix of the agent's events. */
  ghost predicate InStep(task: Task, g: Progress, so: Streaming) {
    var p := TakeAll(PriorOf(task), Feed(task, Start(task, 0), false, false), so.emitted);
    && g.Stopped? == so.progress.Stopped?
    && SameTurn(task.id, Ids(PriorOf(task)), g.turn, so.progress.turn)
    && (g.Running? ==> Accumulates(task, g.turn, p))
    && (g.Stopped? ==>
          && g.status == so.progress.status && p.stored == Final(task, g.turn, g.status)
          && p.ended && !p.stopped)
  }

  lemma FirstStep(task: Task)
    requires !IsTerminal(task.status.state)
    ensures InStep(task, Gather(task.id, Ids(PriorOf(task)), []), Streamed(task, 0, []))
  {
    var working := Streamed(task, 0, []).emitted[0];
    OneMore(Feed(task, Start(task, 0), false, false), PriorOf(task), working);
  }

  lemma NextStep(task: Task, g: Progress, so: Streaming, e: AgentEvent)
    requires InStep(task, g, so) && g.Running?
    ensures var one := StreamOne(task, 0, so.progress.turn, e);
            InStep(task, GatherOne(task.id, g.turn, e), Streaming(one.progress, so.emitted + one.emitted))
  {
    var prior := PriorOf(task);
    var p0 := Feed(task, Start(task, 0), false, false);
    var p := TakeAll(prior, p0, so.emitted);
    var one := StreamOne(task, 0, so.progress.turn, e);
    SameStep(task, Ids(prior), g.turn, so.progress.turn, e);
    TakeAllConcat(prior, p0, so.emitted, one.emitted);
    if one.progress.Running? {
      RunningStep(task, g.turn, so.progress.turn, e, p);
    } else {
      assert one.emitted == (if e.Done? then FinalText(task.id, so.progress.turn) else [])
                            + [Closing(task, 0, so.progress.turn, one.progress.status)];
      CloseAll(task, g.turn, so.progress.turn, p, one.progress.status, e.Done?);
    }
  }

  lemma {:induction false} AllSteps(task: Task, events: seq<AgentEvent>)
    requires !IsTerminal(task.status.state)
    ensures InStep(task, Gather(task.id, Ids(PriorOf(task)), events), Streamed(task, 0, events))
  {
    if events == [] {
      FirstStep(task);
    } else {
      var last := |events| - 1;
      AllSteps(task, events[..last]);
      var g := Gather(task.id, Ids(PriorOf(task)), events[..last]);
      if g.Running? {
        NextStep(task, g, Streamed(task, 0, events[..last]), events[last]);
      }
    }
  }

  /** How the run ends, for both executors. */
  function EndOf(task: Task, run: AgentRun): (Turn, Status) {
    match run
    case NoSession(error) => (NewTurn(Ids(PriorOf(task))), FailedStatus(error, None))
    case Session(events, ending) =>
      var g := Gather(task.id, Ids(PriorOf(task)), events);
      (g.turn, if g.Stopped? then g.status else EndStatus(ending))
  }

  lemma StreamLeaves(task: Task, run: AgentRun)
    requires !IsTerminal(task.status.state)
    ensures var (turn, status) := EndOf(task, run);
            var p := StreamStored(task, run);
            p.stored == Final(task, turn, status) && p.ended && !p.stopped
  {
    var prior := PriorOf(task);
    var p0 := Feed(task, Start(task, 0), false, false);
    if run.NoSession? {
      OneMore(p0, prior, Emissions(task, 0, run)[0]);
    } else {
      AllSteps(task, run.events);
      var g, so := Gather(task.id, Ids(prior), run.events), Streamed(task, 0, run.events);
      if g.Running? {
        TakeAllConcat(prior, p0, so.emitted, Ended(task, 0, so.progress.turn, run.ending));
        CloseAll(task, g.turn, so.progress.turn, TakeAll(prior, p0, so.emitted), EndStatus(run.ending),
            run.ending.Returned?);
      }
    }
  }

  /** A turn that produced nothing makes `message/send` fold the task's list into itself. */
  lemma SendLeaves(task: Task, run: AgentRun)
    requires !IsTerminal(task.status.state)
    ensures var (turn, status) := EndOf(task, run);
            SendStored(task, run) ==
              if Produced(task.id, turn) == [] then StoredAs(task, status, Merge(PriorOf(task), PriorOf(task)))
              else Final(task, turn, status)
  {
    var working := Persisted(task, StatusWrite(Status(Working, None), None));
    var executed := Executed(working, run);
    assert executed.artifacts == Attached(task.id, task.artifacts, EndOf(task, run).0);
    SendWrites(working, executed);
  }

  /** The unary write keeps history and metadata, and merges the artifacts. */
  lemma SendWrites(working: Task, executed: Task)
    requires !IsTerminal(working.status.state)
    requires executed == working.(status := executed.status, artifacts := executed.artifacts)
    ensures Persisted(working, SendUpdate(working, executed)) == working.(
              status := executed.status,
              artifacts := if executed.artifacts.None? then working.artifacts
                           else Some(Merge(PriorOf(working), executed.artifacts.value)))
  {
    if working.metadata.Some? {
      assert working.metadata.value + working.metadata.value == working.metadata.value;
    }
  }

  /** Without distinct ids the two agree unless the turn produced nothing and the task's
      own list, folded into itself, changes. */
  lemma StreamEqualsSendExactly(task: Task, run: AgentRun)
    requires !IsTerminal(task.status.state)
    ensures StreamStored(task, run).stored == SendStored(task, run)
            <==> Produced(task.id, EndOf(task, run).0) != [] || Merge(PriorOf(task), PriorOf(task)) == PriorOf(task)
  {
    StreamLeaves(task, run);
    SendLeaves(task, run);
  }

  /** For every agent run and every task whose artifact ids are distinct, both methods
      leave the same record, and the stream's interaction has ended. */
  lemma StreamLeavesWhatSendLeaves(task: Task, run: AgentRun)
    requires !IsTerminal(task.status.state) && Distinct(PriorOf(task))
    ensures StreamStored(task, run).stored == SendStored(task, run)
    ensures StreamStored(task, run).ended && IsSettled(StreamStored(task, run).stored.status.state)
  {
    StreamEqualsSendExactly(task, run);
    StreamLeaves(task, run);
    MergeSelf(PriorOf(task));
    if run.Session? {
      GatherSettles(task.id, Ids(PriorOf(task)), run.events);
    }
  }

  lemma {:induction false} GatherSettles(taskId: string, existing: set<string>, events: seq<AgentEvent>)
    ensures var g := Gather(taskId, existing, events); g.Stopped? ==> IsSettled(g.status.state)
  {
    if events != [] {
      GatherSettles(taskId, existing, events[..|events| - 1]);
    }
  }
}
