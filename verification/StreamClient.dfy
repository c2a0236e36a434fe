/** What a client that folds the artifact updates of a stream ends up with
    (a2x/agent-executor.ts, a2x/task-store.ts). */
module StreamClient {
  import opened Options
  import opened Artifacts
  import opened Tasks
  import opened StreamFold
  import opened Executors
  import opened StreamEqualsSend
  import opened StreamRecord
  import Alloc = ArtifactIds

  /** The artifact updates of the stream, folded over what the client knew before. */
  function Client(known: seq<Artifact>, es: seq<Emission>): seq<Artifact> {
    if es == [] then known
    else
      var before := Client(known, es[..|es| - 1]);
      var e := es[|es| - 1];
      if e.ArtifactUpdate? then ApplyUpdate(before, e.artifact, e.append) else before
  }

  lemma {:induction false} ClientConcat(known: seq<Artifact>, a: seq<Emission>, b: seq<Emission>)
    ensures Client(known, a + b) == Client(Client(known, a), b)
  {
    if b == [] {
      assert a + b == a;
    } else {
      assert (a + b)[..|a + b| - 1] == a + b[..|b| - 1];
      ClientConcat(known, a, b[..|b| - 1]);
    }
  }

  /** Does the stream send the whole text once more before it stops? It does when the agent
      is done or returns, not when it asks for input, reports an error or throws. */
  function Resends(taskId: string, existing: set<string>, run: AgentRun): bool {
    run.Session? &&
    if Gather(taskId, existing, run.events).Running? then run.ending.Returned?
    else HaltedByDone(taskId, existing, run.events)
  }

  function HaltedByDone(taskId: string, existing: set<string>, events: seq<AgentEvent>): bool {
    events != [] &&
    if Gather(taskId, existing, events[..|events| - 1]).Stopped?
        then HaltedByDone(taskId, existing, events[..|events| - 1])
    else events[|events| - 1].Done?
  }

  /** The prior artifacts, the parts sent, and the text: whole, or in the chunks it came in. */
  ghost predicate Pictures(task: Task, t: Turn, whole: bool, xs: seq<Artifact>) {
    && Distinct(xs)
    && forall x :: x in xs <==>
         || x in PriorOf(task) || x in t.others
         || (t.texts != [] && x == (if whole then TextArtifact(TextIdOf(task.id, Ids(PriorOf(task))), t)
                                    else ChunkedText(task.id, Ids(PriorOf(task)), t)))
  }

  lemma {:induction false} ClientShows(task: Task, events: seq<AgentEvent>)
    requires !IsTerminal(task.status.state) && Distinct(PriorOf(task))
    requires Gather(task.id, Ids(PriorOf(task)), events).Running?
    ensures Shows(task, Gather(task.id, Ids(PriorOf(task)), events).turn,
                  Client(PriorOf(task), Streamed(task, 0, events).emitted))
  {
    var prior := PriorOf(task);
    if events == [] {
    } else {
      var last := |events| - 1;
      ClientShows(task, events[..last]);
      AllSteps(task, events[..last]);
      GatherIsFresh(task.id, Ids(prior), events[..last]);
      var b := Gather(task.id, Ids(prior), events[..last]).turn;
      var so := Streamed(task, 0, events[..last]);
      SameStep(task, Ids(prior), b, so.progress.turn, events[last]);
      ClientConcat(prior, so.emitted, StreamOne(task, 0, so.progress.turn, events[last]).emitted);
      ClientStep(task, b, so.progress.turn, events[last], Client(prior, so.emitted));
    }
  }

  lemma ClientStep(task: Task, b: Turn, s: Turn, e: AgentEvent, xs: seq<Artifact>)
    requires SameTurn(task.id, Ids(PriorOf(task)), b, s) && FreshTurn(Ids(PriorOf(task)), b) && Shows(task, b, xs)
    requires StreamOne(task, 0, s, e).progress.Running?
    ensures var one := StreamOne(task, 0, s, e); Shows(task, one.progress.turn, Client(xs, one.emitted))
  {
    var one := StreamOne(task, 0, s, e);
    if e.TextEvent? {
      ShowsText(task, b, s, e, xs);
      assert one.emitted == [one.emitted[0]];
    } else if e.FileEvent? || e.DataEvent? {
      ShowsOther(task, b, s, e, xs);
      assert one.emitted == [one.emitted[0]];
    }
  }

  /** The closing events: the whole text replaces its chunks, the status changes nothing. */
  lemma ClosingPictures(task: Task, b: Turn, s: Turn, xs: seq<Artifact>, status: Status, whole: bool)
    requires SameTurn(task.id, Ids(PriorOf(task)), b, s) && FreshTurn(Ids(PriorOf(task)), b) && Shows(task, b, xs)
    ensures Pictures(task, b, whole, Client(xs, (if whole then FinalText(task.id, s) else [])
        + [Closing(task, 0, s, status)]))
  {
    var existing := Ids(PriorOf(task));
    var text := if whole then FinalText(task.id, s) else [];
    ClientConcat(xs, text, [Closing(task, 0, s, status)]);
    if whole && s.texts != [] {
      SameTextId(task.id, existing, b, s);
      var artifact := TextArtifact(TextIdOf(task.id, existing), s);
      Alloc.ClaimIsFree(Alloc.TextBase(task.id), b.ids.taken);
      UpdateMembers(xs, artifact, false);
      UpdateWritesOne(xs, artifact, false);
    } else {
      assert Client(xs, text) == xs;
    }
  }

  lemma {:induction false} ClientStopped(task: Task, events: seq<AgentEvent>)
    requires !IsTerminal(task.status.state) && Distinct(PriorOf(task))
    requires Gather(task.id, Ids(PriorOf(task)), events).Stopped?
    ensures Pictures(task, Gather(task.id, Ids(PriorOf(task)), events).turn,
                     HaltedByDone(task.id, Ids(PriorOf(task)), events),
                     Client(PriorOf(task), Streamed(task, 0, events).emitted))
  {
    var prior := PriorOf(task);
    var last := |events| - 1;
    AllSteps(task, events[..last]);
    var g := Gather(task.id, Ids(prior), events[..last]);
    if g.Stopped? {
      ClientStopped(task, events[..last]);
    } else {
      var so := Streamed(task, 0, events[..last]);
      var e := events[last];
      var one := StreamOne(task, 0, so.progress.turn, e);
      GatherIsFresh(task.id, Ids(prior), events[..last]);
      ClientShows(task, events[..last]);
      SameStep(task, Ids(prior), g.turn, so.progress.turn, e);
      ClientConcat(prior, so.emitted, one.emitted);
      assert one.emitted == (if e.Done? then FinalText(task.id, so.progress.turn) else [])
                            + [Closing(task, 0, so.progress.turn, one.progress.status)];
      ClosingPictures(task, g.turn, so.progress.turn, Client(prior, so.emitted), one.progress.status, e.Done?);
    }
  }

  lemma ClientEnds(task: Task, run: AgentRun)
    requires !IsTerminal(task.status.state) && Distinct(PriorOf(task))
    ensures Pictures(task, EndOf(task, run).0, Resends(task.id, Ids(PriorOf(task)), run),
                     Client(PriorOf(task), Emissions(task, 0, run)))
  {
    var prior := PriorOf(task);
    if run.NoSession? {
    } else {
      var g, so := Gather(task.id, Ids(prior), run.events), Streamed(task, 0, run.events);
      AllSteps(task, run.events);
      if g.Stopped? {
        ClientStopped(task, run.events);
      } else {
        GatherIsFresh(task.id, Ids(prior), run.events);
        ClientShows(task, run.events);
        ClientConcat(prior, so.emitted, Ended(task, 0, so.progress.turn, run.ending));
        ClosingPictures(task, g.turn, so.progress.turn, Client(prior, so.emitted), EndStatus(run.ending),
            run.ending.Returned?);
      }
    }
  }

  /** The text of an artifact, whatever parts it came in. */
  function TextOf(parts: seq<Part>): string {
    if parts == [] then ""
    else TextOf(parts[..|parts| - 1]) + (if parts[|parts| - 1].TextPart? then parts[|parts| - 1].text else "")
  }

  /** Equal, or the same text under the same id and descriptor. */
  predicate SameArtifact(x: Artifact, y: Artifact) {
    y.artifactId == x.artifactId && y.descriptor == x.descriptor && (y == x || TextOf(y.parts) == TextOf(x.parts))
  }

  lemma {:induction false} ChunksJoin(texts: seq<string>)
    ensures TextOf(Chunks(texts)) == Joined(texts)
  {
    if texts != [] {
      var last := |texts| - 1;
      ChunksJoin(texts[..last]);
      assert Chunks(texts)[..|Chunks(texts)| - 1] == Chunks(texts[..last]);
    }
  }

  /** A client that folded the whole stream holds the stored artifacts: the very ones when
      the agent was done or returned; otherwise all but the text artifact are the very
      ones, and the text has the stored id, descriptor and text, in chunks. */
  lemma ClientHoldsTheRecord(task: Task, run: AgentRun, x: Artifact)
    requires !IsTerminal(task.status.state) && Distinct(PriorOf(task))
    ensures var client := Client(PriorOf(task), Emissions(task, 0, run));
            var stored := PriorOf(StreamStored(task, run).stored);
            && Distinct(client) && Ids(client) == Ids(stored)
            && (Resends(task.id, Ids(PriorOf(task)), run) ==> (x in client <==> x in stored))
            && (x in client ==> exists y :: y in stored && SameArtifact(x, y))
  {
    var prior := PriorOf(task);
    var existing := Ids(prior);
    var t := EndOf(task, run).0;
    var client := Client(prior, Emissions(task, 0, run));
    var stored := PriorOf(StreamStored(task, run).stored);
    TurnOnlyAdds(task, run);
    ClientEnds(task, run);
    EndIsSame(task, run);
    var text, chunked := TextArtifact(TextIdOf(task.id, existing), t), ChunkedText(task.id, existing, t);
    assert stored == prior + Produced(task.id, t);
    assert Produced(task.id, t) == if t.texts == [] then t.others else t.others + [text];
    assert forall y :: y in stored <==> y in prior || y in t.others || (t.texts != [] && y == text);
    ChunksJoin(t.texts);
    if x in client {
      if t.texts != [] && x == chunked && !Resends(task.id, existing, run) {
        assert text in stored && SameArtifact(x, text);
      } else {
        assert x in stored && SameArtifact(x, x);
      }
    }
  }

  /** The text id of the finished turn. */
  lemma EndIsSame(task: Task, run: AgentRun)
    requires !IsTerminal(task.status.state)
    ensures var t := EndOf(task, run).0;
            Alloc.TextId(task.id, t.ids).0 == TextIdOf(task.id, Ids(PriorOf(task)))
  {
    if run.Session? {
      AllSteps(task, run.events);
      var g, so := Gather(task.id, Ids(PriorOf(task)), run.events), Streamed(task, 0, run.events);
      SameTextId(task.id, Ids(PriorOf(task)), g.turn, so.progress.turn);
    }
  }
}
