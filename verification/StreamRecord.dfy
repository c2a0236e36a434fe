/** What the stored artifacts hold at every moment of a streamed turn
    (transport/request-handler.ts, a2x/agent-executor.ts). */
module StreamRecord {
  import opened Options
  import opened Artifacts
  import opened Tasks
  import opened StreamFold
  import opened Executors
  import opened StreamEqualsSend
  import Alloc = ArtifactIds

  // ---- Descriptors only grow -----------------------------------------------------------

  lemma {:induction false} LookupAfter(a: Entries, key: string, value: Value, other: string)
    ensures Lookup(a + [(key, value)], other) ==
              if Lookup(a, other).Some? then Lookup(a, other) else if other == key then Some(value) else None
  {
    if a != [] {
      assert (a + [(key, value)])[1..] == a[1..] + [(key, value)];
      LookupAfter(a[1..], key, value, other);
    } else {
      assert ([] + [(key, value)])[1..] == [];
    }
  }

  lemma {:induction false} LookupConcat(a: Entries, b: Entries, key: string)
    ensures Lookup(a + b, key) == if Lookup(a, key).Some? then Lookup(a, key) else Lookup(b, key)
  {
    if a == [] {
      assert a + b == b;
    } else {
      assert (a + b)[1..] == a[1..] + b;
      LookupConcat(a[1..], b, key);
    }
  }

  /** The incoming entry repeats an earlier key with another value. */
  ghost predicate Disagrees(merged: Entries, incoming: Entries, i: nat)
    requires i < |incoming|
  {
    var earlier := Lookup(merged + incoming[..i], incoming[i].0);
    earlier.Some? && earlier.value != incoming[i].1
  }

  /** Taking the first incoming entry over leaves the others' disagreements as they are. */
  lemma DisagreesNext(merged: Entries, incoming: Entries, i: nat)
    requires 0 < i < |incoming| && !Disagrees(merged, incoming, 0)
    ensures var (k, value) := incoming[0];
            var next := if Lookup(merged, k).None? then merged + [(k, value)] else merged;
            Disagrees(next, incoming[1..], i - 1) <==> Disagrees(merged, incoming, i)
  {
    var (k, value) := incoming[0];
    var key, next := incoming[i].0, if Lookup(merged, k).None? then merged + [(k, value)] else merged;
    assert incoming[..i] == [(k, value)] + incoming[1..][..i - 1];
    assert incoming[1..][i - 1] == incoming[i];
    LookupConcat(merged, incoming[..i], key);
    LookupConcat([(k, value)], incoming[1..][..i - 1], key);
    LookupConcat(next, incoming[1..][..i - 1], key);
    LookupConcat(merged, [(k, value)], key);
  }

  /** A conflict is reported exactly when some key is repeated with another value. */
  lemma {:induction false} ConflictsExactly(merged: Entries, incoming: Entries)
    ensures MergeEntries(merged, incoming).Conflict? <==>
            exists i | 0 <= i < |incoming| :: Disagrees(merged, incoming, i)
    decreases |incoming|
  {
    if incoming != [] {
      var (k, value) := incoming[0];
      assert merged + incoming[..0] == merged;
      if Lookup(merged, k).Some? && Lookup(merged, k).value != value {
        assert Disagrees(merged, incoming, 0);
      } else {
        var next := if Lookup(merged, k).None? then merged + [(k, value)] else merged;
        ConflictsExactly(next, incoming[1..]);
        forall i | 0 < i < |incoming|
          ensures Disagrees(next, incoming[1..], i - 1) <==> Disagrees(merged, incoming, i)
        {
          DisagreesNext(merged, incoming, i);
        }
        forall j | 0 <= j < |incoming[1..]| && Disagrees(next, incoming[1..], j)
          ensures Disagrees(merged, incoming, j + 1)
        {
          DisagreesNext(merged, incoming, j + 1);
        }
      }
    }
  }

  /** Merged metadata: every key keeps the value it had, and a new key takes the incoming
      one. */
  lemma {:induction false} MergeEntriesKeeps(merged: Entries, incoming: Entries, key: string)
    ensures var r := MergeEntries(merged, incoming);
            r.Ok? ==> Lookup(r.value, key) ==
                        if Lookup(merged, key).Some? then Lookup(merged, key) else Lookup(incoming, key)
    ensures MergeEntries(merged, incoming).Ok? && Lookup(merged, key).Some? && Lookup(incoming, key).Some? ==>
              Lookup(merged, key) == Lookup(incoming, key)
    decreases |incoming|
  {
    if incoming != [] {
      var (k, value) := incoming[0];
      LookupAfter(merged, k, value, key);
      MergeEntriesKeeps(if Lookup(merged, k).None? then merged + [(k, value)] else merged, incoming[1..], key);
    }
  }

  lemma {:induction false} DedupedFacts(seen: seq<string>, incoming: seq<string>)
    requires forall i, j | 0 <= i < j < |seen| :: seen[i] != seen[j]
    ensures var r := Deduped(seen, incoming);
            && seen <= r && (forall i, j | 0 <= i < j < |r| :: r[i] != r[j])
            && (forall x :: x in r <==> x in seen || x in incoming)
    decreases |incoming|
  {
    if incoming != [] {
      var head, rest := incoming[0], incoming[1..];
      var next := if head in seen then seen else seen + [head];
      assert forall i, j | 0 <= i < j < |next| :: next[i] != next[j];
      DedupedFacts(next, rest);
      assert incoming == [head] + rest;
      assert forall x :: x in incoming <==> x == head || x in rest;
      assert forall x :: x in next <==> x == head || x in seen;
    }
  }

  /** A text field that one of two descriptors sets to what the other does not. */
  predicate Differ(a: Option<string>, b: Option<string>) {
    a.Some? && b.Some? && a.value != b.value
  }

  /** Descriptors of the chunks of one text accumulate: names and descriptions may not
      change, extensions are the union without repetition, and metadata merges by key. They
      conflict if and only if a name, a description or a metadata key does. */
  lemma MergedDescriptor(c: Descriptor, e: Descriptor)
    ensures var r := MergeDescriptor(Some(c), Some(e));
            var metadata := MergeEntries(if c.metadata.Some? then c.metadata.value else [],
                if e.metadata.Some? then e.metadata.value else []);
            && (r.Conflict? <==> Differ(c.name, e.name) || Differ(c.description, e.description) || metadata.Conflict?)
            && (r.Ok? ==>
                  && r.value.Some?
                  && var d := r.value.value;
                     && d.name == (if c.name.Some? then c.name else e.name)
                     && d.description == (if c.description.Some? then c.description else e.description)
                     && (d.metadata.Some? <==> c.metadata.Some? || e.metadata.Some?)
                     && (d.metadata.Some? ==> metadata.Ok? && d.metadata.value == metadata.value)
                     && (e.extensions.None? ==> d.extensions == c.extensions)
                     && (e.extensions.Some? ==>
                           && d.extensions.Some?
                           && var xs := d.extensions.value;
                              && (forall i, j | 0 <= i < j < |xs| :: xs[i] != xs[j])
                              && forall x :: x in xs <==>
                                   x in e.extensions.value || (c.extensions.Some? && x in c.extensions.value)))
  {
    if e.extensions.Some? {
      DedupedFacts([], (if c.extensions.Some? then c.extensions.value else []) + e.extensions.value);
    }
  }

  /** A later descriptor never loses a field of an earlier one: laying it over the stored
      one gives the later one. */
  lemma MergedCovers(current: Option<Descriptor>, incoming: Option<Descriptor>)
    requires MergeDescriptor(current, incoming).Ok?
    ensures Overlay(CopyDescriptor(current), CopyDescriptor(MergeDescriptor(current, incoming).value))
            == CopyDescriptor(MergeDescriptor(current, incoming).value)
  {
  }

  // ---- Fresh ids -------------------------------------------------------------------------

  /** The blocking turn's artifacts carry ids of their own. */
  ghost predicate FreshTurn(existing: set<string>, t: Turn) {
    && Distinct(t.others) && Ids(t.others) !! existing
    && Ids(t.others) + existing <= t.ids.taken && t.ids.textId.None?
  }

  lemma {:induction false} GatherIsFresh(taskId: string, existing: set<string>, events: seq<AgentEvent>)
    ensures FreshTurn(existing, Gather(taskId, existing, events).turn)
  {
    if events != [] {
      var last := |events| - 1;
      GatherIsFresh(taskId, existing, events[..last]);
      var t := Gather(taskId, existing, events[..last]).turn;
      if events[last].FileEvent? || events[last].DataEvent? {
        AddIsFresh(taskId, existing, t, events[last]);
      }
    }
  }

  lemma AddIsFresh(taskId: string, existing: set<string>, t: Turn, e: AgentEvent)
    requires FreshTurn(existing, t) && (e.FileEvent? || e.DataEvent?)
    ensures FreshTurn(existing, AddOther(taskId, t, e))
  {
    Alloc.NextIdIsFresh(taskId, KindOf(e), t.ids);
    var u := AddOther(taskId, t, e);
    forall i | 0 <= i < |t.others| ensures t.others[i].artifactId != u.others[|t.others|].artifactId {
      IdsMember(t.others, i);
    }
  }

  lemma DistinctConcat(xs: seq<Artifact>, ys: seq<Artifact>)
    requires Distinct(xs) && Distinct(ys) && Ids(xs) !! Ids(ys)
    ensures Distinct(xs + ys)
  {
    forall i, j | 0 <= i < |xs| && 0 <= j < |ys| ensures xs[i].artifactId != ys[j].artifactId {
      IdsMember(xs, i);
      IdsMember(ys, j);
    }
  }

  /** A turn only adds: the stored list is the one the task had, untouched, followed by
      what the turn produced, and its ids are distinct again. */
  lemma TurnOnlyAdds(task: Task, run: AgentRun)
    requires !IsTerminal(task.status.state) && Distinct(PriorOf(task))
    ensures var stored := StreamStored(task, run).stored;
            && PriorOf(stored) == PriorOf(task) + Produced(task.id, EndOf(task, run).0)
            && Distinct(PriorOf(stored))
            && stored == task.(status := stored.status, artifacts := stored.artifacts)
  {
    var prior := PriorOf(task);
    var t := EndOf(task, run).0;
    StreamLeaves(task, run);
    if run.Session? {
      GatherIsFresh(task.id, Ids(prior), run.events);
    }
    var produced := Produced(task.id, t);
    if t.texts != [] {
      Alloc.ClaimIsFree(Alloc.TextBase(task.id), t.ids.taken);
      var text := TextArtifact(Alloc.TextId(task.id, t.ids).0, t);
      assert Ids([text]) == {text.artifactId} by { IdsMember([text], 0); }
      DistinctConcat(t.others, [text]);
    }
    DistinctConcat(prior, produced);
    MergeFresh(prior, produced);
    assert prior + [] == prior;
  }

  // ---- While the turn runs ------------------------------------------------------------------

  function Chunks(texts: seq<string>): seq<Part> {
    if texts == [] then [] else Chunks(texts[..|texts| - 1]) + [TextPart(texts[|texts| - 1])]
  }

  /** The text artifact as streamed so far: one part a chunk. */
  function ChunkedText(taskId: string, existing: set<string>, t: Turn): Artifact {
    Artifact(TextIdOf(taskId, existing), CopyDescriptor(t.descriptor), Chunks(t.texts))
  }

  /** The list holds the prior artifacts, the turn's file and data parts and the chunks
      received, each unchanged, and nothing else. */
  ghost predicate Shows(task: Task, t: Turn, xs: seq<Artifact>) {
    && Distinct(xs)
    && forall x :: x in xs <==>
         || x in PriorOf(task) || x in t.others
         || (t.texts != [] && x == ChunkedText(task.id, Ids(PriorOf(task)), t))
  }

  lemma ShowsOther(task: Task, b: Turn, s: Turn, e: AgentEvent, xs: seq<Artifact>)
    requires SameTurn(task.id, Ids(PriorOf(task)), b, s) && FreshTurn(Ids(PriorOf(task)), b)
    requires (e.FileEvent? || e.DataEvent?) && Shows(task, b, xs)
    ensures var u := AddOther(task.id, s, e);
            Shows(task, u, ApplyUpdate(xs, u.others[|b.others|], false))
  {
    var existing := Ids(PriorOf(task));
    var u := AddOther(task.id, s, e);
    var added := u.others[|b.others|];
    SameOther(task.id, existing, b, s, e);
    AddIsFresh(task.id, existing, b, e);
    Alloc.NextIdIsFresh(task.id, KindOf(e), b.ids);
    Alloc.FamiliesDiffer(task.id, KindOf(e), u.ids.counter, TextIdOf(task.id, existing));
    UpdateMembers(xs, added, false);
    UpdateWritesOne(xs, added, false);
  }

  /** Neither a prior artifact nor a file or data part carries the text artifact's id. */
  ghost predicate Apart(task: Task, t: Turn) {
    forall x | x in PriorOf(task) || x in t.others :: x.artifactId != TextIdOf(task.id, Ids(PriorOf(task)))
  }

  lemma TextIdIsApart(task: Task, b: Turn, s: Turn)
    requires SameTurn(task.id, Ids(PriorOf(task)), b, s) && FreshTurn(Ids(PriorOf(task)), b)
    ensures Apart(task, b)
  {
    SameTextId(task.id, Ids(PriorOf(task)), b, s);
    Alloc.ClaimIsFree(Alloc.TextBase(task.id), b.ids.taken);
  }

  /** One more chunk: the emission that carries it and the turn after it. */
  ghost predicate Chunked(task: Task, b: Turn, u: Turn, x: Artifact) {
    && u.others == b.others && u.texts != [] && u.texts[..|u.texts| - 1] == b.texts
    && x == Artifact(TextIdOf(task.id, Ids(PriorOf(task))), CopyDescriptor(u.descriptor),
                [TextPart(u.texts[|u.texts| - 1])])
    && Overlay(CopyDescriptor(b.descriptor), CopyDescriptor(u.descriptor)) == CopyDescriptor(u.descriptor)
  }

  lemma WrittenIsChunked(task: Task, b: Turn, u: Turn, x: Artifact, xs: seq<Artifact>)
    requires Shows(task, b, xs) && Apart(task, b) && Chunked(task, b, u, x)
    ensures Written(xs, x, b.texts != []) == ChunkedText(task.id, Ids(PriorOf(task)), u)
  {
    if b.texts == [] {
      assert Chunks(u.texts) == Chunks([]) + x.parts;
    } else {
      assert ChunkedText(task.id, Ids(PriorOf(task)), b) in xs;
    }
  }

  lemma ShowsChunk(task: Task, b: Turn, u: Turn, x: Artifact, xs: seq<Artifact>)
    requires Shows(task, b, xs) && Apart(task, b) && Chunked(task, b, u, x)
    ensures Shows(task, u, ApplyUpdate(xs, x, b.texts != []))
  {
    WrittenIsChunked(task, b, u, x, xs);
    UpdateMembers(xs, x, b.texts != []);
    UpdateWritesOne(xs, x, b.texts != []);
  }

  lemma ShowsText(task: Task, b: Turn, s: Turn, e: AgentEvent, xs: seq<Artifact>)
    requires SameTurn(task.id, Ids(PriorOf(task)), b, s) && FreshTurn(Ids(PriorOf(task)), b)
    requires e.TextEvent? && Chunk(task.id, s, e).Ok? && Shows(task, b, xs)
    ensures var (u, emitted) := Chunk(task.id, s, e).value;
            emitted[0].ArtifactUpdate? && Shows(task, u, ApplyUpdate(xs, emitted[0].artifact, emitted[0].append))
  {
    var (u, emitted) := Chunk(task.id, s, e).value;
    SameTextId(task.id, Ids(PriorOf(task)), b, s);
    TextIdIsApart(task, b, s);
    MergedCovers(b.descriptor, e.artifact);
    ShowsChunk(task, b, u, emitted[0].artifact, xs);
  }

  lemma ShowsStep(task: Task, b: Turn, s: Turn, e: AgentEvent, p: Feed)
    requires SameTurn(task.id, Ids(PriorOf(task)), b, s) && FreshTurn(Ids(PriorOf(task)), b)
    requires Accumulates(task, b, p) && Shows(task, b, p.fold.artifacts)
    requires StreamOne(task, 0, s, e).progress.Running?
    ensures var one := StreamOne(task, 0, s, e);
            Shows(task, one.progress.turn, TakeAll(PriorOf(task), p, one.emitted).fold.artifacts)
  {
    var one := StreamOne(task, 0, s, e);
    if e.TextEvent? {
      ShowsText(task, b, s, e, p.fold.artifacts);
      OneMore(p, PriorOf(task), one.emitted[0]);
      assert one.emitted == [one.emitted[0]];
    } else if e.FileEvent? || e.DataEvent? {
      ShowsOther(task, b, s, e, p.fold.artifacts);
      OneMore(p, PriorOf(task), one.emitted[0]);
      assert one.emitted == [one.emitted[0]];
    }
  }

  /** At every moment of a running stream the durable record already holds everything its
      subscribers were sent: whoever interrupts the turn interrupts it with this record. */
  lemma {:induction false} RecordNeverLags(task: Task, events: seq<AgentEvent>)
    requires !IsTerminal(task.status.state) && Distinct(PriorOf(task))
    requires Gather(task.id, Ids(PriorOf(task)), events).Running?
    ensures var t := Gather(task.id, Ids(PriorOf(task)), events).turn;
            var p := TakeAll(PriorOf(task), Feed(task, Start(task, 0), false, false),
                Streamed(task, 0, events).emitted);
            Shows(task, t, p.fold.artifacts) && Shows(task, t, PriorOf(p.stored))
  {
    var prior := PriorOf(task);
    var p0 := Feed(task, Start(task, 0), false, false);
    AllSteps(task, events);
    if events == [] {
      OneMore(p0, prior, Streamed(task, 0, []).emitted[0]);
    } else {
      var last := |events| - 1;
      RecordNeverLags(task, events[..last]);
      AllSteps(task, events[..last]);
      GatherIsFresh(task.id, Ids(prior), events[..last]);
      var b := Gather(task.id, Ids(prior), events[..last]).turn;
      var so := Streamed(task, 0, events[..last]);
      var p := TakeAll(prior, p0, so.emitted);
      TakeAllConcat(prior, p0, so.emitted, StreamOne(task, 0, so.progress.turn, events[last]).emitted);
      SameStep(task, Ids(prior), b, so.progress.turn, events[last]);
      ShowsStep(task, b, so.progress.turn, events[last], p);
    }
  }
}
