/** What the streaming pump writes for each event of its executor
    (transport/request-handler.ts, `_runStreamMessage`). */
module StreamFold {
  import opened Options
  import opened Artifacts
  import opened Tasks

  /** One value the executor's generator yields. The pump reads the executor's task
      snapshot at a status event: its artifact list, and whether the list was assigned
      since (`version` counts the assignments). */
  datatype Emission =
    | StatusUpdate(event: StatusEvent, snapshot: Option<seq<Artifact>>, version: nat)
    | ArtifactUpdate(artifact: Artifact, append: bool)

  /** The pump's accumulated list, and the assignment it last folded in. */
  datatype Fold = Fold(artifacts: seq<Artifact>, observed: nat)

  function Without(xs: seq<Artifact>, ids: set<string>): (r: seq<Artifact>)
    ensures Ids(xs) <= ids ==> r == []
    ensures forall x :: x in r <==> x in xs && x.artifactId !in ids
  {
    if xs == [] then []
    else
      assert forall x :: x in xs <==> x == xs[0] || x in xs[1..];
      if xs[0].artifactId in ids then
        assert xs[0].artifactId in Ids(xs);
        Without(xs[1..], ids)
      else [xs[0]] + Without(xs[1..], ids)
  }

  /** The accumulated list once `e` is taken in. */
  function Absorb(prior: seq<Artifact>, f: Fold, e: Emission): Fold {
    if e.ArtifactUpdate? then f.(artifacts := ApplyUpdate(f.artifacts, e.artifact, e.append))
    else if e.snapshot.Some? && e.version != f.observed then
      var canonical := Merge(prior, e.snapshot.value);
      Fold(canonical + Without(f.artifacts, Ids(canonical)), e.version)
    else f
  }

  /** Nothing accumulated is lost, whatever the executor yields and assigns: every id stays,
      and an artifact the assigned list does not name stays as it was. */
  lemma AbsorbLosesNothing(prior: seq<Artifact>, f: Fold, e: Emission)
    ensures Ids(f.artifacts) <= Ids(Absorb(prior, f, e).artifacts)
    ensures e.StatusUpdate? && e.snapshot.Some? && e.version != f.observed ==>
              forall x | x in f.artifacts && x.artifactId !in Ids(Merge(prior, e.snapshot.value)) ::
                x in Absorb(prior, f, e).artifacts
    ensures e.StatusUpdate? && e.snapshot.Some? && e.version != f.observed ==>
              Merge(prior, e.snapshot.value) <= Absorb(prior, f, e).artifacts
  {
    if e.ArtifactUpdate? {
      UpdateWritesOne(f.artifacts, e.artifact, e.append);
    } else if e.snapshot.Some? && e.version != f.observed {
      var canonical := Merge(prior, e.snapshot.value);
      forall x | x in f.artifacts && x.artifactId !in Ids(canonical)
        ensures x.artifactId in Ids(Without(f.artifacts, Ids(canonical)))
      {
        assert x in Without(f.artifacts, Ids(canonical));
      }
    }
  }

  /** The write for `e`, after it was absorbed. */
  function WriteOf(f: Fold, e: Emission): TaskUpdate {
    if e.ArtifactUpdate? then TaskUpdate(None, Some(f.artifacts), None, None)
    else StatusWrite(e.event.status, if f.artifacts != [] then Some(f.artifacts) else None)
  }

  function Start(task: Task, version: nat): Fold {
    Fold(PriorOf(task), version)
  }

  function PriorOf(task: Task): seq<Artifact> {
    if task.artifacts.Some? then task.artifacts.value else []
  }

  /** The pump over a healthy store with nobody else writing. */
  datatype Feed = Feed(stored: Task, fold: Fold, ended: bool, stopped: bool)

  function Take(prior: seq<Artifact>, p: Feed, e: Emission): Feed {
    if p.stopped then p
    else
      var fold := Absorb(prior, p.fold, e);
      var stored := Persisted(p.stored, WriteOf(fold, e));
      if e.ArtifactUpdate? then
        Feed(stored, fold, p.ended || IsTerminal(stored.status.state), IsTerminal(stored.status.state))
      else
        Feed(stored, fold, p.ended || EndsInteraction(Authoritative(e.event, stored)),
             IsTerminal(stored.status.state) && stored.status.state != e.event.status.state)
  }

  function TakeAll(prior: seq<Artifact>, p: Feed, emitted: seq<Emission>): Feed {
    if emitted == [] then p
    else Take(prior, TakeAll(prior, p, emitted[..|emitted| - 1]), emitted[|emitted| - 1])
  }

  lemma {:induction false} TakeAllConcat(prior: seq<Artifact>, p: Feed, a: seq<Emission>, b: seq<Emission>)
    ensures TakeAll(prior, p, a + b) == TakeAll(prior, TakeAll(prior, p, a), b)
  {
    if b == [] {
      assert a + b == a;
    } else {
      assert (a + b)[..|a + b| - 1] == a + b[..|b| - 1];
      TakeAllConcat(prior, p, a, b[..|b| - 1]);
    }
  }
}
