/** Artifact lists and the fold of artifact updates onto them (a2x/task-store.ts,
    transport/request-handler.ts). */
module Artifacts {
  import opened Options

  /** A JSON value, compared by deep equality. */
  type Value = string

  datatype Part =
    | TextPart(text: string)
    | FilePart(file: Value)
    | DataPart(data: Value, mediaType: Option<string>)

  /** An object's entries in insertion order; keys are distinct. */
  type Entries = seq<(string, Value)>

  datatype Descriptor = Descriptor(
    name: Option<string>, description: Option<string>,
    metadata: Option<Entries>, extensions: Option<seq<string>>)

  const NoDescriptor := Descriptor(None, None, None, None)

  datatype Artifact = Artifact(artifactId: string, descriptor: Descriptor, parts: seq<Part>)

  function Ids(xs: seq<Artifact>): set<string> {
    set x | x in xs :: x.artifactId
  }

  predicate Distinct(xs: seq<Artifact>) {
    forall i, j | 0 <= i < j < |xs| :: xs[i].artifactId != xs[j].artifactId
  }

  function FindIndex(xs: seq<Artifact>, id: string): (r: Option<nat>)
    ensures r.Some? ==> r.value < |xs| && xs[r.value].artifactId == id
    ensures r.Some? ==> forall j | 0 <= j < r.value :: xs[j].artifactId != id
    ensures r.None? ==> forall j | 0 <= j < |xs| :: xs[j].artifactId != id
  {
    if xs == [] then None
    else if xs[0].artifactId == id then Some(0)
    else
      var rest := FindIndex(xs[1..], id);
      assert forall j | 0 < j < |xs| :: xs[j] == xs[1..][j - 1];
      if rest.None? then None else Some(rest.value + 1)
  }

  function Over<T>(current: Option<T>, next: Option<T>): Option<T> {
    if next.Some? then next else current
  }

  /** Spreading a descriptor over another: fields it does not carry stay. */
  function Overlay(d: Descriptor, e: Descriptor): Descriptor {
    Descriptor(Over(d.name, e.name), Over(d.description, e.description),
               Over(d.metadata, e.metadata), Over(d.extensions, e.extensions))
  }

  function ApplyUpdate(xs: seq<Artifact>, artifact: Artifact, append: bool): seq<Artifact> {
    var index := FindIndex(xs, artifact.artifactId);
    if index.None? then xs + [artifact]
    else if append then
      var existing := xs[index.value];
      xs[index.value := Artifact(existing.artifactId, Overlay(existing.descriptor, artifact.descriptor),
                                 existing.parts + artifact.parts)]
    else xs[index.value := artifact]
  }

  /** `mergeArtifacts`: every produced artifact applied as a non-append update. */
  function Merge(prior: seq<Artifact>, produced: seq<Artifact>): seq<Artifact> {
    if produced == [] then prior
    else ApplyUpdate(Merge(prior, produced[..|produced| - 1]), produced[|produced| - 1], false)
  }

  lemma IdsMember(xs: seq<Artifact>, i: nat)
    requires i < |xs|
    ensures xs[i].artifactId in Ids(xs)
  {
    assert xs[i] in xs;
  }

  /** One update writes the artifact with its id and leaves every other artifact, and
      the order, as they were; ids stay distinct. */
  lemma UpdateWritesOne(xs: seq<Artifact>, artifact: Artifact, append: bool)
    ensures var ys := ApplyUpdate(xs, artifact, append);
            && Ids(ys) == Ids(xs) + {artifact.artifactId}
            && |ys| == |xs| + (if artifact.artifactId in Ids(xs) then 0 else 1)
            && (forall i | 0 <= i < |xs| && xs[i].artifactId != artifact.artifactId :: ys[i] == xs[i])
            && (Distinct(xs) ==> Distinct(ys))
  {
    var ys := ApplyUpdate(xs, artifact, append);
    var index := FindIndex(xs, artifact.artifactId);
    if index.Some? {
      IdsMember(xs, index.value);
      forall id | id in Ids(xs) ensures id in Ids(ys) {
        var x :| x in xs && x.artifactId == id;
        var i :| 0 <= i < |xs| && xs[i] == x;
        assert ys[i].artifactId == id;
        IdsMember(ys, i);
      }
      IdsMember(ys, index.value);
      forall y | y in ys ensures y.artifactId in Ids(xs) + {artifact.artifactId} {
        var i :| 0 <= i < |ys| && ys[i] == y;
        IdsMember(xs, i);
      }
    }
  }

  /** What an update stores under its id. */
  function Written(xs: seq<Artifact>, artifact: Artifact, append: bool): Artifact {
    var index := FindIndex(xs, artifact.artifactId);
    if index.None? || !append then artifact
    else
      var existing := xs[index.value];
      Artifact(existing.artifactId, Overlay(existing.descriptor, artifact.descriptor),
          existing.parts + artifact.parts)
  }

  /** `x` is the artifact as sent or, where it was appended, ends with it. */
  predicate Reflects(x: Artifact, artifact: Artifact, append: bool) {
    && x.artifactId == artifact.artifactId
    && (if append
        then |artifact.parts| <= |x.parts| && x.parts[|x.parts| - |artifact.parts|..] == artifact.parts
             && Overlay(x.descriptor, artifact.descriptor) == x.descriptor
        else x == artifact)
  }

  lemma UpdateReflects(xs: seq<Artifact>, artifact: Artifact, append: bool)
    ensures exists x | x in ApplyUpdate(xs, artifact, append) :: Reflects(x, artifact, append)
  {
    var ys, index := ApplyUpdate(xs, artifact, append), FindIndex(xs, artifact.artifactId);
    assert Reflects(ys[if index.Some? then index.value else |xs|], artifact, append);
  }

  lemma UpdateMembers(xs: seq<Artifact>, artifact: Artifact, append: bool)
    requires Distinct(xs)
    ensures forall x :: x in ApplyUpdate(xs, artifact, append) <==>
                          (x in xs && x.artifactId != artifact.artifactId) || x == Written(xs, artifact, append)
  {
    var ys := ApplyUpdate(xs, artifact, append);
    var index := FindIndex(xs, artifact.artifactId);
    if index.Some? {
      assert ys == xs[..index.value] + [Written(xs, artifact, append)] + xs[index.value + 1..];
      assert xs == xs[..index.value] + [xs[index.value]] + xs[index.value + 1..];
    }
  }

  /** Artifacts under new ids are added behind the prior ones, which stay untouched. */
  lemma {:induction false} MergeFresh(prior: seq<Artifact>, produced: seq<Artifact>)
    requires Distinct(prior + produced)
    ensures Merge(prior, produced) == prior + produced
  {
    if produced == [] {
      assert prior + produced == prior;
    } else {
      var last := |produced| - 1;
      assert (prior + produced)[..|prior| + last] == prior + produced[..last];
      MergeFresh(prior, produced[..last]);
      assert produced[last] == (prior + produced)[|prior| + last];
      forall j | 0 <= j < |prior| + last
        ensures (prior + produced[..last])[j].artifactId != produced[last].artifactId
      {
        assert (prior + produced[..last])[j] == (prior + produced)[j];
      }
      assert prior + produced == prior + produced[..last] + [produced[last]];
    }
  }

  lemma {:induction false} MergeIds(prior: seq<Artifact>, produced: seq<Artifact>)
    ensures Ids(Merge(prior, produced)) == Ids(prior) + Ids(produced)
    ensures Distinct(prior) ==> Distinct(Merge(prior, produced))
  {
    if produced != [] {
      var last := |produced| - 1;
      MergeIds(prior, produced[..last]);
      UpdateWritesOne(Merge(prior, produced[..last]), produced[last], false);
      assert produced == produced[..last] + [produced[last]];
    }
  }

  lemma {:induction false} MergeOwnPrefix(prior: seq<Artifact>, k: nat)
    requires Distinct(prior) && k <= |prior|
    ensures Merge(prior, prior[..k]) == prior
  {
    if k > 0 {
      MergeOwnPrefix(prior, k - 1);
      assert prior[..k][..k - 1] == prior[..k - 1];
      assert FindIndex(prior, prior[k - 1].artifactId) == Some(k - 1);
    }
  }

  /** A turn that produced nothing folds the task's own list back unchanged. */
  lemma MergeSelf(prior: seq<Artifact>)
    requires Distinct(prior)
    ensures Merge(prior, prior) == prior
  {
    MergeOwnPrefix(prior, |prior|);
    assert prior[..|prior|] == prior;
  }
}
