/** Artifact ids across the turns of one task (a2x/agent-executor.ts, `ArtifactIdAllocator`). */
module ArtifactIds {
  import opened Options
  import opened Decimal

  datatype Kind = DataKind | FileKind

  function Stem(taskId: string): string {
    "artifact-" + taskId + "-"
  }

  function CounterPrefix(taskId: string, kind: Kind): string {
    Stem(taskId) + (if kind.DataKind? then "data-" else "file-")
  }

  function TextBase(taskId: string): string {
    Stem(taskId) + "text"
  }

  /** The first counter from `n` on whose id is not taken: each id found taken is one
      element of a finite set that later counters cannot meet again. */
  function FirstFree(prefix: string, taken: set<string>, n: nat): (r: nat)
    ensures r >= n
    decreases |taken|
  {
    if prefix + Dec(n) !in taken then n
    else FirstFree(prefix, taken - {prefix + Dec(n)}, n + 1)
  }

  /** The search never skips a free counter and never returns a taken one. */
  lemma {:induction false} FirstFreeIsLeast(prefix: string, taken: set<string>, n: nat)
    ensures prefix + Dec(FirstFree(prefix, taken, n)) !in taken
    ensures forall m | n <= m < FirstFree(prefix, taken, n) :: prefix + Dec(m) in taken
    decreases |taken|
  {
    if prefix + Dec(n) in taken {
      var rest := taken - {prefix + Dec(n)};
      FirstFreeIsLeast(prefix, rest, n + 1);
      var r := FirstFree(prefix, rest, n + 1);
      if prefix + Dec(r) in taken {
        DecInjective(prefix, r, n);
      }
    }
  }

  /** Only the ids of its own family decide a search. */
  lemma FirstFreeOnFamily(prefix: string, taken: set<string>, more: set<string>, n: nat)
    requires forall m: nat :: prefix + Dec(m) !in more
    ensures FirstFree(prefix, taken + more, n) == FirstFree(prefix, taken, n)
  {
    var a, b := FirstFree(prefix, taken + more, n), FirstFree(prefix, taken, n);
    FirstFreeIsLeast(prefix, taken + more, n);
    FirstFreeIsLeast(prefix, taken, n);
    assert prefix + Dec(a) !in more && prefix + Dec(b) !in more;
  }

  /** The allocator's fields. */
  datatype State = State(taken: set<string>, counter: nat, textId: Option<string>)

  function Fresh(existing: set<string>): State {
    State(existing, 0, None)
  }

  function NextId(taskId: string, kind: Kind, s: State): (string, State) {
    var n := FirstFree(CounterPrefix(taskId, kind), s.taken, s.counter + 1);
    var id := CounterPrefix(taskId, kind) + Dec(n);
    (id, State(s.taken + {id}, n, s.textId))
  }

  function Claim(base: string, taken: set<string>): string {
    if base !in taken then base else base + "-" + Dec(FirstFree(base + "-", taken, 2))
  }

  function TextId(taskId: string, s: State): (string, State) {
    if s.textId.Some? then (s.textId.value, s)
    else
      var id := Claim(TextBase(taskId), s.taken);
      (id, State(s.taken + {id}, s.counter, Some(id)))
  }

  class ArtifactIdAllocator {
    const taskId: string
    var taken: set<string>
    var counter: nat
    var textId: Option<string>

    constructor (taskId: string, existing: set<string>)
      ensures this.taskId == taskId && Now() == Fresh(existing)
    {
      this.taskId, taken, counter, textId := taskId, existing, 0, None;
    }

    function Now(): State
      reads this
    {
      State(taken, counter, textId)
    }

    method Next(kind: Kind) returns (id: string)
      modifies this
      ensures (id, Now()) == NextId(taskId, kind, old(Now()))
    {
      var prefix := CounterPrefix(taskId, kind);
      counter := counter + 1;
      id := prefix + Dec(counter);
      ghost var first, untried := counter, taken;
      while id in taken
        invariant taken == old(taken) && textId == old(textId)
        invariant id == prefix + Dec(counter) && untried <= taken
        invariant FirstFree(prefix, taken, first) == FirstFree(prefix, untried, counter)
        invariant forall m: nat :: m >= counter && prefix + Dec(m) in taken ==> prefix + Dec(m) in untried
        decreases |untried|
      {
        forall m: nat | m > counter && prefix + Dec(m) in taken
          ensures prefix + Dec(m) in untried - {id}
        {
          if prefix + Dec(m) == id {
            DecInjective(prefix, m, counter);
          }
        }
        untried := untried - {id};
        counter := counter + 1;
        id := prefix + Dec(counter);
      }
      taken := taken + {id};
    }

    method Text() returns (id: string)
      modifies this
      ensures (id, Now()) == TextId(taskId, old(Now()))
    {
      if textId.None? {
        var claimed := ClaimId(TextBase(taskId));
        textId := Some(claimed);
      }
      id := textId.value;
    }

    method ClaimId(base: string) returns (id: string)
      modifies this`taken
      ensures id == Claim(base, old(taken)) && taken == old(taken) + {id}
    {
      if base !in taken {
        taken := taken + {base};
        return base;
      }
      var suffix := 2;
      ghost var untried := taken;
      while base + "-" + Dec(suffix) in taken
        invariant taken == old(taken) && untried <= taken
        invariant FirstFree(base + "-", taken, 2) == FirstFree(base + "-", untried, suffix)
        invariant forall m: nat :: m >= suffix && base + "-" + Dec(m) in taken ==> base + "-" + Dec(m) in untried
        decreases |untried|
      {
        forall m: nat | m > suffix && base + "-" + Dec(m) in taken
          ensures base + "-" + Dec(m) in untried - {base + "-" + Dec(suffix)}
        {
          if base + "-" + Dec(m) == base + "-" + Dec(suffix) {
            DecInjective(base + "-", m, suffix);
          }
        }
        untried := untried - {base + "-" + Dec(suffix)};
        suffix := suffix + 1;
      }
      id := base + "-" + Dec(suffix);
      taken := taken + {id};
    }
  }

  /** One turn's calls on its allocator. */
  datatype Request = ForText | ForKind(kind: Kind)

  function Answer(taskId: string, s: State, r: Request): (string, State) {
    if r.ForText? then TextId(taskId, s) else NextId(taskId, r.kind, s)
  }

  function After(taskId: string, s: State, requests: seq<Request>): State {
    if requests == [] then s
    else Answer(taskId, After(taskId, s, requests[..|requests| - 1]), requests[|requests| - 1]).1
  }

  /** The id the `k`-th call of the turn returns. */
  function Nth(taskId: string, existing: set<string>, requests: seq<Request>, k: nat): string
    requires k < |requests|
  {
    Answer(taskId, After(taskId, Fresh(existing), requests[..k]), requests[k]).0
  }

  ghost predicate IsCounterId(taskId: string, id: string) {
    exists kind, m: nat :: id == CounterPrefix(taskId, kind) + Dec(m)
  }

  lemma FamiliesDiffer(taskId: string, kind: Kind, m: nat, text: string)
    requires TextBase(taskId) <= text
    ensures CounterPrefix(taskId, kind) + Dec(m) != text
  {
    var at := |Stem(taskId)|;
    assert (CounterPrefix(taskId, kind) + Dec(m))[at] != 't';
    assert text[at] == 't';
  }

  lemma ClaimIsFree(base: string, taken: set<string>)
    ensures Claim(base, taken) !in taken
  {
    FirstFreeIsLeast(base + "-", taken, 2);
  }

  lemma NextIdIsFresh(taskId: string, kind: Kind, s: State)
    ensures NextId(taskId, kind, s).0 !in s.taken
  {
    FirstFreeIsLeast(CounterPrefix(taskId, kind), s.taken, s.counter + 1);
  }

  /** Ids of the counter families never decide the text id. */
  lemma TextIdIgnoresCounters(taskId: string, existing: set<string>, handed: set<string>)
    requires forall id | id in handed :: IsCounterId(taskId, id)
    ensures Claim(TextBase(taskId), existing + handed) == Claim(TextBase(taskId), existing)
  {
    forall id | id in handed
      ensures id != TextBase(taskId) && forall m: nat :: id != TextBase(taskId) + "-" + Dec(m)
    {
      var kind, m: nat :| id == CounterPrefix(taskId, kind) + Dec(m);
      FamiliesDiffer(taskId, kind, m, TextBase(taskId));
      forall n: nat ensures id != TextBase(taskId) + "-" + Dec(n) {
        FamiliesDiffer(taskId, kind, m, TextBase(taskId) + "-" + Dec(n));
      }
    }
    assert forall m: nat :: TextBase(taskId) + "-" + Dec(m) !in handed;
    FirstFreeOnFamily(TextBase(taskId) + "-", existing, handed, 2);
  }

  /** What a turn's allocator knows: everything taken is an id the task came with, an id
      it handed out for a file or data part, or the one text id. */
  ghost predicate TurnInv(taskId: string, existing: set<string>, s: State, handed: set<string>) {
    && s.taken == existing + handed + (if s.textId.Some? then {s.textId.value} else {})
    && (forall id | id in handed :: IsCounterId(taskId, id))
    && (s.textId.Some? ==> s.textId.value == Claim(TextBase(taskId), existing))
  }

  lemma TextStep(taskId: string, existing: set<string>, s: State, handed: set<string>)
    requires TurnInv(taskId, existing, s, handed)
    ensures var (id, t) := TextId(taskId, s);
            TurnInv(taskId, existing, t, handed) && t.textId == Some(id) && id == Claim(TextBase(taskId), existing)
  {
    if s.textId.None? {
      assert s.taken == existing + handed;
      TextIdIgnoresCounters(taskId, existing, handed);
    }
  }

  lemma {:induction false} TurnTaken(taskId: string, existing: set<string>, requests: seq<Request>)
    returns (handed: set<string>)
    ensures TurnInv(taskId, existing, After(taskId, Fresh(existing), requests), handed)
    ensures forall k | 0 <= k < |requests| ::
              Nth(taskId, existing, requests, k) in After(taskId, Fresh(existing), requests).taken
  {
    handed := {};
    if requests != [] {
      var last := |requests| - 1;
      var before := After(taskId, Fresh(existing), requests[..last]);
      handed := TurnTaken(taskId, existing, requests[..last]);
      forall k | 0 <= k < last
        ensures Nth(taskId, existing, requests, k) in before.taken
      {
        assert requests[..last][..k] == requests[..k];
        assert Nth(taskId, existing, requests[..last], k) in before.taken;
      }
      if requests[last].ForText? {
        TextStep(taskId, existing, before, handed);
      } else {
        handed := handed + {NextId(taskId, requests[last].kind, before).0};
      }
    }
  }

  /** Whatever a turn asks for, and in whatever order: no id repeats one the task already
      carries, two calls share an id exactly when both ask for the text artifact, and the
      text id does not depend on when it is first asked for. */
  lemma TurnIdsAreUnique(taskId: string, existing: set<string>, requests: seq<Request>, i: nat, j: nat)
    requires i < j < |requests|
    ensures Nth(taskId, existing, requests, j) !in existing
    ensures requests[j].ForText? ==> Nth(taskId, existing, requests, j) == Claim(TextBase(taskId), existing)
    ensures Nth(taskId, existing, requests, i) == Nth(taskId, existing, requests, j)
            <==> requests[i].ForText? && requests[j].ForText?
  {
    var before := After(taskId, Fresh(existing), requests[..j]);
    ghost var handed := TurnTaken(taskId, existing, requests[..j]);
    assert requests[..j][..i] == requests[..i];
    assert Nth(taskId, existing, requests[..j], i) == Nth(taskId, existing, requests, i);
    if requests[j].ForKind? {
      NextIdIsFresh(taskId, requests[j].kind, before);
    } else {
      TextStep(taskId, existing, before, handed);
      ClaimIsFree(TextBase(taskId), existing);
      ghost var earlier := TurnTaken(taskId, existing, requests[..i]);
      if requests[i].ForText? {
        TextStep(taskId, existing, After(taskId, Fresh(existing), requests[..i]), earlier);
      } else {
        TextIsNoCounter(taskId, existing, requests[i].kind, After(taskId, Fresh(existing), requests[..i]));
      }
    }
  }

  lemma TextIsNoCounter(taskId: string, existing: set<string>, kind: Kind, s: State)
    ensures NextId(taskId, kind, s).0 != Claim(TextBase(taskId), existing)
  {
    FamiliesDiffer(taskId, kind, FirstFree(CounterPrefix(taskId, kind), s.taken, s.counter + 1),
                   Claim(TextBase(taskId), existing));
  }
}
