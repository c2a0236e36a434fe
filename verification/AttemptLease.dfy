/** The full-attempt lease (x402/batch-attempt.ts): a chain of promises per storage
    object. Each call awaits its predecessor; a release may carry the error of an
    unsafe outcome, which every call already chained behind it must then throw. */
module AttemptLease {
  import opened Options

  /** The `X402ReconciliationError` a quarantine hands to the queue. */
  datatype Unsafe = Unsafe(attemptId: string, reason: string)

  datatype Status = Waiting | Held | Settled(error: Option<Unsafe>)

  /** One call: the predecessor promise it awaits (`None` is the already resolved one). */
  datatype Node = Node(prev: Option<nat>, status: Status)

  /** Every call so far in order of arrival, and the promise the map holds for the storage. */
  datatype Lease = Lease(nodes: seq<Node>, tail: Option<nat>)

  const Idle := Lease([], None)

  function Chain(s: Lease): Lease {
    Lease(s.nodes + [Node(s.tail, Waiting)], Some(|s.nodes|))
  }

  predicate CanWake(s: Lease, i: nat) {
    && i < |s.nodes| && s.nodes[i].status.Waiting?
    && (s.nodes[i].prev.Some? ==>
          s.nodes[i].prev.value < |s.nodes| && s.nodes[s.nodes[i].prev.value].status.Settled?)
  }

  /** What the awaited predecessor resolved to. */
  function PrevError(s: Lease, i: nat): Option<Unsafe>
    requires CanWake(s, i)
  {
    if s.nodes[i].prev.None? then None else s.nodes[s.nodes[i].prev.value].status.error
  }

  function Settle(s: Lease, i: nat, error: Option<Unsafe>): Lease
    requires i < |s.nodes|
  {
    Lease(s.nodes[i := s.nodes[i].(status := Settled(error))],
          if s.tail == Some(i) then None else s.tail)
  }

  /** The call resumes: it holds the lease, or rethrows its predecessor's error. */
  function Wake(s: Lease, i: nat): Lease
    requires CanWake(s, i)
  {
    if PrevError(s, i).Some? then Settle(s, i, PrevError(s, i))
    else Lease(s.nodes[i := s.nodes[i].(status := Held)], s.tail)
  }

  predicate Holds(s: Lease, i: nat) {
    i < |s.nodes| && s.nodes[i].status.Held?
  }

  /** A second release of the same lease is ignored. */
  function Release(s: Lease, i: nat, error: Option<Unsafe>): Lease {
    if Holds(s, i) then Settle(s, i, error) else s
  }

  datatype Step = Call | Resume(call: nat) | Free(call: nat, error: Option<Unsafe>)

  predicate Enabled(s: Lease, step: Step) {
    match step
    case Call => true
    case Resume(i) => CanWake(s, i)
    case Free(i, _) => true
  }

  function Do(s: Lease, step: Step): Lease
    requires Enabled(s, step)
  {
    match step
    case Call => Chain(s)
    case Resume(i) => Wake(s, i)
    case Free(i, error) => Release(s, i, error)
  }

  ghost predicate Runs(s: Lease, steps: seq<Step>)
    decreases |steps|
  {
    steps != [] ==> Enabled(s, steps[0]) && Runs(Do(s, steps[0]), steps[1..])
  }

  ghost function After(s: Lease, steps: seq<Step>): Lease
    requires Runs(s, steps)
    decreases |steps|
  {
    if steps == [] then s else After(Do(s, steps[0]), steps[1..])
  }

  /** A call is chained to the one before it, or started a fresh queue once everything
      earlier had settled; it stays waiting until its predecessor settles, and a
      predecessor's error can only become its own. */
  ghost predicate Inv(s: Lease) {
    && (s.tail.Some? ==> s.tail.value + 1 == |s.nodes| && !s.nodes[s.tail.value].status.Settled?)
    && (s.tail.None? ==> forall i | 0 <= i < |s.nodes| :: s.nodes[i].status.Settled?)
    && (forall i, j | 0 <= i < j < |s.nodes| && !s.nodes[j].status.Waiting? :: s.nodes[i].status.Settled?)
    && (forall i | 0 <= i < |s.nodes| && s.nodes[i].prev.Some? ::
          && i > 0 && s.nodes[i].prev.value == i - 1
          && (s.nodes[i - 1].status.Settled? && s.nodes[i - 1].status.error.Some? ==>
                s.nodes[i].status.Waiting? || s.nodes[i].status == s.nodes[i - 1].status))
    && (forall i, j | 0 <= i < j < |s.nodes| && s.nodes[j].prev.None? :: s.nodes[i].status.Settled?)
  }

  lemma ChainKeepsInv(s: Lease)
    requires Inv(s)
    ensures Inv(Chain(s))
  {
    var t := Chain(s);
    forall i, j | 0 <= i < j < |t.nodes| && !t.nodes[j].status.Waiting? ensures t.nodes[i].status.Settled? {
      assert t.nodes[j] == s.nodes[j];
    }
    forall i | 0 <= i < |t.nodes| && t.nodes[i].prev.Some?
      ensures && i > 0 && t.nodes[i].prev.value == i - 1
              && (t.nodes[i - 1].status.Settled? && t.nodes[i - 1].status.error.Some? ==>
                    t.nodes[i].status.Waiting? || t.nodes[i].status == t.nodes[i - 1].status)
    {
      if i < |s.nodes| {
        assert t.nodes[i] == s.nodes[i];
      }
    }
  }

  /** Settling the oldest unsettled call, with its predecessor's error if there is one. */
  lemma SettleKeepsInv(s: Lease, i: nat, error: Option<Unsafe>)
    requires Inv(s) && i < |s.nodes| && !s.nodes[i].status.Settled?
    requires forall j | 0 <= j < i :: s.nodes[j].status.Settled?
    requires s.nodes[i].prev.Some? && s.nodes[i - 1].status.error.Some? ==> error == s.nodes[i - 1].status.error
    ensures Inv(Settle(s, i, error))
  {
    var t := Settle(s, i, error);
    forall j | i < j < |s.nodes| ensures t.nodes[j].status.Waiting? && t.nodes[j] == s.nodes[j] {
    }
    if s.tail == Some(i) {
      assert i + 1 == |t.nodes|;
    }
  }

  lemma GrantKeepsInv(s: Lease, i: nat)
    requires Inv(s) && CanWake(s, i) && PrevError(s, i).None?
    ensures Inv(Wake(s, i))
  {
    var t := Wake(s, i);
    forall j | 0 <= j < i ensures t.nodes[j].status.Settled? && t.nodes[j] == s.nodes[j] {
    }
    forall j | i < j < |s.nodes| ensures t.nodes[j].status.Waiting? && t.nodes[j] == s.nodes[j] {
    }
  }

  lemma StepKeepsInv(s: Lease, step: Step)
    requires Inv(s) && Enabled(s, step)
    ensures Inv(Do(s, step))
  {
    match step
    case Call => ChainKeepsInv(s);
    case Resume(i) =>
      if PrevError(s, i).Some? {
        SettleKeepsInv(s, i, PrevError(s, i));
      } else {
        GrantKeepsInv(s, i);
      }
    case Free(i, error) =>
      if Holds(s, i) {
        SettleKeepsInv(s, i, error);
      }
  }

  lemma {:induction false} RunKeepsInv(s: Lease, steps: seq<Step>)
    requires Inv(s) && Runs(s, steps)
    ensures Inv(After(s, steps))
    decreases |steps|
  {
    if steps != [] {
      StepKeepsInv(s, steps[0]);
      RunKeepsInv(Do(s, steps[0]), steps[1..]);
    }
  }

  /** Mutual exclusion and FIFO order, in every state of every run: a holder is
      alone, everyone before it has settled and everyone after it is waiting. */
  lemma OneHolderInOrder(steps: seq<Step>, i: nat)
    requires Runs(Idle, steps) && Holds(After(Idle, steps), i)
    ensures var s := After(Idle, steps);
            forall j | 0 <= j < |s.nodes| ::
              if j < i then s.nodes[j].status.Settled?
              else if j > i then s.nodes[j].status.Waiting?
              else s.nodes[j].status.Held?
  {
    RunKeepsInv(Idle, steps);
  }

  /** `j` was chained behind `k` before the queue drained. */
  ghost predicate ChainedBehind(s: Lease, k: nat, j: nat) {
    k < j < |s.nodes| && forall m | k < m <= j :: s.nodes[m].prev.Some?
  }

  /** An unsafe release aborts the rest of its queue: nobody chained behind it holds,
      and each of them that has resumed has thrown that same error. */
  lemma {:induction false} PoisonReaches(s: Lease, k: nat, j: nat)
    requires Inv(s) && ChainedBehind(s, k, j)
    requires s.nodes[k].status.Settled? && s.nodes[k].status.error.Some?
    ensures s.nodes[j].status.Waiting? || s.nodes[j].status == s.nodes[k].status
  {
    if k + 1 < j {
      PoisonReaches(s, k, j - 1);
      if s.nodes[j - 1].status.Waiting? {
        assert s.nodes[j].status.Waiting?;
      }
    }
  }

  /** Settled calls stay settled with the same outcome and links never change. */
  lemma {:induction false} RunIsMonotone(s: Lease, steps: seq<Step>, i: nat)
    requires Inv(s) && Runs(s, steps) && i < |s.nodes|
    ensures |s.nodes| <= |After(s, steps).nodes|
    ensures After(s, steps).nodes[i].prev == s.nodes[i].prev
    ensures s.nodes[i].status.Settled? ==> After(s, steps).nodes[i].status == s.nodes[i].status
    decreases |steps|
  {
    if steps != [] {
      StepKeepsInv(s, steps[0]);
      RunIsMonotone(Do(s, steps[0]), steps[1..], i);
    }
  }

  /** Over whole runs: if `k` ends up released with an error, a call chained behind it
      before the queue drained never holds the lease, neither earlier nor later. */
  lemma PoisonedNeverHolds(before: seq<Step>, after: seq<Step>, k: nat, j: nat)
    requires Runs(Idle, before) && Runs(After(Idle, before), after)
    requires var s := After(After(Idle, before), after);
             && ChainedBehind(s, k, j)
             && s.nodes[k].status.Settled? && s.nodes[k].status.error.Some?
    ensures !Holds(After(Idle, before), j)
    ensures !Holds(After(After(Idle, before), after), j)
  {
    var mid := After(Idle, before);
    RunKeepsInv(Idle, before);
    RunKeepsInv(mid, after);
    PoisonReaches(After(mid, after), k, j);
    if Holds(mid, j) {
      RunIsMonotone(mid, after, k);
      forall m | k < m <= j ensures mid.nodes[m].prev.Some? {
        RunIsMonotone(mid, after, m);
      }
      PoisonReaches(mid, k, j);
    }
  }

  /** The queue cannot wedge: while it has not drained there is a holder or exactly
      one call, the oldest unsettled one, that can resume. */
  lemma {:induction false} NeverWedged(s: Lease) returns (i: nat)
    requires Inv(s) && s.tail.Some?
    ensures Holds(s, i) || CanWake(s, i)
    ensures forall j | 0 <= j < |s.nodes| :: CanWake(s, j) || Holds(s, j) ==> j == i
  {
    i := 0;
    while i < s.tail.value && s.nodes[i].status.Settled?
      invariant i <= s.tail.value
      invariant forall j | 0 <= j < i :: s.nodes[j].status.Settled?
    {
      i := i + 1;
    }
  }

  /** Once drained, whatever happened before, a new call acquires. */
  lemma DrainedAcquires(s: Lease)
    requires Inv(s) && s.tail.None?
    ensures var called := Chain(s);
            && CanWake(called, |s.nodes|) && Holds(Wake(called, |s.nodes|), |s.nodes|)
  {
  }

  predicate NoErrors(s: Lease) {
    forall i | 0 <= i < |s.nodes| && s.nodes[i].status.Settled? :: s.nodes[i].status.error.None?
  }

  predicate FreesCleanly(steps: seq<Step>) {
    forall step | step in steps && step.Free? :: step.error.None?
  }

  /** The per-channel reconciliation lock is the same chain with no error to pass on: then
      nobody throws, so every call that resumes holds, alone and in order of arrival. */
  lemma {:induction false} CleanChainGrantsAll(s: Lease, steps: seq<Step>)
    requires Inv(s) && NoErrors(s) && Runs(s, steps) && FreesCleanly(steps)
    ensures Inv(After(s, steps)) && NoErrors(After(s, steps))
    ensures forall i | CanWake(After(s, steps), i) :: Holds(Wake(After(s, steps), i), i)
    decreases |steps|
  {
    if steps != [] {
      StepKeepsInv(s, steps[0]);
      assert steps[0] in steps;
      assert forall step | step in steps[1..] :: step in steps;
      CleanChainGrantsAll(Do(s, steps[0]), steps[1..]);
    }
  }

  /** The module-level map entry for one storage object and the promises behind it. */
  class LeaseQueue {
    var nodes: seq<Node>
    var tail: Option<nat>

    ghost function View(): Lease
      reads this
    {
      Lease(nodes, tail)
    }

    constructor ()
      ensures View() == Idle
    {
      nodes, tail := [], None;
    }

    /** `acquireBatchAttemptLock` up to its `await previous`. */
    method Enqueue() returns (call: nat)
      modifies this
      ensures View() == Chain(old(View())) && call == |old(nodes)|
    {
      call := |nodes|;
      nodes := nodes + [Node(tail, Waiting)];
      tail := Some(call);
    }

    /** The rest of it: returns the error to throw, or holds the lease. */
    method Proceed(call: nat) returns (thrown: Option<Unsafe>)
      requires CanWake(View(), call)
      modifies this
      ensures View() == Wake(old(View()), call)
      ensures thrown == PrevError(old(View()), call)
      ensures thrown.None? <==> Holds(View(), call)
    {
      thrown := if nodes[call].prev.None? then None else nodes[nodes[call].prev.value].status.error;
      if thrown.Some? {
        nodes := nodes[call := nodes[call].(status := Settled(thrown))];
        if tail == Some(call) {
          tail := None;
        }
      } else {
        nodes := nodes[call := nodes[call].(status := Held)];
      }
    }

    /** The returned release function. */
    method Unlock(call: nat, error: Option<Unsafe>)
      modifies this
      ensures View() == Release(old(View()), call, error)
      ensures !Holds(View(), call)
    {
      if call < |nodes| && nodes[call].status.Held? {
        nodes := nodes[call := nodes[call].(status := Settled(error))];
        if tail == Some(call) {
          tail := None;
        }
      }
    }
  }
}
