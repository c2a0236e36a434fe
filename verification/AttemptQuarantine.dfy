/** What a quarantine does to the attempts queued behind it, over whole runs of the protocol:
    none of them ever signs; each throws the quarantine's own error (x402/batch-attempt.ts). */
module AttemptQuarantine {
  import opened Options
  import opened AttemptLease
  import opened Protocol = AttemptProtocol

  type Step = Protocol.Step

  /** Calls are only added, links never change and a settled call keeps its outcome. */
  ghost predicate Grows(a: Lease, b: Lease) {
    && |a.nodes| <= |b.nodes|
    && forall i | 0 <= i < |a.nodes| ::
         b.nodes[i].prev == a.nodes[i].prev && (a.nodes[i].status.Settled? ==> b.nodes[i].status == a.nodes[i].status)
  }

  lemma WriteGrows(s: State, step: Step)
    requires Protocol.Enabled(s, step) && Writes(step)
    ensures Grows(s.lease, DoWrite(s, step).lease)
  {
    assert Land(s, step).lease == s.lease;
  }

  lemma StepGrows(s: State, step: Step)
    requires Protocol.Enabled(s, step) && !step.Crash?
    ensures Grows(s.lease, Protocol.Do(s, step).lease)
  {
    if Writes(step) {
      WriteGrows(s, step);
    } else if Reads(step) {
      assert DoRead(s, step).lease == s.lease;
    }
  }

  lemma {:induction false} RunGrows(s: State, steps: seq<Step>)
    requires Shape(s) && Protocol.Runs(s, steps) && forall i | 0 <= i < |steps| :: !steps[i].Crash?
    ensures Shape(Protocol.After(s, steps)) && Grows(s.lease, Protocol.After(s, steps).lease)
    decreases |steps|
  {
    if steps != [] {
      ShapeStep(s, steps[0]);
      StepGrows(s, steps[0]);
      RunGrows(Protocol.Do(s, steps[0]), steps[1..]);
    }
  }

  lemma QuarantineSettles(s: State, c: nat, result: WriteResult)
    requires Shape(s) && Protocol.Enabled(s, QuarantineWrite(c, result))
    ensures var t := Protocol.Do(s, QuarantineWrite(c, result));
            && Shape(t) && c < |t.lease.nodes|
            && t.lease.nodes[c].status == Settled(Some(Unsafe(s.live[c].mint.binding.attemptId, s.live[c].reason)))
            && (forall d | ChainedBehind(s.lease, c, d) :: ChainedBehind(t.lease, c, d))
  {
    ShapeStep(s, QuarantineWrite(c, result));
    StepGrows(s, QuarantineWrite(c, result));
    assert Holds(s.lease, c);
  }

  /** However the marker write went, a call that was queued behind a quarantined attempt
      never becomes a live attempt, until the process dies; it waits, or has thrown that
      attempt's id and reason. */
  lemma QuarantineStopsQueue(s: State, c: nat, result: WriteResult, steps: seq<Step>, d: nat)
    requires Shape(s) && Protocol.Enabled(s, QuarantineWrite(c, result)) && ChainedBehind(s.lease, c, d)
    requires Protocol.Runs(Protocol.Do(s, QuarantineWrite(c, result)), steps)
    requires forall i | 0 <= i < |steps| :: !steps[i].Crash?
    ensures var t := Protocol.After(Protocol.Do(s, QuarantineWrite(c, result)), steps);
            && d !in t.live && d < |t.lease.nodes|
            && (|| t.lease.nodes[d].status.Waiting?
                || t.lease.nodes[d].status
                   == Settled(Some(Unsafe(s.live[c].mint.binding.attemptId, s.live[c].reason))))
  {
    var t := Protocol.Do(s, QuarantineWrite(c, result));
    QuarantineSettles(s, c, result);
    RunGrows(t, steps);
    var u := Protocol.After(t, steps);
    assert ChainedBehind(u.lease, c, d);
    PoisonReaches(u.lease, c, d);
  }
}
