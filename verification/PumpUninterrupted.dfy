/** The pump left alone: with a healthy store and nobody else writing, the step-by-step
    protocol leaves exactly what `message/send` leaves (transport/request-handler.ts). */
module PumpUninterrupted {
  import opened Options
  import opened Artifacts
  import opened Tasks
  import opened StreamFold
  import opened Executors
  import opened StreamEqualsSend
  import opened PumpExceptions
  import Protocol = PumpProtocol
  import Machine = PumpMachine

  /** Every event is yielded, written and published; then the generator is exhausted. */
  function Turning(es: seq<Emission>): seq<Protocol.Action> {
    if es == [] then []
    else Turning(es[..|es| - 1]) + Feeding(es[|es| - 1])
  }

  function Feeding(e: Emission): seq<Protocol.Action> {
    [P(Machine.Emit(e)), P(Machine.Write(Machine.Healthy)), P(Machine.Publish)]
  }

  function Ending(): seq<Protocol.Action> {
    [P(Machine.Exhaust), P(Machine.ReadLatest(true)), P(Machine.Stage)]
    + [P(Machine.Stage), P(Machine.Stage), P(Machine.Stage)]
  }

  /** What the subscribers are told of an event: an artifact as it was yielded, a status with
      `final` set when it ends the interaction. */
  function Telling(e: Emission): TaskEvent {
    match e
    case ArtifactUpdate(artifact, append) => ArtifactTold(artifact, append)
    case StatusUpdate(event, _, _) =>
      StatusTold(StatusEvent(event.status, if EndsInteraction(event) then Some(true) else event.final))
  }

  function Tellings(es: seq<Emission>): seq<TaskEvent> {
    seq(|es|, i requires 0 <= i < |es| => Telling(es[i]))
  }

  /** The protocol stands where the fold of the events stands. */
  ghost predicate Follows(s: Protocol.System, f: Feed) {
    && s.pump.pc.Loop? && s.pump.pending.None? && s.pump.failure.None?
    && s.stored == f.stored && s.pump.fold == f.fold && s.pump.ended == s.pump.quiet == f.ended && !f.stopped
    && (!f.ended ==> !IsTerminal(s.stored.status.state))
  }

  lemma EventFollows(s: Protocol.System, f: Feed, e: Emission)
    requires Follows(s, f) && !f.ended && Machine.Proper(e)
    ensures Protocol.Runs(s, Feeding(e))
    ensures var t := Protocol.After(s, Feeding(e));
            && Follows(t, Take(s.prior, f, e)) && t.prior == s.prior
            && t.published == s.published + [Telling(e)]
            && t.pump.ended == (e.StatusUpdate? && EndsInteraction(e.event))
  {
    Three(s, P(Machine.Emit(e)), P(Machine.Write(Machine.Healthy)), P(Machine.Publish));
  }

  /** Where the protocol stands once the events were fed to it. */
  ghost predicate Fed(task: Task, es: seq<Emission>, t: Protocol.System) {
    && Follows(t, TakeAll(PriorOf(task), Feed(task, Start(task, 0), false, false), es))
    && t.prior == PriorOf(task) && t.published == Tellings(es)
    && (t.pump.ended <==> es != [] && es[|es| - 1].StatusUpdate? && EndsInteraction(es[|es| - 1].event))
  }

  lemma FedMore(task: Task, es: seq<Emission>, t: Protocol.System)
    requires es != [] && Machine.Proper(es[|es| - 1]) && Fed(task, es[..|es| - 1], t) && !t.pump.ended
    ensures Protocol.Runs(t, Feeding(es[|es| - 1])) && Fed(task, es, Protocol.After(t, Feeding(es[|es| - 1])))
  {
    var last := |es| - 1;
    EventFollows(t, TakeAll(PriorOf(task), Feed(task, Start(task, 0), false, false), es[..last]), es[last]);
    assert Tellings(es) == Tellings(es[..last]) + [Telling(es[last])];
  }

  lemma {:induction false} TurningFollows(task: Task, es: seq<Emission>)
    requires !IsTerminal(task.status.state)
    requires forall e | e in es :: Machine.Proper(e)
    requires forall i | 0 <= i < |es| :: es[i].StatusUpdate? && EndsInteraction(es[i].event) ==> i == |es| - 1
    ensures Protocol.Runs(Protocol.Begin(task), Turning(es))
    ensures Fed(task, es, Protocol.After(Protocol.Begin(task), Turning(es)))
  {
    if es != [] {
      var last := |es| - 1;
      TurningFollows(task, es[..last]);
      FedMore(task, es, Protocol.After(Protocol.Begin(task), Turning(es[..last])));
      RunMore(Protocol.Begin(task), Turning(es[..last]), Feeding(es[last]));
    }
  }

  lemma EndingFinishes(s: Protocol.System)
    requires s.pump.pc.AtFailure? && s.pump.ended
    ensures Protocol.Runs(s, [P(Machine.Stage), P(Machine.Stage), P(Machine.Stage)])
    ensures var t := Protocol.After(s, [P(Machine.Stage), P(Machine.Stage), P(Machine.Stage)]);
            t.pump.pc.Returned? && t.stored == s.stored && t.published == s.published
  {
    Three(s, P(Machine.Stage), P(Machine.Stage), P(Machine.Stage));
  }

  lemma EndingReturns(s: Protocol.System)
    requires s.pump.pc.Loop? && s.pump.pending.None? && s.pump.ended
    ensures Protocol.Runs(s, Ending())
    ensures var t := Protocol.After(s, Ending());
            t.pump.pc.Returned? && t.stored == s.stored && t.published == s.published
  {
    var first := [P(Machine.Exhaust), P(Machine.ReadLatest(true)), P(Machine.Stage)];
    EndingFinishes(Protocol.After(s, first));
    RunMore(s, first, [P(Machine.Stage), P(Machine.Stage), P(Machine.Stage)]);
  }

  /** For every agent run the default executor's stream, pumped without interference,
      returns with the record `message/send` would have left, and every event it yielded
      was published, once and in order. */
  lemma UninterruptedTurn(task: Task, run: AgentRun)
    requires !IsTerminal(task.status.state) && Distinct(PriorOf(task))
    ensures var actions := Turning(Emissions(task, 0, run)) + Ending();
            && Protocol.Runs(Protocol.Begin(task), actions)
            && Protocol.After(Protocol.Begin(task), actions).pump.pc.Returned?
            && Protocol.After(Protocol.Begin(task), actions).stored == SendStored(task, run)
            && Protocol.After(Protocol.Begin(task), actions).published == Tellings(Emissions(task, 0, run))
  {
    var es := Emissions(task, 0, run);
    DefaultExecutorStops(task, 0, run);
    TurningFollows(task, es);
    var t := Protocol.After(Protocol.Begin(task), Turning(es));
    EndingReturns(t);
    RunMore(Protocol.Begin(task), Turning(es), Ending());
    StreamLeavesWhatSendLeaves(task, run);
  }
}
