/** The bus's subscriber refines the resubscriber's channel of PumpProtocol: what is handed
    to the waiter or queued is the inbox, and each step of the generator is a step of the
    channel or none (a2x/task-event-bus.ts, transport/request-handler.ts). */
module BusRefinement {
  import opened Options
  import opened Tasks
  import opened TaskEventBus
  import Protocol = PumpProtocol

  function Channel(t: Trace): Protocol.Reader {
    Protocol.Attached(Handed(t.sub) + t.sub.queue, t.sub.closed, t.delivered)
  }

  /** Taking the next event of an inbox, before anyone looks at what it is. */
  function Taken(r: Protocol.Reader): Protocol.Reader
    requires r.Attached? && r.inbox != []
  {
    Protocol.Attached(r.inbox[1..], r.shut, r.got + [r.inbox[0]])
  }

  lemma PublishRefines(t: Trace, e: TaskEvent, offered: seq<TaskEvent>, open: bool)
    requires Exact(t, offered, open) && !t.sub.phase.Finished?
    ensures Channel(Do(t, Publish(e))) == Protocol.Hear(Channel(t), Some(e), false)
  {
    var u := Do(t, Publish(e));
    if !t.sub.closed {
      assert Handed(u.sub) + u.sub.queue == Handed(t.sub) + t.sub.queue + [e];
    }
  }

  lemma CloseRefines(t: Trace, offered: seq<TaskEvent>, open: bool)
    requires Exact(t, offered, open) && !t.sub.phase.Finished?
    ensures Channel(Do(t, CloseOrAbort)) == Protocol.Hear(Channel(t), None, true)
  {
  }

  /** A pull or a resumption delivers the next event of the inbox, waits without changing
      it, or ends when it is empty and the channel closed. */
  lemma ConsumerRefines(t: Trace, step: Step, offered: seq<TaskEvent>, open: bool)
    requires Exact(t, offered, open) && Enabled(t, step) && (step.Pull? || step.Continue?)
    ensures var u := Do(t, step);
            if u.sub.phase.Finished? then Channel(t).inbox == [] && Channel(t).shut && u.delivered == t.delivered
            else if u.delivered == t.delivered
            then Channel(u) == Channel(t) && Channel(t).inbox == [] && !Channel(t).shut
            else Channel(t).inbox != [] && Channel(u) == Taken(Channel(t))
  {
    var u := Do(t, step);
    if step.Pull? && t.sub.queue != [] {
      assert Handed(u.sub) + u.sub.queue == (Handed(t.sub) + t.sub.queue)[1..];
      assert (Handed(t.sub) + t.sub.queue)[0] == t.sub.queue[0];
    } else if step.Continue? && t.sub.phase.result.Some? {
      assert Handed(u.sub) + u.sub.queue == (Handed(t.sub) + t.sub.queue)[1..];
    }
  }

  // ---- What the resubscriber makes of its channel ----------------------------------------------

  /** The resubscriber reads its channel to the end, or to the event it stops at. */
  function Drained(r: Protocol.Reader): Protocol.Reader
    decreases if r.Attached? then |r.inbox| + 1 else 0
  {
    if r.Attached? then Drained(Protocol.Taking(r)) else r
  }

  predicate FirstEnding(inbox: seq<TaskEvent>, i: nat) {
    i < |inbox| && Protocol.Ends(inbox[i]) && Protocol.NoneEnds(inbox[..i])
  }

  /** It takes everything up to its channel's first interaction-ending event and nothing
      behind it, in order; without one it takes all and asks the store. */
  lemma {:induction false} ReadsToFirstEnding(r: Protocol.Reader)
    requires r.Attached?
    ensures Protocol.NoneEnds(r.inbox) ==> Drained(r) == Protocol.Asking(r.got + r.inbox)
    ensures forall i | FirstEnding(r.inbox, i) :: Drained(r) == Protocol.Answered(r.got + r.inbox[..i + 1])
    decreases |r.inbox|
  {
    if r.inbox == [] {
      assert r.got + r.inbox == r.got;
    } else {
      var e, rest := r.inbox[0], r.inbox[1..];
      assert r.inbox == [e] + rest;
      if !Protocol.Ends(e) {
        ReadsToFirstEnding(Taken(r));
        assert r.got + [e] + rest == r.got + r.inbox;
      }
      forall i | FirstEnding(r.inbox, i) ensures Drained(r) == Protocol.Answered(r.got + r.inbox[..i + 1]) {
        EndingInRest(r, i);
      }
    }
  }

  lemma EndingInRest(r: Protocol.Reader, i: nat)
    requires r.Attached? && FirstEnding(r.inbox, i)
    ensures i == 0 <==> Protocol.Ends(r.inbox[0])
    ensures i == 0 ==> r.inbox[..1] == [r.inbox[0]]
    ensures i > 0 ==> FirstEnding(r.inbox[1..], i - 1)
    ensures i > 0 ==> r.got + [r.inbox[0]] + r.inbox[1..][..i] == r.got + r.inbox[..i + 1]
  {
    if i > 0 {
      assert r.inbox[0] == r.inbox[..i][0];
      assert r.inbox[..i] == [r.inbox[0]] + r.inbox[1..][..i - 1];
      assert r.inbox[..i + 1] == [r.inbox[0]] + r.inbox[1..][..i];
    }
  }
}
