/** The in-memory event bus (a2x/task-event-bus.ts). A subscriber is an async generator:
    its body runs when its consumer asks for the next event, and pauses at a `yield` or
    at the promise only a publish, a close or an abort resolves. */
module TaskEventBus {
  import opened Options
  import opened Tasks

  /** Where the generator is paused. `Resolved` is a resolved promise whose continuation
      has not run yet; `None` is the end of the channel. */
  datatype Phase = Yielded | Waiting | Resolved(result: Option<TaskEvent>) | Finished

  datatype Sub = Sub(queue: seq<TaskEvent>, phase: Phase, closed: bool)

  function Receive(s: Sub, e: TaskEvent): Sub {
    if s.closed || s.phase.Finished? then s
    else if s.phase.Waiting? then s.(phase := Resolved(Some(e)))
    else s.(queue := s.queue + [e])
  }

  /** `close`, and the abort listener. */
  function Shut(s: Sub): Sub {
    if s.phase.Finished? then s
    else Sub(s.queue, if s.phase.Waiting? then Resolved(None) else s.phase, true)
  }

  /** The loop body up to its next pause: what it yields, if anything. */
  function Loop(s: Sub): (Sub, Option<TaskEvent>) {
    if s.queue != [] then (Sub(s.queue[1..], Yielded, s.closed), Some(s.queue[0]))
    else if s.closed then (s.(phase := Finished), None)
    else (s.(phase := Waiting), None)
  }

  /** The awaited promise's continuation. */
  function Wake(s: Sub): (Sub, Option<TaskEvent>)
    requires s.phase.Resolved?
  {
    (s.(phase := if s.phase.result.Some? then Yielded else Finished), s.phase.result)
  }

  // ---- The bus ------------------------------------------------------------------------------

  class Subscriber {
    var queue: seq<TaskEvent>
    var phase: Phase
    var closed: bool

    function View(): Sub
      reads this
    {
      Sub(queue, phase, closed)
    }

    /** The first `next()`: the generator attaches and runs to its first pause. */
    constructor (aborted: bool)
      ensures View() == Loop(Sub([], Yielded, aborted)).0
    {
      queue, closed := [], aborted;
      phase := if aborted then Finished else Waiting;
    }

    method Offer(e: TaskEvent)
      modifies this
      ensures View() == Receive(old(View()), e)
    {
      if closed || phase.Finished? {
        return;
      }
      if phase.Waiting? {
        phase := Resolved(Some(e));
      } else {
        queue := queue + [e];
      }
    }

    method End()
      modifies this
      ensures View() == Shut(old(View()))
    {
      if phase.Finished? {
        return;
      }
      closed := true;
      if phase.Waiting? {
        phase := Resolved(None);
      }
    }

    /** A consumer's `next()`. */
    method Next() returns (event: Option<TaskEvent>)
      requires phase.Yielded?
      modifies this
      ensures (View(), event) == Loop(old(View()))
    {
      event := None;
      if queue != [] {
        event := Some(queue[0]);
        queue := queue[1..];
      } else {
        phase := if closed then Finished else Waiting;
      }
    }

    method Resume() returns (event: Option<TaskEvent>)
      requires phase.Resolved?
      modifies this
      ensures (View(), event) == Wake(old(View()))
    {
      event := phase.result;
      phase := if event.Some? then Yielded else Finished;
    }
  }

  class InMemoryTaskEventBus {
    /** The attached subscribers of each task, in the order they attached. */
    var subscribers: map<string, seq<Subscriber>>

    constructor ()
      ensures Valid() && subscribers == map[]
    {
      subscribers := map[];
    }

    /** Nobody is attached twice, or to two tasks. */
    ghost predicate Valid()
      reads this
    {
      && (forall id | id in subscribers :: forall i, j | 0 <= i < j < |subscribers[id]| ::
            subscribers[id][i] != subscribers[id][j])
      && (forall a, b | a in subscribers && b in subscribers && a != b ::
            forall x | x in subscribers[a] :: x !in subscribers[b])
    }

    function On(taskId: string): seq<Subscriber>
      reads this
    {
      if taskId in subscribers then subscribers[taskId] else []
    }

    /** Every subscriber of the task receives the event, and nobody else does. */
    method Publish(taskId: string, event: TaskEvent)
      requires Valid()
      modifies On(taskId)
      ensures forall s | s in On(taskId) :: s.View() == Receive(old(s.View()), event)
    {
      var subs := On(taskId);
      for i := 0 to |subs|
        invariant forall j | 0 <= j < i :: subs[j].View() == Receive(old(subs[j].View()), event)
        invariant forall j | i <= j < |subs| :: subs[j].View() == old(subs[j].View())
      {
        subs[i].Offer(event);
      }
    }

    method Close(taskId: string)
      requires Valid()
      modifies On(taskId)
      ensures forall s | s in On(taskId) :: s.View() == Shut(old(s.View()))
    {
      var subs := On(taskId);
      for i := 0 to |subs|
        invariant forall j | 0 <= j < i :: subs[j].View() == Shut(old(subs[j].View()))
        invariant forall j | i <= j < |subs| :: subs[j].View() == old(subs[j].View())
      {
        subs[i].End();
      }
    }

    /** Attach, behind the subscribers already there. Earlier events are not replayed. A
        generator that finishes at once has detached again. */
    method Subscribe(taskId: string, aborted: bool) returns (sub: Subscriber)
      requires Valid()
      modifies this
      ensures Valid() && fresh(sub) && sub.View() == Loop(Sub([], Yielded, aborted)).0
      ensures aborted ==> subscribers == old(subscribers)
      ensures !aborted ==> subscribers == old(subscribers)[taskId := old(On(taskId)) + [sub]]
    {
      sub := new Subscriber(aborted);
      if !aborted {
        subscribers := subscribers[taskId := On(taskId) + [sub]];
      }
    }

    /** The generator's `finally`: the subscriber detaches, and an empty set is dropped. */
    method Detach(taskId: string, sub: Subscriber)
      requires Valid()
      modifies this
      ensures Valid()
      ensures sub !in On(taskId)
      ensures forall s | s != sub :: s in On(taskId) <==> s in old(On(taskId))
      ensures forall id | id != taskId :: On(id) == old(On(id))
    {
      var rest := [];
      var subs := On(taskId);
      for i := 0 to |subs|
        invariant forall s :: s in rest <==> s in subs[..i] && s != sub
        invariant forall a, b | 0 <= a < b < |rest| :: rest[a] != rest[b]
      {
        if subs[i] != sub {
          assert subs[i] !in subs[..i];
          rest := rest + [subs[i]];
        }
      }
      subscribers := if rest == [] then subscribers - {taskId} else subscribers[taskId := rest];
    }
  }

  // ---- Exact delivery ------------------------------------------------------------------------

  datatype Step = Publish(event: TaskEvent) | CloseOrAbort | Pull | Continue | Leave

  /** One subscriber with what its consumer has received; `left` when the consumer
      returned early. */
  datatype Trace = Trace(sub: Sub, delivered: seq<TaskEvent>, left: bool)

  function Attached(aborted: bool): Trace {
    Trace(Loop(Sub([], Yielded, aborted)).0, [], false)
  }

  predicate Enabled(t: Trace, step: Step) {
    match step
    case Publish(_) => true
    case CloseOrAbort => true
    case Pull => t.sub.phase.Yielded?
    case Continue => t.sub.phase.Resolved?
    case Leave => t.sub.phase.Yielded?
  }

  function Got(t: Trace, r: (Sub, Option<TaskEvent>)): Trace {
    t.(sub := r.0, delivered := if r.1.Some? then t.delivered + [r.1.value] else t.delivered)
  }

  function Do(t: Trace, step: Step): Trace
    requires Enabled(t, step)
  {
    match step
    case Publish(e) => t.(sub := Receive(t.sub, e))
    case CloseOrAbort => t.(sub := Shut(t.sub))
    case Pull => Got(t, Loop(t.sub))
    case Continue => Got(t, Wake(t.sub))
    case Leave => t.(sub := t.sub.(phase := Finished), left := true)
  }

  ghost predicate Runs(t: Trace, steps: seq<Step>)
    decreases |steps|, 0
  {
    steps == [] || (Runs(t, steps[..|steps| - 1]) && Enabled(After(t, steps[..|steps| - 1]), steps[|steps| - 1]))
  }

  ghost function After(t: Trace, steps: seq<Step>): Trace
    requires Runs(t, steps)
    decreases |steps|, 1
  {
    if steps == [] then t else Do(After(t, steps[..|steps| - 1]), steps[|steps| - 1])
  }

  /** The events published before the first close, abort or early return. */
  function Offered(steps: seq<Step>): (seq<TaskEvent>, bool) {
    if steps == [] then ([], true)
    else
      var (events, open) := Offered(steps[..|steps| - 1]);
      var step := steps[|steps| - 1];
      if open && step.Publish? then (events + [step.event], true)
      else (events, open && !step.CloseOrAbort? && !step.Leave?)
  }

  /** The value already handed to the waiter. */
  function Handed(s: Sub): seq<TaskEvent> {
    if s.phase.Resolved? && s.phase.result.Some? then [s.phase.result.value] else []
  }

  ghost predicate Exact(t: Trace, offered: seq<TaskEvent>, open: bool) {
    && t.delivered + Handed(t.sub) + t.sub.queue == offered
    && (open <==> !t.sub.closed && !t.sub.phase.Finished?)
    && (t.sub.phase.Waiting? ==> t.sub.queue == [] && !t.sub.closed)
    && (t.sub.phase.Resolved? && t.sub.phase.result.None? ==> t.sub.closed && t.sub.queue == [])
    && (t.sub.phase.Finished? && !t.left ==> t.sub.closed && t.sub.queue == [])
  }

  /** Nothing is lost, repeated or reordered: what was delivered, then the value already
      resolved to the waiter, then the queue, are the events published between attach and
      close; a waiting subscriber has an empty queue, and one that ended by itself has
      delivered everything. */
  lemma {:induction false} ExactDelivery(steps: seq<Step>)
    requires Runs(Attached(false), steps)
    ensures Exact(After(Attached(false), steps), Offered(steps).0, Offered(steps).1)
  {
    if steps != [] {
      var last := |steps| - 1;
      ExactDelivery(steps[..last]);
      var t := After(Attached(false), steps[..last]);
      ExactStep(t, steps[last], Offered(steps[..last]).0, Offered(steps[..last]).1);
    }
  }

  lemma ExactPublish(t: Trace, e: TaskEvent, offered: seq<TaskEvent>, open: bool)
    requires Exact(t, offered, open)
    ensures Exact(Do(t, Publish(e)), if open then offered + [e] else offered, open)
  {
    assert (t.delivered + Handed(t.sub) + t.sub.queue) + [e] == t.delivered + Handed(t.sub) + (t.sub.queue + [e]);
  }

  lemma ExactPull(t: Trace, offered: seq<TaskEvent>, open: bool)
    requires Exact(t, offered, open) && Enabled(t, Pull)
    ensures Exact(Do(t, Pull), offered, open)
  {
    if t.sub.queue != [] {
      assert t.sub.queue == [t.sub.queue[0]] + t.sub.queue[1..];
    }
  }

  lemma ExactStep(t: Trace, step: Step, offered: seq<TaskEvent>, open: bool)
    requires Exact(t, offered, open) && Enabled(t, step)
    ensures Exact(Do(t, step), if open && step.Publish? then offered + [step.event] else offered,
                  open && !step.CloseOrAbort? && !step.Leave?)
  {
    if step.Publish? {
      ExactPublish(t, step.event, offered, open);
    } else if step.Pull? {
      ExactPull(t, offered, open);
    }
  }

  function Repeat(n: nat): seq<Step> {
    if n == 0 then [] else Repeat(n - 1) + [Pull]
  }

  lemma RepeatSnoc(n: nat)
    requires n > 0
    ensures |Repeat(n)| > 0 && Repeat(n)[..|Repeat(n)| - 1] == Repeat(n - 1) && Repeat(n)[|Repeat(n)| - 1] == Pull
  {
  }

  lemma PullClosed(s: Sub, delivered: seq<TaskEvent>, left: bool)
    requires s.closed && s.phase.Yielded? && s.queue != []
    ensures Do(Trace(s, delivered, left), Pull) == Trace(Sub(s.queue[1..], Yielded, true),
        delivered + [s.queue[0]], left)
  {
  }

  /** After a close or abort, a consumer that keeps asking receives every queued event and
      then the end. */
  lemma {:induction false} ClosedDrains(t: Trace, n: nat)
    requires t.sub.closed && t.sub.phase.Yielded? && n <= |t.sub.queue|
    ensures Runs(t, Repeat(n))
    ensures After(t, Repeat(n)) == Trace(Sub(t.sub.queue[n..], Yielded, true), t.delivered + t.sub.queue[..n], t.left)
    ensures n == |t.sub.queue| ==> Do(After(t, Repeat(n)), Pull).sub.phase.Finished?
  {
    var q := t.sub.queue;
    if n == 0 {
      assert t.delivered + q[..0] == t.delivered && q[0..] == q;
    } else {
      RepeatSnoc(n);
      ClosedDrains(t, n - 1);
      PullClosed(Sub(q[n - 1..], Yielded, true), t.delivered + q[..n - 1], t.left);
      assert q[n - 1..][1..] == q[n..] && q[n - 1..][0] == q[n - 1];
      assert t.delivered + q[..n - 1] + [q[n - 1]] == t.delivered + q[..n];
    }
  }
}
