/** One in-flight `batch-settlement` attempt (x402/batch-attempt.ts) and the two
    request paths that drive it (client/a2x-client.ts). */
module BatchAttempt {
  import opened Options
  import opened ChannelFold
  import opened Reconcile
  import opened AttemptLease

  // ---- The records an attempt writes ----------------------------------------------

  /** The record to write over: what storage returned, else the trusted snapshot, else nothing. */
  function Base(read: Option<ChannelState>, binding: Binding): ChannelState {
    if read.Some? then read.value
    else if binding.pre.Taken? then binding.pre.state
    else EmptyState
  }

  function MarkedPending(read: Option<ChannelState>, binding: Binding, taskId: Option<string>,
      now: string): ChannelState {
    Base(read, binding).(pending := Some(PendingAttempt(binding.attemptId, binding, taskId, now)))
  }

  function MarkedQuarantined(read: Option<ChannelState>, binding: Binding, reason: string,
                             taskId: Option<string>, now: string): ChannelState {
    var base := Base(read, binding);
    base.(
      pending := if ForeignPending(Some(base), binding.attemptId) then base.pending else None,
      quarantinedAt := Some(now),
      quarantineReason := Some(reason),
      quarantineBinding := Some(binding),
      quarantineTaskId := if taskId.Some? then taskId else base.quarantineTaskId)
  }

  predicate OwnPending(read: Option<ChannelState>, id: AttemptId) {
    read.Some? && read.value.pending.Some? && read.value.pending.value.attemptId == id
  }

  function PendingCleared(state: ChannelState): ChannelState {
    state.(pending := None)
  }

  /** The record without either mark. */
  function Unmarked(state: ChannelState): ChannelState {
    state.(pending := None, quarantinedAt := None, quarantineReason := None, quarantineBinding := None,
           quarantineTaskId := None)
  }

  /** What the markers are laid over: the record read, or else the snapshot the voucher was
      signed from, or else nothing. */
  lemma MarkersCover(read: Option<ChannelState>, binding: Binding, reason: string, taskId: Option<string>, now: string)
    ensures var under := if read.Some? then read else if binding.pre.Taken? then Some(binding.pre.state) else None;
            && (under.Some? ==>
                  && Unmarked(MarkedPending(read, binding, taskId, now)) == Unmarked(under.value)
                  && Unmarked(MarkedQuarantined(read, binding, reason, taskId, now)) == Unmarked(under.value)
                  && MarkedPending(read, binding, taskId, now).quarantinedAt == under.value.quarantinedAt)
            && (under.None? ==>
                  && Unmarked(MarkedPending(read, binding, taskId, now)) == EmptyState
                  && Unmarked(MarkedQuarantined(read, binding, reason, taskId, now)) == EmptyState)
  {
  }

  /** Clearing takes the submitted record away and nothing else. */
  lemma ClearingKeepsRest(state: ChannelState)
    ensures PendingCleared(state).pending.None?
    ensures PendingCleared(state).(pending := state.pending) == state
  {
  }

  /** What the two marker writes leave: the writer's own mark with the binding a repair
      needs, the other mark of another attempt unless the single slot is taken over, and
      everything else of the record as it was. */
  lemma MarkersTrace(read: Option<ChannelState>, binding: Binding, reason: string,
                     taskId: Option<string>, now: string, other: AttemptId)
    ensures Traces(MarkedPending(read, binding, taskId, now), binding.attemptId)
    ensures Traces(MarkedQuarantined(read, binding, reason, taskId, now), binding.attemptId)
    ensures OwnPending(read, other) && other != binding.attemptId ==>
              Traces(MarkedQuarantined(read, binding, reason, taskId, now), other)
    ensures Unmarked(MarkedPending(read, binding, taskId, now)) == Unmarked(Base(read, binding))
    ensures Unmarked(MarkedQuarantined(read, binding, reason, taskId, now)) == Unmarked(Base(read, binding))
    ensures var state := MarkedPending(read, binding, taskId, now);
            && state.pending == Some(PendingAttempt(binding.attemptId, binding, taskId, now))
            && state.(pending := None) == Base(read, binding).(pending := None)
    ensures var state := MarkedQuarantined(read, binding, reason, taskId, now);
            && state.quarantinedAt == Some(now) && state.quarantineReason == Some(reason)
            && state.quarantineBinding == Some(binding)
            && state.quarantineTaskId == (if taskId.Some? then taskId else Base(read, binding).quarantineTaskId)
            && (state.pending.Some? <==> ForeignPending(Some(Base(read, binding)), binding.attemptId))
  {
  }

  // ---- The attempt object -----------------------------------------------------------

  /** What a response or stream event says about the payment. */
  datatype Response = Response(completed: bool, terminal: bool, receipts: seq<Receipt>)

  /** `observe` either answers whether the attempt is resolved or throws the quarantine error. */
  datatype Verdict = Says(resolved: bool) | Throws(error: Unsafe)

  /** The attempt's own reconcile call: the records it leaves and what it answers. */
  function Reconciled(records: map<string, ChannelState>, binding: Binding, receipts: seq<Receipt>,
      faults: seq<Fault>): (map<string, ChannelState>, Outcome)
    requires |receipts| <= |faults|
  {
    match AllowedBy([binding])
    case Refused(error) => (records, Failed(error))
    case Allowed(bounds) =>
      RelevantFacts(receipts, bounds);
      var p := ApplyAll(records, Relevant(receipts, bounds), faults);
      (p.records, OutcomeOf(p))
  }

  /** What a response proves about the voucher: it was folded, nothing yet, or that the
      merchant may hold it while the record did not move. */
  datatype Proof = Proved | Unproved | Broken(reason: string)

  function ProofOf(records: map<string, ChannelState>, binding: Binding, response: Response, faults: seq<Fault>): Proof
    requires |response.receipts| <= |faults|
  {
    var owed := response.completed || response.terminal;
    if !owed && response.receipts == [] then Unproved
    else match Reconciled(records, binding, response.receipts, faults).1
      case Failed(_) => Broken("write-failed")
      case Applied(ids) => if ids != [] then Proved else if owed then Broken("no-matching-receipt") else Unproved
  }

  /** The records once a response has been observed, before any marker. */
  function Observed(records: map<string, ChannelState>, binding: Binding, response: Response,
      faults: seq<Fault>): map<string, ChannelState>
    requires |response.receipts| <= |faults|
  {
    if !response.completed && !response.terminal && response.receipts == [] then records
    else Reconciled(records, binding, response.receipts, faults).0
  }

  /** The records after a quarantine marker was tried. */
  function Quarantined(records: map<string, ChannelState>, binding: Binding, reason: string, taskId: Option<string>,
      fault: Fault, now: string): map<string, ChannelState>
  {
    var key := Key(binding.channelId);
    if fault.Healthy? || fault == SetFails(true)
    then records[key := MarkedQuarantined(Lookup(records, key), binding, reason, taskId, now)]
    else records
  }

  class X402BatchAttempt {
    const binding: Binding
    const taskId: Option<string>
    const storage: ChannelStorage
    const queue: LeaseQueue
    const call: nat
    /** An `onReconcileError` handler is configured. */
    const absorbs: bool
    var resolved: bool
    var pendingWritten: bool

    ghost predicate Valid()
      reads this, queue
    {
      resolved <==> !Holds(queue.View(), call)
    }

    ghost function Record(): Option<ChannelState>
      reads storage
    {
      Lookup(storage.records, Key(binding.channelId))
    }

    /** The attempt left a durable trace: it folded, or its own mark is in storage. */
    ghost predicate Accounted()
      reads storage
    {
      && Record().Some?
      && (StampOf(Record()) == Some(binding.attemptId) || Traces(Record().value, binding.attemptId))
    }

    /** The lease was released without an error. */
    ghost predicate ReleasedClean()
      reads queue
    {
      call < |queue.nodes| && queue.nodes[call].status == Settled(None)
    }

    constructor (binding: Binding, taskId: Option<string>, storage: ChannelStorage,
                 queue: LeaseQueue, call: nat, absorbs: bool)
      requires Holds(queue.View(), call)
      ensures Valid() && !resolved && !pendingWritten
      ensures this.binding == binding && this.taskId == taskId && this.storage == storage
      ensures this.queue == queue && this.call == call && this.absorbs == absorbs
    {
      this.binding, this.taskId, this.storage := binding, taskId, storage;
      this.queue, this.call, this.absorbs := queue, call, absorbs;
      resolved, pendingWritten := false, false;
    }

    /** `markSubmitted`: `ok` is false when the storage call threw. */
    method MarkSubmitted(fault: Fault, now: string) returns (ok: bool)
      requires Valid()
      modifies this`pendingWritten, storage
      ensures Valid()
      ensures old(resolved || pendingWritten) ==>
                ok && pendingWritten == old(pendingWritten) && storage.records == old(storage.records)
      ensures !old(resolved || pendingWritten) ==>
                && ok == pendingWritten == fault.Healthy?
                && storage.records ==
                     if fault.Healthy? || fault == SetFails(true)
                     then old(storage.records)[Key(binding.channelId) := MarkedPending(old(Record()), binding,
                         taskId, now)]
                     else old(storage.records)
    {
      if resolved || pendingWritten {
        return true;
      }
      if fault.GetFails? {
        return false;
      }
      var key := Key(binding.channelId);
      var current := Lookup(storage.records, key);
      if fault.Healthy? || fault.landed {
        storage.records := storage.records[key := MarkedPending(current, binding, taskId, now)];
      }
      if !fault.Healthy? {
        return false;
      }
      pendingWritten := true;
      return true;
    }

    /** `acceptRetry`: the merchant provably rejected the voucher. */
    method AcceptRetry(fault: Fault)
      requires Valid()
      modifies this`resolved, storage, queue
      ensures Valid() && resolved
      ensures old(resolved) ==> storage.records == old(storage.records) && queue.View() == old(queue.View())
      ensures !old(resolved) ==>
                && queue.View() == Release(old(queue.View()), call, None)
                && storage.records ==
                     if pendingWritten && (fault.Healthy? || fault == SetFails(true))
                        && OwnPending(old(Record()), binding.attemptId)
                     then old(storage.records)[Key(binding.channelId) := PendingCleared(old(Record()).value)]
                     else old(storage.records)
    {
      if resolved {
        return;
      }
      resolved := true;
      var key := Key(binding.channelId);
      if pendingWritten && !fault.GetFails? {
        var current := Lookup(storage.records, key);
        if OwnPending(current, binding.attemptId) && (fault.Healthy? || fault.landed) {
          storage.records := storage.records[key := PendingCleared(current.value)];
        }
      }
      queue.Unlock(call, None);
    }

    /** `dispose`: the payload never left the process. */
    method Dispose()
      requires Valid()
      modifies this`resolved, queue
      ensures Valid() && resolved
      ensures queue.View() == if old(resolved) then old(queue.View()) else Release(old(queue.View()), call, None)
    {
      if resolved {
        return;
      }
      resolved := true;
      queue.Unlock(call, None);
    }

    /** `_quarantine`: a failing marker write is swallowed, the lease carries the error on. */
    method Quarantine(reason: string, responseTask: Option<string>, fault: Fault, now: string)
      returns (verdict: Verdict)
      requires Valid() && !resolved
      modifies this`resolved, storage, queue
      ensures Valid() && resolved
      ensures verdict == if absorbs then Says(true) else Throws(Unsafe(binding.attemptId, reason))
      ensures queue.View() == Release(old(queue.View()), call, Some(Unsafe(binding.attemptId, reason)))
      ensures storage.records == Quarantined(old(storage.records), binding, reason,
          if taskId.Some? then taskId else responseTask, fault, now)
      ensures old(Accounted()) ==> Accounted()
    {
      resolved := true;
      var key := Key(binding.channelId);
      if !fault.GetFails? {
        var current := Lookup(storage.records, key);
        if fault.Healthy? || fault.landed {
          storage.records := storage.records[key :=
            MarkedQuarantined(current, binding, reason, if taskId.Some? then taskId else responseTask, now)];
        }
      }
      queue.Unlock(call, Some(Unsafe(binding.attemptId, reason)));
      return if absorbs then Says(true) else Throws(Unsafe(binding.attemptId, reason));
    }

    /** `close`: the response ended without proving either outcome. */
    method Close(responseTask: Option<string>, fault: Fault, now: string) returns (verdict: Verdict)
      requires Valid()
      modifies this`resolved, storage, queue
      ensures Valid() && resolved
      ensures old(resolved) ==> verdict == Says(true) && storage.records == old(storage.records)
      ensures !old(resolved) ==>
                queue.View() == Release(old(queue.View()), call,
                    Some(Unsafe(binding.attemptId, "ambiguous-response")))
      ensures !old(resolved) ==>
                && verdict == (if absorbs then Says(true) else Throws(Unsafe(binding.attemptId, "ambiguous-response")))
                && storage.records == Quarantined(old(storage.records), binding, "ambiguous-response",
                     if taskId.Some? then taskId else responseTask, fault, now)
      ensures !old(resolved) && fault.Healthy? ==> Record().Some? && Traces(Record().value, binding.attemptId)
      ensures old(Accounted()) ==> Accounted()
    {
      if resolved {
        return Says(true);
      }
      verdict := Quarantine("ambiguous-response", responseTask, fault, now);
    }

    /** The attempt's own reconcile call, as far as its record is concerned. */
    method Settle(receipts: seq<Receipt>, faults: seq<Fault>) returns (outcome: Outcome)
      requires |receipts| <= |faults|
      modifies storage
      ensures (storage.records, outcome) == Reconciled(old(storage.records), binding, receipts, faults)
      ensures outcome.Applied? && outcome.ids != [] ==> StampOf(Record()) == Some(binding.attemptId)
      ensures outcome.Applied? && outcome.ids == [] ==> storage.records == old(storage.records)
      ensures Record() == old(Record()) || StampOf(Record()) == Some(binding.attemptId)
    {
      ghost var before := storage.records;
      outcome := ReconcileBatchSettlement(storage, receipts, [binding], faults);
      if AllowedBy([binding]).Allowed? {
        ReconcileAccounts(before, receipts, binding, faults);
      }
    }

    /** `observe`: fold the receipts, and quarantine a settled payment that owes one. */
    method Observe(response: Response, responseTask: Option<string>, faults: seq<Fault>, fault: Fault, now: string)
      returns (verdict: Verdict)
      requires Valid() && |response.receipts| <= |faults|
      modifies this`resolved, storage, queue
      ensures Valid()
      ensures verdict != Says(false) <==> resolved
      ensures !old(resolved) ==>
                match ProofOf(old(storage.records), binding, response, faults)
                case Proved =>
                  && verdict == Says(true) && queue.View() == Release(old(queue.View()), call, None)
                  && storage.records == Observed(old(storage.records), binding, response, faults)
                case Unproved => verdict == Says(false)
                case Broken(reason) =>
                  && verdict == (if absorbs then Says(true) else Throws(Unsafe(binding.attemptId, reason)))
                  && queue.View() == Release(old(queue.View()), call, Some(Unsafe(binding.attemptId, reason)))
                  && storage.records == Quarantined(Observed(old(storage.records), binding, response, faults), binding,
                       reason, if taskId.Some? then taskId else responseTask, fault, now)
      ensures old(resolved) ==> verdict == Says(true) && storage.records == old(storage.records)
      ensures verdict == Says(false) ==>
                && !response.completed && !response.terminal
                && storage.records == old(storage.records) && queue.View() == old(queue.View())
      ensures !old(resolved) && resolved && ReleasedClean() ==> StampOf(Record()) == Some(binding.attemptId)
      ensures !old(resolved) && verdict == Says(true) && !absorbs ==> ReleasedClean()
      ensures old(Accounted()) ==> Accounted()
      ensures verdict.Throws? && fault.Healthy? ==> Record().Some? && Traces(Record().value, binding.attemptId)
    {
      if resolved {
        return Says(true);
      }
      var required := response.completed || response.terminal;
      if !required && response.receipts == [] {
        return Says(false);
      }
      var outcome := Settle(response.receipts, faults);
      if outcome.Applied? && outcome.ids != [] {
        resolved := true;
        queue.Unlock(call, None);
        return Says(true);
      }
      if outcome.Applied? && !required {
        return Says(false);
      }
      verdict := Quarantine(if outcome.Applied? then "no-matching-receipt" else "write-failed",
                            responseTask, fault, now);
    }
  }

  /** Every receipt a single binding vouches for is of its own channel. */
  lemma RelevantIsOwn(receipts: seq<Receipt>, binding: Binding)
    requires AllowedBy([binding]).Allowed?
    ensures var es := Relevant(receipts, AllowedBy([binding]).bounds);
            && WellFormed(es) && Consistent(es) && |es| <= |receipts|
            && forall i | 0 <= i < |es| :: Key(es[i].id) == Key(binding.channelId)
  {
    assert [binding][..0] == [];
    assert AllowedBy([binding]).bounds.Keys <= {Key(binding.channelId)};
    RelevantFacts(receipts, AllowedBy([binding]).bounds);
  }

  /** Without failures the call applies something exactly when some receipt gets past the
      guards, and otherwise writes nothing. */
  lemma ReconciledExactly(records: map<string, ChannelState>, binding: Binding, receipts: seq<Receipt>,
      faults: seq<Fault>)
    requires |receipts| <= |faults| && AllHealthy(faults) && AllowedBy([binding]).Allowed?
    ensures var key := Key(binding.channelId);
            var open := Opens(Lookup(records, key), Relevant(receipts, AllowedBy([binding]).bounds), key);
            var (after, outcome) := Reconciled(records, binding, receipts, faults);
            && outcome.Applied? && (outcome.ids != [] <==> open) && (!open ==> after == records)
  {
    var es, key := Relevant(receipts, AllowedBy([binding]).bounds), Key(binding.channelId);
    RelevantIsOwn(receipts, binding);
    HealthyOutcome(records, es, faults, key);
    AppliedExactlyWhenOpen(records, es, faults, key);
    ReconcileAccounts(records, receipts, binding, faults);
  }

  /** On a healthy storage a response proves the voucher folded if and only if a receipt it
      carries gets past the guards; if none does, only a settled payment is broken. */
  lemma ProofExactly(records: map<string, ChannelState>, binding: Binding, response: Response, faults: seq<Fault>)
    requires |response.receipts| <= |faults| && AllHealthy(faults) && AllowedBy([binding]).Allowed?
    ensures var key := Key(binding.channelId);
            var open := Opens(Lookup(records, key), Relevant(response.receipts, AllowedBy([binding]).bounds), key);
            && (ProofOf(records, binding, response, faults) == Proved <==> open)
            && (!open ==>
                  && Observed(records, binding, response, faults) == records
                  && ProofOf(records, binding, response, faults) ==
                       if response.completed || response.terminal then Broken("no-matching-receipt") else Unproved)
  {
    ReconciledExactly(records, binding, response.receipts, faults);
  }

  /** A refused binding or any failing storage call breaks the proof, and nothing else is
      reported as a failed write. */
  lemma FailuresBreakProof(records: map<string, ChannelState>, binding: Binding, response: Response,
      faults: seq<Fault>)
    requires |response.receipts| <= |faults|
    ensures ProofOf(records, binding, response, faults) == Broken("write-failed") <==>
            && (response.completed || response.terminal || response.receipts != [])
            && (AllowedBy([binding]).Allowed? ==>
                  var es := Relevant(response.receipts, AllowedBy([binding]).bounds);
                  WellFormed(es) && |es| <= |faults| && ApplyAll(records, es, faults).failures > 0)
  {
    if AllowedBy([binding]).Allowed? {
      RelevantFacts(response.receipts, AllowedBy([binding]).bounds);
    }
  }

  /** What one attempt's reconcile can do to its own record: nothing, or a fold it is
      stamped on; an applied receipt always is one, and without failures nothing
      applied means nothing written. */
  lemma ReconcileAccounts(records: map<string, ChannelState>, receipts: seq<Receipt>, binding: Binding,
      faults: seq<Fault>)
    requires |receipts| <= |faults| && AllowedBy([binding]).Allowed?
    ensures var es := Relevant(receipts, AllowedBy([binding]).bounds);
            && WellFormed(es) && |es| <= |faults|
            && var p := ApplyAll(records, es, faults);
               var now := Lookup(p.records, Key(binding.channelId));
               && (now == Lookup(records, Key(binding.channelId)) || StampOf(now) == Some(binding.attemptId))
               && (p.applied != [] ==> StampOf(now) == Some(binding.attemptId))
               && (p.applied == [] && p.failures == 0 ==> p.records == records)
  {
    var allowed := AllowedBy([binding]).bounds;
    RelevantFacts(receipts, allowed);
    ApplyAccounts(records, Relevant(receipts, allowed), faults, Key(binding.channelId), binding.attemptId);
  }

  lemma {:induction false} ApplyAccounts(
    records: map<string, ChannelState>, entries: seq<Entry>, faults: seq<Fault>, key: string, id: AttemptId)
    requires WellFormed(entries) && |entries| <= |faults|
    requires forall i | 0 <= i < |entries| :: Key(entries[i].id) == key && entries[i].bounds.attemptId == id
    ensures var p := ApplyAll(records, entries, faults);
            && (Lookup(p.records, key) == Lookup(records, key) || StampOf(Lookup(p.records, key)) == Some(id))
            && (p.applied != [] ==> StampOf(Lookup(p.records, key)) == Some(id))
            && (p.applied == [] && p.failures == 0 ==> p.records == records)
  {
    if entries != [] {
      var n := |entries| - 1;
      ApplyAccounts(records, entries[..n], faults, key, id);
      EntryOutcome(ApplyAll(records, entries[..n], faults), entries[n], faults[n], key);
    }
  }

  // ---- The request paths ---------------------------------------------------------------

  /** How sending the paid follow-up went: it could not be built, the transport or the
      parser threw after submission, or a task came back (`reprompt`: with a valid
      `payment-required`). */
  datatype Sent = BuildThrows | TransportThrows | Answered(response: Response, task: string, reprompt: bool)

  /** The records behind which a voucher is handed over. */
  function Submitted(records: map<string, ChannelState>, binding: Binding, taskId: Option<string>,
      now: string): map<string, ChannelState> {
    var key := Key(binding.channelId);
    records[key := MarkedPending(Lookup(records, key), binding, taskId, now)]
  }

  /** One paid round of `sendMessage`. However it goes, the attempt ends resolved and its
      lease free; the voucher is handed over only behind the durable record; and a
      handed-over voucher that was not provably rejected stays accounted for, whatever
      storage call fails. A clean release needs a proof: never sent, rejected, or folded. */
  method BlockingRound(a: X402BatchAttempt, sent: Sent, markFault: Fault, faults: seq<Fault>, fault: Fault,
      now: string)
    returns (submitted: bool, rejected: bool, threw: bool)
    requires a.Valid() && !a.resolved && !a.pendingWritten
    requires sent.Answered? ==> |sent.response.receipts| <= |faults|
    modifies a, a.storage, a.queue
    ensures a.Valid() && a.resolved
    ensures submitted <==> !sent.BuildThrows? && markFault.Healthy?
    ensures submitted && !rejected ==> a.Accounted()
    ensures submitted && sent.Answered? ==>
              var proof := ProofOf(Submitted(old(a.storage.records), a.binding, a.taskId, now), a.binding,
                  sent.response, faults);
              && (rejected <==> proof == Unproved && sent.reprompt)
              && (a.ReleasedClean() <==> proof == Proved || rejected)
              && (threw <==> !a.absorbs && (proof.Broken? || (proof == Unproved && !sent.reprompt)))
    ensures !submitted ==> threw && !rejected && a.ReleasedClean()
    ensures submitted && !sent.Answered? ==> threw && !rejected && !a.ReleasedClean()
    ensures a.ReleasedClean() ==> !submitted || rejected || StampOf(a.Record()) == Some(a.binding.attemptId)
  {
    submitted, rejected, threw := false, false, false;
    if !sent.BuildThrows? {
      submitted := a.MarkSubmitted(markFault, now);
    }
    if !submitted || sent.TransportThrows? {
      threw := true;
      if submitted {
        var _ := a.Close(None, fault, now);
      } else {
        a.Dispose();
      }
      return;
    }
    var verdict := a.Observe(sent.response, Some(sent.task), faults, fault, now);
    if verdict.Throws? {
      threw := true;
    } else if !verdict.resolved && sent.reprompt {
      a.AcceptRetry(fault);
      rejected := true;
    } else if !verdict.resolved {
      verdict := a.Close(Some(sent.task), fault, now);
      threw := verdict.Throws?;
    }
    a.Dispose();
  }

  datatype StreamEvent = ArtifactEvent | StatusEvent(response: Response, task: string, reprompt: bool)

  /** What each event of the response would prove over these records. */
  function Proofs(records: map<string, ChannelState>, binding: Binding, events: seq<StreamEvent>,
      faults: seq<seq<Fault>>): seq<Proof>
    requires |faults| == |events|
    requires forall i | 0 <= i < |events| && events[i].StatusEvent? :: |events[i].response.receipts| <= |faults[i]|
  {
    seq(|events|, i requires 0 <= i < |events| =>
      if events[i].StatusEvent? then ProofOf(records, binding, events[i].response, faults[i]) else Unproved)
  }

  /** The event leaves the attempt as it is. */
  predicate Passes(event: StreamEvent, proof: Proof) {
    event.StatusEvent? ==> !event.reprompt && proof == Unproved
  }

  /** All events before `i` do, and the consumer is still there. */
  ghost predicate Waits(proofs: seq<Proof>, events: seq<StreamEvent>, end: StreamEnd, i: nat)
    requires |proofs| == |events| && i <= |events|
  {
    forall j: nat | j < i :: Passes(events[j], proofs[j]) && end != ConsumerCloses(j)
  }

  ghost predicate Decides(proofs: seq<Proof>, events: seq<StreamEvent>, end: StreamEnd, i: nat)
    requires |proofs| == |events|
  {
    i < |events| && !Passes(events[i], proofs[i]) && Waits(proofs, events, end, i)
  }

  /** How the response stream ends if no event resolves the attempt first. */
  datatype StreamEnd = Eof | StreamThrows | ConsumerCloses(event: nat)

  /** One status event of the response. */
  method ObserveEvent(a: X402BatchAttempt, event: StreamEvent, faults: seq<Fault>, fault: Fault, now: string,
      ghost proof: Proof)
    returns (rejected: bool, threw: bool)
    requires a.Valid() && !a.resolved && event.StatusEvent? && |event.response.receipts| <= |faults|
    requires proof == ProofOf(a.storage.records, a.binding, event.response, faults)
    modifies a, a.storage, a.queue
    ensures a.Valid()
    ensures rejected <==> proof == Unproved && event.reprompt
    ensures a.resolved <==> proof != Unproved || event.reprompt
    ensures a.resolved ==> (a.ReleasedClean() <==> !proof.Broken?)
    ensures threw <==> proof.Broken? && !a.absorbs
    ensures !a.resolved ==> a.storage.records == old(a.storage.records)
    ensures old(a.Accounted()) && !rejected ==> a.Accounted()
    ensures a.resolved && a.ReleasedClean() && !rejected ==> StampOf(a.Record()) == Some(a.binding.attemptId)
  {
    rejected, threw := false, false;
    var verdict := a.Observe(event.response, Some(event.task), faults, fault, now);
    if verdict.Throws? {
      threw := true;
    } else if !verdict.resolved && event.reprompt {
      a.AcceptRetry(fault);
      rejected := true;
    }
  }

  /** How the attempt ends, given what each event would prove: as the first deciding event
      says, and quarantined when there is none. */
  ghost predicate EndsBy(proofs: seq<Proof>, events: seq<StreamEvent>, end: StreamEnd, rejected: bool, clean: bool)
    requires |proofs| == |events|
  {
    && (forall i: nat | Decides(proofs, events, end, i) ::
          (rejected <==> proofs[i] == Unproved) && (clean <==> !proofs[i].Broken?))
    && ((forall i: nat :: !Decides(proofs, events, end, i)) ==> !rejected && !clean)
  }

  lemma WaitsMore(proofs: seq<Proof>, events: seq<StreamEvent>, end: StreamEnd, i: nat)
    requires |proofs| == |events| && i < |events| && Waits(proofs, events, end, i)
    requires Passes(events[i], proofs[i]) && end != ConsumerCloses(i)
    ensures Waits(proofs, events, end, i + 1)
  {
  }

  lemma DecidedEnds(proofs: seq<Proof>, events: seq<StreamEvent>, end: StreamEnd, i: nat, rejected: bool, clean: bool)
    requires |proofs| == |events| && Decides(proofs, events, end, i)
    requires (rejected <==> proofs[i] == Unproved) && (clean <==> !proofs[i].Broken?)
    ensures EndsBy(proofs, events, end, rejected, clean)
  {
    forall k: nat | Decides(proofs, events, end, k) ensures k == i {
    }
  }

  lemma UndecidedEnds(proofs: seq<Proof>, events: seq<StreamEvent>, end: StreamEnd, n: nat)
    requires |proofs| == |events| && n <= |events| && Waits(proofs, events, end, n)
    requires n < |events| ==> Passes(events[n], proofs[n]) && end == ConsumerCloses(n)
    ensures EndsBy(proofs, events, end, false, false)
  {
  }

  /** The response read to its end, or to the event that rejects or breaks the attempt. */
  method FollowStream(a: X402BatchAttempt, events: seq<StreamEvent>, end: StreamEnd, faults: seq<seq<Fault>>,
      fault: Fault, now: string, ghost proofs: seq<Proof>)
    returns (rejected: bool, threw: bool)
    requires a.Valid() && !a.resolved && a.Accounted() && |faults| == |events|
    requires forall i | 0 <= i < |events| && events[i].StatusEvent? :: |events[i].response.receipts| <= |faults[i]|
    requires |proofs| == |events|
    requires forall i | 0 <= i < |events| && events[i].StatusEvent? ::
               proofs[i] == ProofOf(a.storage.records, a.binding, events[i].response, faults[i])
    modifies a, a.storage, a.queue
    ensures a.Valid() && a.resolved
    ensures !rejected ==> a.Accounted()
    ensures EndsBy(proofs, events, end, rejected, a.ReleasedClean())
    ensures a.ReleasedClean() && !rejected ==> StampOf(a.Record()) == Some(a.binding.attemptId)
    ensures !a.absorbs && !a.ReleasedClean() && !end.ConsumerCloses? ==> threw
    ensures threw ==> end.StreamThrows? || !a.ReleasedClean()
  {
    rejected, threw := false, false;
    ghost var decided := 0;
    var i := 0;
    while i < |events|
      invariant 0 <= i <= |events| && a.Valid() && a.Accounted() && !rejected && !threw
      invariant !a.resolved ==> a.storage.records == old(a.storage.records) && Waits(proofs, events, end, i)
      invariant a.resolved ==> Decides(proofs, events, end, decided) && proofs[decided] != Unproved
      invariant a.resolved ==> (a.ReleasedClean() <==> !proofs[decided].Broken?) && (!a.absorbs ==> a.ReleasedClean())
      invariant a.resolved && a.ReleasedClean() ==> StampOf(a.Record()) == Some(a.binding.attemptId)
    {
      if events[i].StatusEvent? && !a.resolved {
        decided := i;
        rejected, threw := ObserveEvent(a, events[i], faults[i], fault, now, proofs[i]);
        if rejected || threw {
          DecidedEnds(proofs, events, end, i, rejected, a.ReleasedClean());
          return;
        }
      }
      if end == ConsumerCloses(i) {
        break;
      }
      if !a.resolved {
        WaitsMore(proofs, events, end, i);
      }
      i := i + 1;
    }
    if a.resolved {
      DecidedEnds(proofs, events, end, decided, rejected, a.ReleasedClean());
    } else {
      var verdict := a.Close(None, fault, now);
      threw := verdict.Throws? && !end.ConsumerCloses?;
      UndecidedEnds(proofs, events, end, i);
    }
    threw := threw || end.StreamThrows?;
  }

  /** One paid response of `sendMessageStream`: the same guarantees when the receipt, a
      contradictory re-prompt, a transport failure, the end of the stream or the consumer
      closing the iterator arrive in any order. Each event's folds meet storage failures of
      their own; `fault` befalls the one marker write that can end the attempt. */
  method StreamRound(a: X402BatchAttempt, events: seq<StreamEvent>, end: StreamEnd,
                     markFault: Fault, faults: seq<seq<Fault>>, fault: Fault, now: string)
    returns (submitted: bool, rejected: bool, threw: bool)
    requires a.Valid() && !a.resolved && !a.pendingWritten && |faults| == |events|
    requires forall i | 0 <= i < |events| && events[i].StatusEvent? :: |events[i].response.receipts| <= |faults[i]|
    modifies a, a.storage, a.queue
    ensures a.Valid() && a.resolved
    ensures submitted <==> markFault.Healthy?
    ensures submitted && !rejected ==> a.Accounted()
    ensures submitted ==>
              EndsBy(Proofs(Submitted(old(a.storage.records), a.binding, a.taskId, now), a.binding, events, faults),
                  events, end, rejected, a.ReleasedClean())
    ensures !submitted ==> threw && !rejected && a.ReleasedClean()
    ensures submitted && !a.absorbs && !a.ReleasedClean() && !end.ConsumerCloses? ==> threw
    ensures submitted && threw ==> end.StreamThrows? || !a.ReleasedClean()
    ensures a.ReleasedClean() ==> !submitted || rejected || StampOf(a.Record()) == Some(a.binding.attemptId)
  {
    rejected, threw := false, false;
    submitted := a.MarkSubmitted(markFault, now);
    if !submitted {
      a.Dispose();
      threw := true;
      return;
    }
    rejected, threw := FollowStream(a, events, end, faults, fault, now,
        Proofs(a.storage.records, a.binding, events, faults));
  }
}
