/** The payer's channel record and the pure part of reconciling a
    `batch-settlement` receipt into it (x402/client.ts): what a binding proves,
    which receipts it can vouch for, when a fold declines, and what it writes. */
module ChannelFold {
  import opened Options

  /** A decimal field as `BigInt` reads it: absent, present but unusable, or a value. */
  datatype Numeral = Missing | Garbage | Amount(value: int)

  type AttemptId = string

  datatype ChannelState = ChannelState(
    cumulative: Numeral,
    balance: Numeral,
    totalClaimed: Numeral,
    signedMax: Option<string>,
    signature: Option<string>,
    quarantinedAt: Option<string>,
    quarantineReason: Option<string>,
    quarantineBinding: Option<Binding>,
    quarantineTaskId: Option<string>,
    stamp: Option<AttemptId>,
    pending: Option<PendingAttempt>)

  datatype PendingAttempt = PendingAttempt(
    attemptId: AttemptId, binding: Binding, taskId: Option<string>, submittedAt: string)

  /** `preAttemptState`: the key left out, an explicit "no record", or the snapshot. */
  datatype Snapshot = OmittedKey | NoRecord | Taken(state: ChannelState)

  datatype Binding = Binding(
    channelId: string, ceiling: Numeral, deposit: Numeral, attemptId: AttemptId, pre: Snapshot)

  /** A merchant-supplied receipt; `channelId` is `None` unless it is canonical. */
  datatype Receipt =
    | Malformed
    | Receipt(success: bool, channelId: Option<string>, cumulative: Numeral,
              charged: Numeral, balance: Numeral, totalClaimed: Numeral)

  const EmptyState := ChannelState(Missing, Missing, Missing, None, None, None, None, None, None, None, None)

  // ---- What a binding proves -------------------------------------------------

  datatype Bounds = Bounds(
    ceiling: int, deposit: int, pre: Option<ChannelState>,
    floor: int, preCumulative: int, attemptId: AttemptId)

  datatype BindingError = OmittedSnapshot | MissingAttemptId | BadBalance | BadCumulative

  datatype BoundsResult = Dropped | Rejected(error: BindingError) | Bounded(bounds: Bounds)

  function PreOf(binding: Binding): Option<ChannelState> {
    if binding.pre.Taken? then Some(binding.pre.state) else None
  }

  /** A trusted snapshot figure: absent reads as zero, anything not a natural number fails. */
  function TrustedFigure(n: Numeral): Option<nat> {
    match n
    case Missing => Some(0)
    case Garbage => None
    case Amount(v) => if v < 0 then None else Some(v)
  }

  function BalanceOf(pre: Option<ChannelState>): Option<nat> {
    if pre.Some? then TrustedFigure(pre.value.balance) else Some(0)
  }

  function CumulativeOf(pre: Option<ChannelState>): Option<nat> {
    if pre.Some? then TrustedFigure(pre.value.cumulative) else Some(0)
  }

  function BoundsOf(binding: Binding): BoundsResult {
    if binding.pre.OmittedKey? then Rejected(OmittedSnapshot)
    else if binding.attemptId == "" then Rejected(MissingAttemptId)
    else if !binding.ceiling.Amount? || binding.deposit.Garbage? then Dropped
    else
      var pre := PreOf(binding);
      var deposit := if binding.deposit.Missing? then 0 else binding.deposit.value;
      match BalanceOf(pre)
      case None => Rejected(BadBalance)
      case Some(balance) =>
        match CumulativeOf(pre)
        case None => Rejected(BadCumulative)
        case Some(cumulative) =>
          Bounded(Bounds(binding.ceiling.value, deposit, pre, balance + deposit, cumulative, binding.attemptId))
  }

  // ---- Which receipts it vouches for -----------------------------------------

  function Charged(r: Receipt): Option<nat>
    requires r.Receipt?
  {
    if r.charged.Amount? && r.charged.value >= 0 then Some(r.charged.value) else None
  }

  /** The cumulative the fold must commit, when this attempt can vouch for the receipt. */
  function Accepted(r: Receipt, bounds: Bounds): Option<nat> {
    if !r.Receipt? || !r.success || !r.cumulative.Amount? then None
    else
      var value := r.cumulative.value;
      if value < 0 || value > bounds.ceiling then None
      else match Charged(r)
        case Some(charged) => if value == bounds.preCumulative + charged then Some(value) else None
        case None => if value == bounds.ceiling then Some(value) else None
  }

  // ---- The fold --------------------------------------------------------------

  function StoredCumulative(stored: Option<ChannelState>): Option<nat> {
    if stored.Some? && stored.value.cumulative.Amount? && stored.value.cumulative.value >= 0
    then Some(stored.value.cumulative.value) else None
  }

  function StampOf(stored: Option<ChannelState>): Option<AttemptId> {
    if stored.Some? then stored.value.stamp else None
  }

  predicate Owns(stored: Option<ChannelState>, bounds: Bounds) {
    StampOf(stored) == Some(bounds.attemptId)
  }

  /** The record another attempt has advanced, or nothing to create a channel from. */
  predicate Declines(stored: Option<ChannelState>, bounds: Bounds, cumulative: nat) {
    && !Owns(stored, bounds)
    && var held := StoredCumulative(stored);
       || (held.Some? && held.value > cumulative)
       || (StampOf(stored).Some? && StampOf(stored) != StampOf(bounds.pre))
       || (held.None? && cumulative == 0 && bounds.deposit == 0)
  }

  /** Does a quarantine marker in `stored` belong to an attempt other than `id`? */
  predicate ForeignMarker(stored: Option<ChannelState>, id: AttemptId) {
    && stored.Some?
    && stored.value.quarantinedAt.Some?
    && stored.value.quarantineBinding.Some?
    && stored.value.quarantineBinding.value.attemptId != id
  }

  predicate ForeignPending(stored: Option<ChannelState>, id: AttemptId) {
    stored.Some? && stored.value.pending.Some? && stored.value.pending.value.attemptId != id
  }

  function FoldedBalance(bounds: Bounds, r: Receipt): int
    requires r.Receipt?
  {
    if r.balance.Amount? && r.balance.value > bounds.floor then r.balance.value else bounds.floor
  }

  function FoldedClaim(bounds: Bounds, r: Receipt): Numeral
    requires r.Receipt?
  {
    if r.totalClaimed.Amount? && r.totalClaimed.value >= 0 then Amount(r.totalClaimed.value)
    else if bounds.pre.Some? then bounds.pre.value.totalClaimed
    else Missing
  }

  function Fold(bounds: Bounds, cumulative: nat, r: Receipt, stored: Option<ChannelState>): ChannelState
    requires r.Receipt?
  {
    var pre := if bounds.pre.Some? then bounds.pre.value else EmptyState;
    var marked := ForeignMarker(stored, bounds.attemptId);
    ChannelState(
      Amount(cumulative),
      Amount(FoldedBalance(bounds, r)),
      FoldedClaim(bounds, r),
      pre.signedMax,
      pre.signature,
      if marked then stored.value.quarantinedAt else None,
      if marked then stored.value.quarantineReason else None,
      if marked then stored.value.quarantineBinding else None,
      if marked then stored.value.quarantineTaskId else None,
      Some(bounds.attemptId),
      if ForeignPending(stored, bounds.attemptId) then stored.value.pending else None)
  }

  /** What one accepted receipt writes over `stored`, or `None` when the fold declines. */
  function Commit(stored: Option<ChannelState>, bounds: Bounds, cumulative: nat, r: Receipt): Option<ChannelState>
    requires r.Receipt?
  {
    if Declines(stored, bounds, cumulative) then None else Some(Fold(bounds, cumulative, r, stored))
  }

  /** `id` has left its own submitted record or its own quarantine marker in `state`. */
  predicate Traces(state: ChannelState, id: AttemptId) {
    || (state.pending.Some? && state.pending.value.attemptId == id)
    || (state.quarantinedAt.Some? && state.quarantineBinding.Some?
        && state.quarantineBinding.value.attemptId == id)
  }

  /** Signing refuses a record carrying either mark (captureBatchSettlementBinding). */
  predicate Blocked(state: Option<ChannelState>) {
    state.Some? && (state.value.quarantinedAt.Some? || state.value.pending.Some?)
  }

  // ---- Laws of the fold --------------------------------------------------------

  /** Under one attempt, receipts commit figures as far apart as the charges they name, and
      one that names none commits at least as much as any other. */
  lemma FiguresFollowCharges(bounds: Bounds, r: Receipt, s: Receipt)
    requires Accepted(r, bounds).Some? && Accepted(s, bounds).Some?
    ensures Charged(r).Some? && Charged(s).Some? ==>
              Accepted(r, bounds).value - Accepted(s, bounds).value == Charged(r).value - Charged(s).value
    ensures Charged(s).None? ==> Accepted(r, bounds).value <= Accepted(s, bounds).value
  {
  }

  /** A receipt fits the attempts of one snapshot only: if two attempts vouch for it, they
      were signed from the same cumulative when it names its charge, and have the same
      ceiling when it does not; either way they commit the same figure. */
  lemma ReceiptFitsOneSnapshot(r: Receipt, b: Bounds, c: Bounds)
    requires Accepted(r, b).Some? && Accepted(r, c).Some?
    ensures Accepted(r, b) == Accepted(r, c)
    ensures if Charged(r).Some? then b.preCumulative == c.preCumulative else b.ceiling == c.ceiling
  {
  }

  /** Bounded spend per attempt: with the signer's ceiling at snapshot cumulative
      plus the request amount, every committed cumulative lies between the two,
      and the committed balance covers the snapshot's balance plus the deposit. */
  lemma CommitBounds(binding: Binding, amount: nat, r: Receipt, stored: Option<ChannelState>)
    requires BoundsOf(binding).Bounded?
    requires CumulativeOf(PreOf(binding)).Some?
    requires binding.ceiling == Amount(CumulativeOf(PreOf(binding)).value + amount)
    requires Accepted(r, BoundsOf(binding).bounds).Some?
    ensures var b := BoundsOf(binding).bounds;
            var c := Accepted(r, b).value;
            && CumulativeOf(PreOf(binding)).value <= c <= CumulativeOf(PreOf(binding)).value + amount
            && forall next :: Commit(stored, b, c, r) == Some(next) ==>
                 && next.cumulative == Amount(c)
                 && next.balance.Amount?
                 && next.balance.value >= BalanceOf(PreOf(binding)).value
                      + (if binding.deposit.Amount? then binding.deposit.value else 0)
                 && (r.balance.Amount? ==> next.balance.value >= r.balance.value)
                 && (next.balance.value > b.floor ==> r.balance == next.balance)
  {
  }

  /** The money fields and the stamp are a function of binding and receipt alone. */
  lemma FoldIgnoresStore(bounds: Bounds, cumulative: nat, r: Receipt,
                         s: Option<ChannelState>, t: Option<ChannelState>)
    requires r.Receipt?
    ensures var f, g := Fold(bounds, cumulative, r, s), Fold(bounds, cumulative, r, t);
            f.(quarantinedAt := None, quarantineReason := None, quarantineBinding := None,
               quarantineTaskId := None, pending := None)
            == g.(quarantinedAt := None, quarantineReason := None, quarantineBinding := None,
                  quarantineTaskId := None, pending := None)
  {
  }

  /** And where each comes from: the claim from the receipt when it reports a usable one and
      else from the attempt's snapshot, the voucher in hand always from the snapshot. */
  lemma FoldSources(binding: Binding, cumulative: nat, r: Receipt, stored: Option<ChannelState>)
    requires BoundsOf(binding).Bounded? && r.Receipt?
    ensures var next := Fold(BoundsOf(binding).bounds, cumulative, r, stored);
            && (forall n: nat | r.totalClaimed == Amount(n) :: next.totalClaimed == r.totalClaimed)
            && ((forall n: nat :: r.totalClaimed != Amount(n)) ==>
                  match binding.pre
                  case Taken(state) => next.totalClaimed == state.totalClaimed
                  case _ => next.totalClaimed == Missing)
            && (match binding.pre
                case Taken(state) => next.signedMax == state.signedMax && next.signature == state.signature
                case _ => next.signedMax == None && next.signature == None)
            && next.stamp == Some(binding.attemptId)
  {
  }

  /** Refolding a fold's own output is allowed and changes nothing. */
  lemma FoldIdempotent(bounds: Bounds, cumulative: nat, r: Receipt, stored: Option<ChannelState>)
    requires r.Receipt?
    ensures var once := Fold(bounds, cumulative, r, stored);
            Commit(Some(once), bounds, cumulative, r) == Some(once)
  {
  }

  /** Exactly which records a receipt repairs: its own, and those that descend from
      its snapshot (or lost their stamp) without holding a higher cumulative. */
  lemma RepairsExactly(bounds: Bounds, cumulative: nat, r: Receipt, stored: Option<ChannelState>)
    requires r.Receipt?
    ensures Commit(stored, bounds, cumulative, r).Some? <==>
            || Owns(stored, bounds)
            || (&& (StampOf(stored).None? || StampOf(stored) == StampOf(bounds.pre))
                && (StoredCumulative(stored).Some? ==> StoredCumulative(stored).value <= cumulative)
                && (StoredCumulative(stored).Some? || cumulative > 0 || bounds.deposit != 0))
  {
  }

  /** Whose marks survive: a fold clears its own and an ownerless quarantine and
      keeps every other attempt's whole, so it traces exactly the other attempts `stored`
      traced. */
  lemma FoldKeepsForeignTraces(bounds: Bounds, cumulative: nat, r: Receipt,
                               stored: Option<ChannelState>, other: AttemptId)
    requires r.Receipt?
    ensures var next := Fold(bounds, cumulative, r, stored);
            && !Traces(next, bounds.attemptId)
            && (other != bounds.attemptId ==>
                  (Traces(next, other) <==> stored.Some? && Traces(stored.value, other)))
            && (Blocked(Some(next)) <==>
                  ForeignMarker(stored, bounds.attemptId) || ForeignPending(stored, bounds.attemptId))
            && (ForeignPending(stored, bounds.attemptId) ==> next.pending == stored.value.pending)
            && (ForeignMarker(stored, bounds.attemptId) ==>
                  && next.quarantinedAt == stored.value.quarantinedAt
                  && next.quarantineReason == stored.value.quarantineReason
                  && next.quarantineBinding == stored.value.quarantineBinding
                  && next.quarantineTaskId == stored.value.quarantineTaskId)
            && (!ForeignMarker(stored, bounds.attemptId) ==>
                  && next.quarantinedAt.None? && next.quarantineReason.None?
                  && next.quarantineBinding.None? && next.quarantineTaskId.None?)
  {
  }

  /** Ownership is not monotone: a second accepted receipt may lower the record an
      attempt already owns, so only the snapshot bounds what an attempt commits. */
  lemma OwnedRewriteMayLower(bounds: Bounds, high: Receipt, low: Receipt, stored: Option<ChannelState>)
    requires Accepted(high, bounds).Some? && Accepted(low, bounds).Some?
    requires Accepted(low, bounds).value < Accepted(high, bounds).value
    requires Commit(stored, bounds, Accepted(high, bounds).value, high).Some?
    ensures var first := Commit(stored, bounds, Accepted(high, bounds).value, high);
            var second := Commit(first, bounds, Accepted(low, bounds).value, low);
            && second.Some?
            && StoredCumulative(second).value < StoredCumulative(first).value
            && (StoredCumulative(stored).Some? && !Owns(stored, bounds) ==>
                  StoredCumulative(stored).value <= StoredCumulative(first).value)
  {
  }
}
