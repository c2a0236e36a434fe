/** Which offered requirement the client signs (client/a2x-client.ts `_signX402`,
    x402/client.ts `defaultSelect`). */
module Selector {
  import opened Options
  import opened CanonicalJson

  /** An offered requirement: a JSON object. */
  type Offer = Fields

  datatype Version = V1 | V2

  datatype Multiplier = Whole(n: int) | Fractional

  /** The caller's policy. `batchSettlement` is the configured deposit multiplier, if the
      scheme is configured at all. */
  datatype Policy = Policy(
    maxAmount: Option<int>, batchSettlement: Option<Option<Multiplier>>,
    allowUpto: bool, allowBatchSettlement: bool)

  /** `BigInt` of a string, and the network tests, belong to other code. */
  datatype World = World(bigInt: string -> Option<int>, isEvm: Json -> bool, isCaip2Evm: Json -> bool)

  function AmountKey(version: Version): string {
    if version.V1? then "maxAmountRequired" else "amount"
  }

  function OtherAmountKey(version: Version): string {
    if version.V1? then "amount" else "maxAmountRequired"
  }

  predicate Has(o: Offer, key: string, value: Json) {
    Lookup(o, key) == Some(value)
  }

  predicate ConsistentAmount(o: Offer, version: Version) {
    && Lookup(o, AmountKey(version)).Some? && Lookup(o, AmountKey(version)).value.Str?
    && Lookup(o, OtherAmountKey(version)).None?
  }

  predicate UsableDepositPolicy(o: Offer, policy: Policy) {
    Has(o, "scheme", Str("batch-settlement")) && policy.batchSettlement.Some?
        && policy.batchSettlement.value.Some? ==>
      policy.batchSettlement.value.value.Whole? && policy.batchSettlement.value.value.n >= 3
  }

  predicate WithinBudget(o: Offer, version: Version, policy: Policy, world: World) {
    policy.maxAmount.None? ||
    (&& Lookup(o, AmountKey(version)).Some? && Lookup(o, AmountKey(version)).value.Str?
     && var amount := world.bigInt(Lookup(o, AmountKey(version)).value.s);
        amount.Some? && amount.value <= policy.maxAmount.value)
  }

  predicate Affordable(o: Offer, version: Version, policy: Policy, world: World) {
    ConsistentAmount(o, version) && UsableDepositPolicy(o, policy) && WithinBudget(o, version, policy, world)
  }

  function AffordableOf(offers: seq<Offer>, version: Version, policy: Policy, world: World): seq<Offer> {
    if offers == [] then []
    else
      AffordableOf(offers[..|offers| - 1], version, policy, world)
      + (if Affordable(offers[|offers| - 1], version, policy, world) then [offers[|offers| - 1]] else [])
  }

  /** What the caller's selector returns after doing anything to the copies it was handed:
      nothing, one of those very objects (whatever it now holds), or some other value. */
  datatype Choice = Nothing | Copy(index: nat) | Other(value: Json)

  /** The last affordable offer with this text: later entries of a `Map` replace earlier. */
  function ByFingerprint(affordable: seq<Offer>, fingerprint: string): Option<Offer> {
    if affordable == [] then None
    else if Canonical(Obj(affordable[|affordable| - 1])) == Some(fingerprint) then Some(affordable[|affordable| - 1])
    else ByFingerprint(affordable[..|affordable| - 1], fingerprint)
  }

  function Chosen(affordable: seq<Offer>, choice: Choice): Option<Offer> {
    match choice
    case Nothing => None
    case Copy(index) => if index < |affordable| then Some(affordable[index]) else None
    case Other(value) =>
      if Canonical(value).None? then None else ByFingerprint(affordable, Canonical(value).value)
  }

  function FindOffer(offers: seq<Offer>, scheme: string, network: Json -> bool): Option<Offer> {
    if offers == [] then None
    else if Has(offers[0], "scheme", Str(scheme)) && network(if Lookup(offers[0], "network").Some?
        then Lookup(offers[0], "network").value else Undefined)
    then Some(offers[0])
    else FindOffer(offers[1..], scheme, network)
  }

  function DefaultSelect(offers: seq<Offer>, policy: Policy, world: World): Option<Offer> {
    var exact := FindOffer(offers, "exact", world.isEvm);
    var upto := FindOffer(offers, "upto", world.isCaip2Evm);
    if exact.Some? then exact
    else if policy.allowUpto && upto.Some? then upto
    else if policy.allowBatchSettlement && policy.batchSettlement.Some?
        then FindOffer(offers, "batch-settlement", world.isCaip2Evm)
    else None
  }

  method FilterAffordable(offers: seq<Offer>, version: Version, policy: Policy, world: World)
      returns (affordable: seq<Offer>)
    ensures affordable == AffordableOf(offers, version, policy, world)
  {
    affordable := [];
    for i := 0 to |offers|
      invariant affordable == AffordableOf(offers[..i], version, policy, world)
    {
      assert offers[..i + 1][..i] == offers[..i];
      if Affordable(offers[i], version, policy, world) {
        affordable := affordable + [offers[i]];
      }
    }
    assert offers[..|offers|] == offers;
  }

  /** The map from texts to pristine snapshots, filled before the selector runs. */
  method Fingerprints(affordable: seq<Offer>) returns (snapshots: map<string, Offer>)
    ensures forall f :: (if f in snapshots then Some(snapshots[f]) else None) == ByFingerprint(affordable, f)
  {
    snapshots := map[];
    for i := 0 to |affordable|
      invariant forall f :: (if f in snapshots then Some(snapshots[f]) else None) == ByFingerprint(affordable[..i], f)
    {
      assert affordable[..i + 1][..i] == affordable[..i];
      var fingerprint := Canonical(Obj(affordable[i]));
      if fingerprint.Some? {
        snapshots := snapshots[fingerprint.value := affordable[i]];
      }
    }
    assert affordable[..|affordable|] == affordable;
  }

  /** `_signX402`'s selection; `selector` is `None` when the caller configured none. */
  method SelectRequirement(offers: seq<Offer>, version: Version, policy: Policy, world: World,
      selector: Option<Choice>)
      returns (selected: Option<Offer>)
    ensures selected ==
              if selector.None? then DefaultSelect(AffordableOf(offers, version, policy, world), policy, world)
              else Chosen(AffordableOf(offers, version, policy, world), selector.value)
  {
    var affordable := FilterAffordable(offers, version, policy, world);
    if selector.None? {
      return DefaultSelect(affordable, policy, world);
    }
    var snapshots := Fingerprints(affordable);
    match selector.value
    case Nothing => selected := None;
    case Copy(index) => selected := if index < |affordable| then Some(affordable[index]) else None;
    case Other(value) =>
      var fingerprint := Canonical(value);
      selected := if fingerprint.Some? && fingerprint.value in snapshots then Some(snapshots[fingerprint.value])
          else None;
  }

  // ---- The caller's policy, key by key --------------------------------------------------------

  /** The offer names `text` as its amount under its version's key, and the other version's
      key is absent. */
  ghost predicate Names(o: Offer, version: Version, text: string) {
    match version
    case V1 => Lookup(o, "maxAmountRequired") == Some(Str(text)) && Lookup(o, "amount").None?
    case V2 => Lookup(o, "amount") == Some(Str(text)) && Lookup(o, "maxAmountRequired").None?
  }

  /** At most the cap; an amount that cannot be read never is. */
  predicate WithinCap(text: string, policy: Policy, world: World) {
    policy.maxAmount.Some? ==> world.bigInt(text).Some? && world.bigInt(text).value <= policy.maxAmount.value
  }

  /** What the caller consented to: no amount above the cap, and no batch settlement whose
      configured deposit multiplier the scheme refuses. */
  ghost predicate WithinPolicy(o: Offer, version: Version, policy: Policy, world: World) {
    && (exists text: string :: Names(o, version, text) && WithinCap(text, policy, world))
    && (Lookup(o, "scheme") == Some(Str("batch-settlement")) ==>
          match policy.batchSettlement
          case Some(Some(Whole(n))) => n >= 3
          case Some(Some(Fractional)) => false
          case _ => true)
  }

  lemma AffordableIsWithinPolicy(o: Offer, version: Version, policy: Policy, world: World)
    ensures Affordable(o, version, policy, world) <==> WithinPolicy(o, version, policy, world)
  {
    if ConsistentAmount(o, version) {
      var text := Lookup(o, AmountKey(version)).value.s;
      assert Names(o, version, text);
      assert WithinBudget(o, version, policy, world) <==> WithinCap(text, policy, world);
      forall other | Names(o, version, other) ensures other == text {
      }
    }
  }

  // ---- What can be signed -------------------------------------------------------------------

  lemma {:induction false} AffordableMembers(offers: seq<Offer>, version: Version, policy: Policy, world: World)
    ensures forall o :: o in AffordableOf(offers, version, policy, world) <==>
        o in offers && WithinPolicy(o, version, policy, world)
  {
    if offers != [] {
      AffordableIsWithinPolicy(offers[|offers| - 1], version, policy, world);
      AffordableMembers(offers[..|offers| - 1], version, policy, world);
      assert offers == offers[..|offers| - 1] + [offers[|offers| - 1]];
    }
  }

  lemma {:induction false} ByFingerprintFinds(affordable: seq<Offer>, value: Json)
    requires Real(value) && IsJson(value) && forall o | o in affordable :: Real(Obj(o))
    ensures var r := ByFingerprint(affordable, Canonical(value).value);
            && (r.Some? ==> r.value in affordable && Same(Obj(r.value), value))
            && (r.None? ==> forall o | o in affordable :: !Same(Obj(o), value))
  {
    if affordable != [] {
      var last := affordable[|affordable| - 1];
      ByFingerprintFinds(affordable[..|affordable| - 1], value);
      assert affordable == affordable[..|affordable| - 1] + [last];
      if IsJson(Obj(last)) {
        CanonicalIsInjective(Obj(last), value);
      } else if Same(Obj(last), value) {
        SameIsCanonical(Obj(last), value);
      }
    }
  }

  /** Whatever the selector permutes, mutates or returns, what is signed is a pristine
      offer of the merchant's within the caller's policy. */
  lemma OnlyAffordableIsSigned(offers: seq<Offer>, version: Version, policy: Policy, world: World, choice: Choice)
    requires forall o | o in offers :: Real(Obj(o))
    requires choice.Other? ==> Real(choice.value)
    ensures var r := Chosen(AffordableOf(offers, version, policy, world), choice);
            r.Some? ==> r.value in offers && WithinPolicy(r.value, version, policy, world)
  {
    AffordableMembers(offers, version, policy, world);
    var affordable := AffordableOf(offers, version, policy, world);
    if choice.Other? && IsJson(choice.value) {
      ByFingerprintFinds(affordable, choice.value);
    }
  }

  /** Every offer within the policy can be: the selector is handed a copy of it, and
      returning that very copy, whatever it now holds, signs the pristine one. */
  lemma EveryPayableOfferIsSelectable(offers: seq<Offer>, version: Version, policy: Policy, world: World, o: Offer)
    requires o in offers && WithinPolicy(o, version, policy, world)
    ensures exists index: nat :: Chosen(AffordableOf(offers, version, policy, world), Copy(index)) == Some(o)
  {
    AffordableMembers(offers, version, policy, world);
    var affordable := AffordableOf(offers, version, policy, world);
    var index :| 0 <= index < |affordable| && affordable[index] == o;
    assert Chosen(affordable, Copy(index)) == Some(o);
  }

  /** A returned copy selects the affordable offer it equals, up to key order, and no
      other; it selects nothing exactly when it equals none. */
  lemma CopySelectsItsOffer(offers: seq<Offer>, version: Version, policy: Policy, world: World, value: Json)
    requires Real(value) && forall o | o in offers :: Real(Obj(o))
    ensures var r := Chosen(AffordableOf(offers, version, policy, world), Other(value));
            && (r.Some? ==> Same(Obj(r.value), value))
            && (r.Some? <==>
                  && IsJson(value)
                  && exists o :: o in offers && WithinPolicy(o, version, policy, world) && Same(Obj(o), value))
  {
    AffordableMembers(offers, version, policy, world);
    var affordable := AffordableOf(offers, version, policy, world);
    if IsJson(value) {
      ByFingerprintFinds(affordable, value);
    }
  }

  function NetworkOf(o: Offer): Json {
    if Lookup(o, "network").Some? then Lookup(o, "network").value else Undefined
  }

  /** The offer is of this scheme, on a network of this kind. */
  predicate Usable(o: Offer, scheme: string, network: Json -> bool) {
    Lookup(o, "scheme") == Some(Str(scheme)) && network(NetworkOf(o))
  }

  /** The first offer that fits, if any does. */
  ghost predicate IsFirst(offers: seq<Offer>, fits: Offer -> bool, r: Option<Offer>) {
    match r
    case Some(o) =>
      exists i :: 0 <= i < |offers| && offers[i] == o && fits(o) && forall j | 0 <= j < i :: !fits(offers[j])
    case None => forall j | 0 <= j < |offers| :: !fits(offers[j])
  }

  lemma FirstGrows(front: seq<Offer>, last: Offer, fits: Offer -> bool, r: Option<Offer>)
    requires IsFirst(front, fits, r)
    ensures IsFirst(front + [last], fits, if r.Some? then r else if fits(last) then Some(last) else None)
  {
    var offers := front + [last];
    if r.Some? {
      var i :| 0 <= i < |front| && front[i] == r.value && fits(r.value) && forall j | 0 <= j < i :: !fits(front[j]);
      assert offers[i] == r.value && forall j | 0 <= j < i :: offers[j] == front[j];
    } else {
      assert offers[|front|] == last && forall j | 0 <= j < |front| :: offers[j] == front[j];
    }
  }

  /** Usable and within the policy. */
  ghost function Fitting(version: Version, policy: Policy, world: World, scheme: string,
      network: Json -> bool): Offer -> bool {
    o => Usable(o, scheme, network) && WithinPolicy(o, version, policy, world)
  }

  lemma {:induction false} FindOfferConcat(a: seq<Offer>, b: seq<Offer>, scheme: string, network: Json -> bool)
    ensures FindOffer(a + b, scheme, network)
            == if FindOffer(a, scheme, network).Some? then FindOffer(a, scheme, network)
               else FindOffer(b, scheme, network)
  {
    if a == [] {
      assert a + b == b;
    } else {
      assert (a + b)[1..] == a[1..] + b;
      FindOfferConcat(a[1..], b, scheme, network);
    }
  }

  lemma {:induction false} FindOfferFacts(offers: seq<Offer>, version: Version, policy: Policy, world: World,
      scheme: string, network: Json -> bool)
    ensures IsFirst(offers, Fitting(version, policy, world, scheme, network),
                FindOffer(AffordableOf(offers, version, policy, world), scheme, network))
  {
    if offers != [] {
      var n := |offers| - 1;
      var front, last := offers[..n], offers[n];
      var found := FindOffer(AffordableOf(front, version, policy, world), scheme, network);
      FindOfferFacts(front, version, policy, world, scheme, network);
      AffordableIsWithinPolicy(last, version, policy, world);
      assert FindOffer([last], scheme, network) == if Usable(last, scheme, network) then Some(last) else None;
      FindOfferConcat(AffordableOf(front, version, policy, world),
          if Affordable(last, version, policy, world) then [last] else [], scheme, network);
      FirstGrows(front, last, Fitting(version, policy, world, scheme, network), found);
      assert offers == front + [last];
    }
  }

  /** Without a selector the client signs the first `exact` offer that is usable and within
      the policy; without one, the first `upto` offer if the caller opted in; then likewise
      `batch-settlement`, which must also be configured; and otherwise nothing. */
  lemma DefaultNeedsConsent(offers: seq<Offer>, version: Version, policy: Policy, world: World)
    ensures var r := DefaultSelect(AffordableOf(offers, version, policy, world), policy, world);
            var exact := Fitting(version, policy, world, "exact", world.isEvm);
            var upto := Fitting(version, policy, world, "upto", world.isCaip2Evm);
            var batch := Fitting(version, policy, world, "batch-settlement", world.isCaip2Evm);
            if !IsFirst(offers, exact, None) then r.Some? && IsFirst(offers, exact, r)
            else if policy.allowUpto && !IsFirst(offers, upto, None) then r.Some? && IsFirst(offers, upto, r)
            else if policy.allowBatchSettlement && policy.batchSettlement.Some? then IsFirst(offers, batch, r)
            else r == None
  {
    FindOfferFacts(offers, version, policy, world, "exact", world.isEvm);
    FindOfferFacts(offers, version, policy, world, "upto", world.isCaip2Evm);
    FindOfferFacts(offers, version, policy, world, "batch-settlement", world.isCaip2Evm);
  }
}
