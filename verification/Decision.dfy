/** The decision engine: price every candidate action, choose the viable one of highest
    incremental value, and sketch the steps that follow if it does not recover the money. */
module Decision {
  import opened Domain
  import opened Rows
  import opened Policy

  const FRICTION_FLOOR := 1_500
  const FRICTION_LTV_RATE := 0.0022
  const DEGRADATION_PENALTY := 2_500

  /** The gate a decision is priced against: none at all, or a policy in one situation. */
  datatype ActionGate =
    | OpenGate
    | PolicyGate(spec: PolicySpec, event: Event, customer: Customer, budget: BudgetState,
                 degraded: bool, now: Time)

  function AskGate(gate: ActionGate, action: ActionType, discountPct: real): GateVerdict {
    match gate
    case OpenGate => GateVerdict(Allow, [])
    case PolicyGate(spec, event, customer, budget, degraded, now) =>
      Gate(spec, Ask(action, event, customer, budget, discountPct, degraded, now))
  }

  datatype Inputs = Inputs(
    event: Event,
    customer: Customer,
    organic: real,
    perAction: map<ActionType, real>,
    contactsUsed: int,
    contactBudget: int,
    degraded: bool,
    minConfidence: real,
    minExpectedValue: int,
    maxDiscountPct: real,
    learned: map<ActionType, real>)

  datatype ActionOption = ActionOption(
    action: ActionType,
    probability: real,
    uplift: real,
    expectedRecovery: int,
    expectedValue: int,
    cost: int,
    discountCost: int,
    frictionCost: int,
    systemicPenalty: int,
    discountPct: real,
    verdict: Verdict,
    reasons: seq<PolicyRule>)

  datatype PlanStep = PlanStep(action: ActionType, delayMinutes: nat)

  datatype Outcome = Outcome(chosen: ActionOption, options: seq<ActionOption>, plan: seq<PlanStep>)

  // ----------------------------------------------------------------------- pricing

  function FrictionCost(ltv: nat, contactsUsed: int, friction: real): int {
    var relationship := FRICTION_FLOOR as real + FRICTION_LTV_RATE * ltv as real;
    Truncate(friction * relationship * (1.0 + 0.55 * contactsUsed as real))
  }

  function DiscountPct(amount: nat, cap: real, action: ActionType): real {
    if action != Discount then 0.0
    else
      var offer := Catalog(action).discountPct;
      MinReal(if amount >= 100_000 then offer else offer * 0.6, cap)
  }

  function Probability(organic: real, perAction: map<ActionType, real>, learned: map<ActionType, real>,
                       action: ActionType): real
  {
    var model := if action in perAction then perAction[action] else organic;
    if action in learned then 0.65 * model + 0.35 * learned[action] else model
  }

  /** What an action is worth, before the gate is asked. */
  function Appraise(action: ActionType, amount: nat, organic: real, probability: real, discountPct: real,
                    friction: int, degraded: bool): ActionOption
  {
    var uplift := if action == DoNothing then 0.0 else MaxReal(probability - organic, 0.0);
    var cost := Catalog(action).cost;
    var discountCost := Truncate(amount as real * discountPct / 100.0 * probability);
    var penalty := if degraded && action == RetryPayment then DEGRADATION_PENALTY else 0;
    var value := Truncate(uplift * amount as real - (cost + discountCost + friction + penalty) as real);
    ActionOption(action, probability, uplift, Truncate(probability * amount as real),
                 if action == DoNothing then 0 else value,
                 cost, discountCost, friction, penalty, discountPct, Allow, [])
  }

  function Offer(inputs: Inputs, action: ActionType): real {
    DiscountPct(inputs.event.amount, inputs.maxDiscountPct, action)
  }

  function Worth(inputs: Inputs, action: ActionType): ActionOption {
    Appraise(action, inputs.event.amount, inputs.organic,
             Probability(inputs.organic, inputs.perAction, inputs.learned, action),
             Offer(inputs, action),
             if action == DoNothing then 0
             else FrictionCost(inputs.customer.ltv, inputs.contactsUsed, Catalog(action).friction),
             inputs.degraded)
  }

  function WithVerdict(o: ActionOption, v: GateVerdict): ActionOption {
    o.(verdict := v.verdict, reasons := v.reasons)
  }

  function Price(inputs: Inputs, action: ActionType, gate: ActionGate): ActionOption {
    WithVerdict(Worth(inputs, action), AskGate(gate, action, Offer(inputs, action)))
  }

  function PriceAll(inputs: Inputs, actions: seq<ActionType>, gate: ActionGate): (options: seq<ActionOption>)
    ensures |options| == |actions|
    ensures forall i :: 0 <= i < |actions| ==> options[i] == Price(inputs, actions[i], gate)
  {
    seq(|actions|, i requires 0 <= i < |actions| => Price(inputs, actions[i], gate))
  }

  // ----------------------------------------------------------------------- ranking

  predicate Ranked(s: seq<ActionOption>) {
    forall i, j :: 0 <= i < j < |s| ==> s[i].expectedValue >= s[j].expectedValue
  }

  /** Place x before the first option that is worth no more, so equal values keep their order. */
  function Insert(x: ActionOption, s: seq<ActionOption>): seq<ActionOption> {
    if s == [] || s[0].expectedValue <= x.expectedValue then [x] + s
    else [s[0]] + Insert(x, s[1..])
  }

  /** Stable descending sort on expected value. */
  function Rank(s: seq<ActionOption>): seq<ActionOption> {
    if s == [] then [] else Insert(s[0], Rank(s[1..]))
  }

  lemma {:induction false} InsertPermutes(x: ActionOption, s: seq<ActionOption>)
    ensures multiset(Insert(x, s)) == multiset{x} + multiset(s)
  {
    if s != [] && s[0].expectedValue > x.expectedValue {
      InsertPermutes(x, s[1..]);
      assert s == [s[0]] + s[1..];
    }
  }

  lemma InsertedIs(x: ActionOption, s: seq<ActionOption>, o: ActionOption)
    requires o in Insert(x, s)
    ensures o == x || o in s
  {
    InsertPermutes(x, s);
    assert o in multiset(Insert(x, s));
  }

  lemma {:induction false} InsertRanks(x: ActionOption, s: seq<ActionOption>)
    requires Ranked(s)
    ensures Ranked(Insert(x, s))
  {
    if s != [] && s[0].expectedValue > x.expectedValue {
      InsertRanks(x, s[1..]);
      var t := Insert(x, s[1..]);
      forall i | 0 <= i < |t| ensures t[i].expectedValue <= s[0].expectedValue { InsertedIs(x, s[1..], t[i]); }
    }
  }

  /** Ranking is a permutation into non-increasing expected value. */
  lemma {:induction false} RankSorts(s: seq<ActionOption>)
    ensures Ranked(Rank(s))
    ensures multiset(Rank(s)) == multiset(s)
  {
    if s != [] {
      RankSorts(s[1..]);
      InsertRanks(s[0], Rank(s[1..]));
      InsertPermutes(s[0], Rank(s[1..]));
      assert s == [s[0]] + s[1..];
    }
  }

  lemma RankMembers(s: seq<ActionOption>)
    ensures forall o :: o in Rank(s) <==> o in s
    ensures |Rank(s)| == |s|
  {
    RankSorts(s);
    assert forall o :: o in Rank(s) <==> o in multiset(Rank(s));
    assert forall o :: o in s <==> o in multiset(s);
    assert |multiset(Rank(s))| == |Rank(s)| && |multiset(s)| == |s|;
  }

  // ---------------------------------------------------------------------- choosing

  predicate Allowed(o: ActionOption) { o.verdict != Block }

  predicate Viable(o: ActionOption, minValue: int, minConfidence: real) {
    Allowed(o) && o.action != DoNothing && o.expectedValue >= minValue && o.probability >= minConfidence
  }

  function FirstViable(s: seq<ActionOption>, minValue: int, minConfidence: real): Option<ActionOption> {
    if s == [] then None
    else if Viable(s[0], minValue, minConfidence) then Some(s[0])
    else FirstViable(s[1..], minValue, minConfidence)
  }

  function FindAction(s: seq<ActionOption>, action: ActionType): Option<ActionOption> {
    if s == [] then None
    else if s[0].action == action then Some(s[0])
    else FindAction(s[1..], action)
  }

  function Choose(inputs: Inputs, ranked: seq<ActionOption>, idle: ActionOption): ActionOption {
    match FirstViable(ranked, inputs.minExpectedValue, inputs.minConfidence)
    case Some(best) => best
    case None => idle
  }

  function Options(inputs: Inputs, gate: ActionGate): seq<ActionOption> {
    PriceAll(inputs, AllowedActions(inputs.event.kind), gate)
  }

  function Decide(inputs: Inputs, gate: ActionGate): Outcome {
    var ranked := Rank(Options(inputs, gate));
    var chosen := Choose(inputs, ranked, Price(inputs, DoNothing, gate));
    Outcome(chosen, ranked, Plan(inputs, chosen, ranked))
  }

  /** Among the viable options, the most valuable one; among equals, the one listed first.
      Written over the unsorted list, without any ranking. */
  function Best(s: seq<ActionOption>, minValue: int, minConfidence: real): Option<ActionOption> {
    if s == [] then None
    else
      var rest := Best(s[1..], minValue, minConfidence);
      if Viable(s[0], minValue, minConfidence)
         && (rest.None? || s[0].expectedValue >= rest.value.expectedValue)
      then Some(s[0]) else rest
  }

  lemma {:induction false} FirstViableBelow(s: seq<ActionOption>, bound: int, minValue: int, minConfidence: real)
    requires forall i :: 0 <= i < |s| ==> s[i].expectedValue <= bound
    ensures FirstViable(s, minValue, minConfidence).Some? ==>
              FirstViable(s, minValue, minConfidence).value.expectedValue <= bound
  {
    if s != [] { FirstViableBelow(s[1..], bound, minValue, minConfidence); }
  }

  lemma {:induction false} FirstViableInsert(x: ActionOption, s: seq<ActionOption>, minValue: int, minConfidence: real)
    requires Ranked(s)
    ensures var rest := FirstViable(s, minValue, minConfidence);
            FirstViable(Insert(x, s), minValue, minConfidence) ==
            if Viable(x, minValue, minConfidence)
               && (rest.None? || x.expectedValue >= rest.value.expectedValue)
            then Some(x) else rest
  {
    if s == [] || s[0].expectedValue <= x.expectedValue {
      assert ([x] + s)[1..] == s;
      FirstViableBelow(s, x.expectedValue, minValue, minConfidence);
    } else {
      FirstViableInsert(x, s[1..], minValue, minConfidence);
      assert ([s[0]] + Insert(x, s[1..]))[1..] == Insert(x, s[1..]);
    }
  }

  /** Sorting and then taking the first viable option finds the best one in catalog order. */
  lemma {:induction false} FirstOfRankedIsBest(s: seq<ActionOption>, minValue: int, minConfidence: real)
    ensures FirstViable(Rank(s), minValue, minConfidence) == Best(s, minValue, minConfidence)
  {
    if s != [] {
      FirstOfRankedIsBest(s[1..], minValue, minConfidence);
      RankSorts(s[1..]);
      FirstViableInsert(s[0], Rank(s[1..]), minValue, minConfidence);
    }
  }

  /** b sits at position i, is viable, beats every viable option before it and is worth at
      least every viable option after it. */
  predicate IsBestAt(s: seq<ActionOption>, i: nat, b: ActionOption, minValue: int, minConfidence: real) {
    && i < |s| && s[i] == b && Viable(b, minValue, minConfidence)
    && (forall k :: 0 <= k < |s| && Viable(s[k], minValue, minConfidence) ==>
          if k < i then s[k].expectedValue < b.expectedValue else s[k].expectedValue <= b.expectedValue)
  }

  lemma {:induction false} BestIsBest(s: seq<ActionOption>, minValue: int, minConfidence: real)
    returns (i: nat)
    ensures var b := Best(s, minValue, minConfidence);
            if b.Some? then IsBestAt(s, i, b.value, minValue, minConfidence)
            else forall k :: 0 <= k < |s| ==> !Viable(s[k], minValue, minConfidence)
  {
    i := 0;
    if s != [] {
      var rest := Best(s[1..], minValue, minConfidence);
      var j := BestIsBest(s[1..], minValue, minConfidence);
      assert forall k :: 1 <= k < |s| ==> s[k] == s[1..][k - 1];
      if Best(s, minValue, minConfidence) != Some(s[0]) || !Viable(s[0], minValue, minConfidence)
         || (rest.Some? && s[0].expectedValue < rest.value.expectedValue) {
        i := j + 1;
      }
    }
  }

  /** The chosen action is a viable option of maximal expected value, the first such one in
      catalog order; the engine does nothing exactly when no option is viable. */
  lemma DecideIsOptimal(inputs: Inputs, gate: ActionGate)
    ensures var options := Options(inputs, gate);
            var chosen := Decide(inputs, gate).chosen;
            if chosen.action == DoNothing
            then (forall o :: o in options ==> !Viable(o, inputs.minExpectedValue, inputs.minConfidence))
                 && chosen.expectedValue == 0
            else exists i :: IsBestAt(options, i, chosen, inputs.minExpectedValue, inputs.minConfidence)
  {
    var options := Options(inputs, gate);
    FirstOfRankedIsBest(options, inputs.minExpectedValue, inputs.minConfidence);
    var i := BestIsBest(options, inputs.minExpectedValue, inputs.minConfidence);
  }

  // -------------------------------------------------------------- what an action is worth

  lemma TruncateBelow(x: real)
    ensures x >= 0.0 ==> 0 <= Truncate(x) && Truncate(x) as real <= x
    ensures x < 0.0 ==> Truncate(x) <= 0 && x <= Truncate(x) as real
  {
  }

  /** Everything an action costs: the action itself, the discount if it works, the wear on the
      relationship, and the load on a degraded route. */
  function Outlay(o: ActionOption): int {
    o.cost + o.discountCost + o.frictionCost + o.systemicPenalty
  }

  lemma TruncatedCovers(gain: real, outlay: int, value: int)
    requires value == Truncate(gain - outlay as real) && value > 0
    ensures gain >= (outlay + value) as real
  {
    TruncateBelow(gain - outlay as real);
  }

  lemma AppraisedCovers(action: ActionType, amount: nat, organic: real, probability: real, discountPct: real,
                        friction: int, degraded: bool)
    requires Appraise(action, amount, organic, probability, discountPct, friction, degraded).expectedValue > 0
    ensures var o := Appraise(action, amount, organic, probability, discountPct, friction, degraded);
            && action != DoNothing
            && o.uplift * amount as real >= (Outlay(o) + o.expectedValue) as real
            && o.cost == Catalog(action).cost
            && (o.systemicPenalty > 0 <==> degraded && action == RetryPayment)
  {
    var o := Appraise(action, amount, organic, probability, discountPct, friction, degraded);
    TruncatedCovers(o.uplift * amount as real, Outlay(o), o.expectedValue);
  }

  /** An action that is worth something recovers more than would have come anyway, and what it adds
      covers all its costs and its value on top. */
  lemma WorthCoversOutlay(inputs: Inputs, action: ActionType)
    requires Worth(inputs, action).expectedValue > 0
    ensures var o := Worth(inputs, action);
            && action != DoNothing
            && o.uplift * inputs.event.amount as real >= (Outlay(o) + o.expectedValue) as real
            && o.cost == Catalog(action).cost
            && (o.systemicPenalty > 0 <==> inputs.degraded && action == RetryPayment)
  {
    AppraisedCovers(action, inputs.event.amount, inputs.organic,
                    Probability(inputs.organic, inputs.perAction, inputs.learned, action), Offer(inputs, action),
                    if action == DoNothing then 0
                    else FrictionCost(inputs.customer.ltv, inputs.contactsUsed, Catalog(action).friction),
                    inputs.degraded);
  }

  lemma NothingGainedByWaiting(x: real, y: real)
    requires x * y > 0.0 && x >= 0.0 && y >= 0.0
    ensures x > 0.0
  {
  }

  /** What the option is expected to add covers its costs and the floor, and it is more likely to
      recover the money than doing nothing. */
  predicate PaysForItself(o: ActionOption, amount: nat, floor: int, organic: real) {
    && o.uplift * amount as real >= (Outlay(o) + floor) as real
    && (Outlay(o) >= 0 ==> o.probability > organic)
  }

  lemma WorthIsUplift(inputs: Inputs, action: ActionType)
    requires Worth(inputs, action).uplift > 0.0
    ensures Worth(inputs, action).probability > inputs.organic
  {
  }

  lemma PricedIsWorth(inputs: Inputs, gate: ActionGate, action: ActionType)
    ensures var o, w := Price(inputs, action, gate), Worth(inputs, action);
            && o.expectedValue == w.expectedValue && o.uplift == w.uplift && o.probability == w.probability
            && Outlay(o) == Outlay(w)
  {
  }

  lemma UpliftNotNegative(inputs: Inputs, action: ActionType)
    ensures Worth(inputs, action).uplift >= 0.0
  {
  }

  /** What an option adds covers its costs and its value on top. */
  predicate Covers(o: ActionOption, amount: nat, organic: real) {
    && o.uplift * amount as real >= (Outlay(o) + o.expectedValue) as real
    && o.uplift >= 0.0 && (o.uplift > 0.0 ==> o.probability > organic)
  }

  lemma CoveringPays(o: ActionOption, amount: nat, floor: int, organic: real)
    requires Covers(o, amount, organic) && o.expectedValue >= floor > 0
    ensures PaysForItself(o, amount, floor, organic)
  {
    if Outlay(o) >= 0 { NothingGainedByWaiting(o.uplift, amount as real); }
  }

  lemma WorthCovers(inputs: Inputs, action: ActionType)
    requires Worth(inputs, action).expectedValue > 0
    ensures Covers(Worth(inputs, action), inputs.event.amount, inputs.organic)
  {
    WorthCoversOutlay(inputs, action);
    UpliftNotNegative(inputs, action);
    if Worth(inputs, action).uplift > 0.0 { WorthIsUplift(inputs, action); }
  }

  lemma SameCover(o: ActionOption, w: ActionOption, amount: nat, organic: real)
    requires Covers(w, amount, organic) && o.expectedValue == w.expectedValue && o.uplift == w.uplift
    requires o.probability == w.probability && Outlay(o) == Outlay(w)
    ensures Covers(o, amount, organic)
  {
  }

  lemma PricedPaysForItself(inputs: Inputs, gate: ActionGate, action: ActionType, o: ActionOption)
    requires o == Price(inputs, action, gate) && o.expectedValue >= inputs.minExpectedValue > 0
    ensures PaysForItself(o, inputs.event.amount, inputs.minExpectedValue, inputs.organic)
  {
    PricedIsWorth(inputs, gate, action);
    WorthCovers(inputs, action);
    SameCover(o, Worth(inputs, action), inputs.event.amount, inputs.organic);
    CoveringPays(o, inputs.event.amount, inputs.minExpectedValue, inputs.organic);
  }

  lemma ChosenIsPriced(inputs: Inputs, gate: ActionGate) returns (action: ActionType)
    requires Decide(inputs, gate).chosen.action != DoNothing
    ensures Decide(inputs, gate).chosen == Price(inputs, action, gate)
    ensures Viable(Decide(inputs, gate).chosen, inputs.minExpectedValue, inputs.minConfidence)
  {
    DecideIsOptimal(inputs, gate);
    var chosen := Decide(inputs, gate).chosen;
    var i: nat :| IsBestAt(Options(inputs, gate), i, chosen, inputs.minExpectedValue, inputs.minConfidence);
    action := AllowedActions(inputs.event.kind)[i];
  }

  /** With a positive floor the chosen action pays for itself. */
  lemma ChosenPaysForItself(inputs: Inputs, gate: ActionGate)
    requires inputs.minExpectedValue > 0
    ensures var chosen := Decide(inputs, gate).chosen;
            chosen.action != DoNothing ==>
              PaysForItself(chosen, inputs.event.amount, inputs.minExpectedValue, inputs.organic)
  {
    if Decide(inputs, gate).chosen.action != DoNothing {
      var action := ChosenIsPriced(inputs, gate);
      PricedPaysForItself(inputs, gate, action, Decide(inputs, gate).chosen);
    }
  }

  lemma ProductGrows(a: real, b: real, c: real, d: real)
    requires 0.0 <= a <= b && 0.0 <= c <= d
    ensures 0.0 <= a * c <= b * d
  {
    assert a * c <= b * c;
    assert b * c <= b * d;
  }

  lemma WearGrows(friction: real, a: real, b: real, c: real, d: real)
    requires friction >= 0.0 && 0.0 <= a <= b && 0.0 <= c <= d
    ensures 0.0 <= friction * a * c <= friction * b * d
  {
    ProductGrows(friction, friction, a, b);
    ProductGrows(friction * a, friction * b, c, d);
  }

  lemma TruncatedWear(x: real, y: real)
    requires 0.0 <= x <= y
    ensures 0 <= Truncate(x) <= Truncate(y)
  {
  }

  /** Every further contact wears at least as much on the relationship, and so does a more valuable
      customer. */
  lemma FrictionGrows(ltv: nat, ltv': nat, contacts: nat, contacts': nat, friction: real)
    requires ltv <= ltv' && contacts <= contacts' && friction >= 0.0
    ensures 0 <= FrictionCost(ltv, contacts, friction) <= FrictionCost(ltv', contacts', friction)
  {
    var a := FRICTION_FLOOR as real + FRICTION_LTV_RATE * ltv as real;
    var b := FRICTION_FLOOR as real + FRICTION_LTV_RATE * ltv' as real;
    var c, d := 1.0 + 0.55 * contacts as real, 1.0 + 0.55 * contacts' as real;
    WearGrows(friction, a, b, c, d);
    TruncatedWear(friction * a * c, friction * b * d);
  }

  /** Only the discount action discounts, never beyond the merchant's cap, and less on small baskets. */
  lemma OfferWithinCap(amount: nat, cap: real, action: ActionType)
    requires cap >= 0.0
    ensures 0.0 <= DiscountPct(amount, cap, action) <= cap
    ensures DiscountPct(amount, cap, action) > 0.0 ==> action == Discount
    ensures forall more: nat :: amount <= more ==> DiscountPct(amount, cap, action) <= DiscountPct(more, cap, action)
  {
  }

  /** Options that differ at most in their verdict, and there never towards a stricter one. */
  predicate OnlyLooser(a: seq<ActionOption>, b: seq<ActionOption>) {
    && |a| == |b|
    && forall i :: 0 <= i < |a| ==>
         && b[i] == a[i].(verdict := b[i].verdict, reasons := b[i].reasons)
         && Strictness(b[i].verdict) <= Strictness(a[i].verdict)
  }

  lemma {:induction false} BestNeverDrops(a: seq<ActionOption>, b: seq<ActionOption>,
                       minValueA: int, minConfidenceA: real, minValueB: int, minConfidenceB: real)
    requires OnlyLooser(a, b)
    requires minValueB <= minValueA && minConfidenceB <= minConfidenceA
    ensures var x, y := Best(a, minValueA, minConfidenceA), Best(b, minValueB, minConfidenceB);
            x.Some? ==> y.Some? && x.value.expectedValue <= y.value.expectedValue
  {
    if a != [] {
      BestNeverDrops(a[1..], b[1..], minValueA, minConfidenceA, minValueB, minConfidenceB);
    }
  }

  lemma {:induction false} BestClearsFloor(s: seq<ActionOption>, minValue: int, minConfidence: real)
    ensures var x := Best(s, minValue, minConfidence);
            x.Some? ==> Viable(x.value, minValue, minConfidence)
  {
    if s != [] { BestClearsFloor(s[1..], minValue, minConfidence); }
  }

  function PolicyInputs(base: Inputs, spec: PolicySpec): Inputs {
    base.(contactBudget := spec.maxContacts,
          minConfidence := spec.minConfidence,
          minExpectedValue := spec.minExpectedValue,
          maxDiscountPct := spec.maxDiscountPct)
  }

  /** Relaxing a policy (at an unchanged discount cap, with floors no higher and not negative)
      never lowers the value of what the engine chooses. */
  lemma ChoiceIsMonotone(base: Inputs, a: PolicySpec, b: PolicySpec,
                         budget: BudgetState, now: Time)
    requires AsPermissive(a, b)
    requires a.maxDiscountPct == b.maxDiscountPct
    requires b.minConfidence <= a.minConfidence
    requires 0 <= b.minExpectedValue <= a.minExpectedValue
    ensures var gateA := PolicyGate(a, base.event, base.customer, budget, base.degraded, now);
            var gateB := PolicyGate(b, base.event, base.customer, budget, base.degraded, now);
            Decide(PolicyInputs(base, a), gateA).chosen.expectedValue
            <= Decide(PolicyInputs(base, b), gateB).chosen.expectedValue
  {
    var gateA := PolicyGate(a, base.event, base.customer, budget, base.degraded, now);
    var gateB := PolicyGate(b, base.event, base.customer, budget, base.degraded, now);
    var inA, inB := PolicyInputs(base, a), PolicyInputs(base, b);
    var optionsA, optionsB := Options(inA, gateA), Options(inB, gateB);
    var actions := AllowedActions(base.event.kind);
    forall i | 0 <= i < |actions|
      ensures optionsB[i] == optionsA[i].(verdict := optionsB[i].verdict, reasons := optionsB[i].reasons)
      ensures Strictness(optionsB[i].verdict) <= Strictness(optionsA[i].verdict)
    {
      PriceIsLooser(base, a, b, budget, now, actions[i]);
    }
    FirstOfRankedIsBest(optionsA, a.minExpectedValue, a.minConfidence);
    FirstOfRankedIsBest(optionsB, b.minExpectedValue, b.minConfidence);
    BestNeverDrops(optionsA, optionsB, a.minExpectedValue, a.minConfidence, b.minExpectedValue, b.minConfidence);
    BestClearsFloor(optionsB, b.minExpectedValue, b.minConfidence);
  }

  lemma WorthIgnoresFloors(base: Inputs, a: PolicySpec, b: PolicySpec, action: ActionType)
    requires a.maxDiscountPct == b.maxDiscountPct
    ensures Worth(PolicyInputs(base, a), action) == Worth(PolicyInputs(base, b), action)
  {
  }

  lemma VerdictIsLooser(x: ActionOption, v: GateVerdict, w: GateVerdict)
    requires Strictness(w.verdict) <= Strictness(v.verdict)
    ensures var a, b := WithVerdict(x, v), WithVerdict(x, w);
            b == a.(verdict := b.verdict, reasons := b.reasons) && Strictness(b.verdict) <= Strictness(a.verdict)
  {
  }

  lemma PriceIsLooser(base: Inputs, a: PolicySpec, b: PolicySpec, budget: BudgetState, now: Time, action: ActionType)
    requires AsPermissive(a, b) && a.maxDiscountPct == b.maxDiscountPct
    ensures var x := Price(PolicyInputs(base, a), action,
                           PolicyGate(a, base.event, base.customer, budget, base.degraded, now));
            var y := Price(PolicyInputs(base, b), action,
                           PolicyGate(b, base.event, base.customer, budget, base.degraded, now));
            y == x.(verdict := y.verdict, reasons := y.reasons) && Strictness(y.verdict) <= Strictness(x.verdict)
  {
    WorthIgnoresFloors(base, a, b, action);
    var worth := Worth(PolicyInputs(base, a), action);
    var pct := Offer(PolicyInputs(base, a), action);
    assert Offer(PolicyInputs(base, b), action) == pct;
    RelaxingNeverTightens(a, b, Ask(action, base.event, base.customer, budget, pct, base.degraded, now));
    VerdictIsLooser(worth,
      AskGate(PolicyGate(a, base.event, base.customer, budget, base.degraded, now), action, pct),
      AskGate(PolicyGate(b, base.event, base.customer, budget, base.degraded, now), action, pct));
  }

  // ---------------------------------------------------------------------- planning

  predicate Skipped(o: ActionOption, used: set<ActionType>, remaining: int) {
    || o.action in used || o.action == DoNothing
    || !Allowed(o) || o.expectedValue <= 0
    || (Catalog(o.action).consumesContact && remaining <= 0)
  }

  function EscalationStep(action: ActionType): PlanStep {
    PlanStep(action, if Catalog(action).consumesContact then 360 else 60)
  }

  /** The steps picked from the ranked options, while there is room for more. */
  function Escalations(options: seq<ActionOption>, used: set<ActionType>, remaining: int, room: nat): seq<PlanStep> {
    if options == [] || room == 0 then []
    else if Skipped(options[0], used, remaining) then Escalations(options[1..], used, remaining, room)
    else
      var action := options[0].action;
      [EscalationStep(action)]
      + Escalations(options[1..], used + {action},
                    if Catalog(action).consumesContact then remaining - 1 else remaining, room - 1)
  }

  function FirstStep(inputs: Inputs, chosen: ActionOption): PlanStep {
    PlanStep(chosen.action,
             if chosen.action != RetryPayment then 0
             else if Transient(inputs.event.rootCause) then 25 else 45)
  }

  function Steps(inputs: Inputs, chosen: ActionOption, options: seq<ActionOption>): seq<PlanStep> {
    [FirstStep(inputs, chosen)]
    + Escalations(options, {chosen.action}, MaxInt(inputs.contactBudget - inputs.contactsUsed, 0), 2)
  }

  predicate Uses(steps: seq<PlanStep>, action: ActionType) {
    exists i :: 0 <= i < |steps| && steps[i].action == action
  }

  function Plan(inputs: Inputs, chosen: ActionOption, options: seq<ActionOption>): seq<PlanStep> {
    if chosen.action == DoNothing then []
    else
      var steps := Steps(inputs, chosen, options);
      if inputs.event.kind == OverdueInvoice && Uses(steps, Voice)
      then steps + [PlanStep(PromiseFollowup, 1440)] else steps
  }

  /** The loop that builds the plan, with the channels already used and the contacts left. */
  method BuildPlan(inputs: Inputs, chosen: ActionOption, options: seq<ActionOption>) returns (steps: seq<PlanStep>)
    ensures steps == Plan(inputs, chosen, options)
  {
    if chosen.action == DoNothing {
      return [];
    }
    steps := [FirstStep(inputs, chosen)];
    var used := {chosen.action};
    assert steps[0].action == chosen.action;
    var remaining := MaxInt(inputs.contactBudget - inputs.contactsUsed, 0);
    var i := 0;
    while i < |options| && |steps| < 3
      invariant 0 <= i <= |options|
      invariant 1 <= |steps| <= 3
      invariant forall a :: a in used <==> Uses(steps, a)
      invariant Steps(inputs, chosen, options) == steps + Escalations(options[i..], used, remaining, 3 - |steps|)
    {
      var option := options[i];
      assert options[i..][1..] == options[i + 1..];
      if !Skipped(option, used, remaining) {
        var step := EscalationStep(option.action);
        var longer := steps + [step];
        assert longer[|steps|] == step;
        assert forall a :: Uses(longer, a) <==> Uses(steps, a) || a == option.action by {
          assert forall k :: 0 <= k < |steps| ==> longer[k] == steps[k];
        }
        steps := longer;
        used := used + {option.action};
        if Catalog(option.action).consumesContact {
          remaining := remaining - 1;
        }
      }
      i := i + 1;
    }
    assert steps == Steps(inputs, chosen, options);
    if inputs.event.kind == OverdueInvoice && Voice in used {
      steps := steps + [PlanStep(PromiseFollowup, 1440)];
    }
  }

  predicate Distinct(steps: seq<PlanStep>) {
    forall i, j :: 0 <= i < j < |steps| ==> steps[i].action != steps[j].action
  }

  function ContactSteps(steps: seq<PlanStep>): nat {
    if steps == [] then 0
    else (if Catalog(steps[0].action).consumesContact then 1 else 0) + ContactSteps(steps[1..])
  }

  /** A step that the ranked options justify: allowed by the gate, worth something, not idle. */
  predicate Justified(step: PlanStep, options: seq<ActionOption>) {
    exists i :: 0 <= i < |options| && options[i].action == step.action
      && Allowed(options[i]) && options[i].expectedValue > 0 && step.action != DoNothing
  }

  lemma {:induction false} EscalationsSound(options: seq<ActionOption>, used: set<ActionType>, remaining: int, room: nat)
    ensures var steps := Escalations(options, used, remaining, room);
            && |steps| <= room
            && Distinct(steps)
            && (forall i :: 0 <= i < |steps| ==> steps[i].action !in used && Justified(steps[i], options))
            && ContactSteps(steps) <= MaxInt(remaining, 0)
  {
    if options != [] && room > 0 {
      var option := options[0];
      var skip := Skipped(option, used, remaining);
      var used' := if skip then used else used + {option.action};
      var left := if !skip && Catalog(option.action).consumesContact then remaining - 1 else remaining;
      var room' := if skip then room else room - 1;
      EscalationsSound(options[1..], used', left, room');
      var rest := Escalations(options[1..], used', left, room');
      forall i | 0 <= i < |rest| ensures Justified(rest[i], options) {
        var k :| 0 <= k < |options[1..]| && options[1..][k].action == rest[i].action
          && Allowed(options[1..][k]) && options[1..][k].expectedValue > 0 && rest[i].action != DoNothing;
        assert options[k + 1] == options[1..][k];
      }
      if !skip {
        var steps := Escalations(options, used, remaining, room);
        assert steps == [EscalationStep(option.action)] + rest;
        assert steps[1..] == rest;
        assert Justified(steps[0], options);
      }
    }
  }

  /** A plan has at most four steps, opens with the chosen action and escalates only through
      options the gate let through and that are worth something. Every action occurs at most
      once, except that the appended promise follow-up may repeat one picked before. */
  lemma PlanIsSound(inputs: Inputs, chosen: ActionOption, options: seq<ActionOption>)
    requires chosen.action != DoNothing
    ensures var plan := Plan(inputs, chosen, options);
            && 1 <= |plan| <= 4
            && plan[0].action == chosen.action
            && (forall i :: 1 <= i < |plan| ==>
                  Justified(plan[i], options) || (i == |plan| - 1 && plan[i].action == PromiseFollowup))
            && (forall i, j :: 0 <= i < j < |plan| && plan[i].action == plan[j].action ==>
                  j == |plan| - 1 && plan[j].action == PromiseFollowup)
  {
    var remaining := MaxInt(inputs.contactBudget - inputs.contactsUsed, 0);
    EscalationsSound(options, {chosen.action}, remaining, 2);
  }

  /** The actions worth escalating to, in ranked order and each once: allowed, worth something, and
      not used yet. Contacts and room are left aside. */
  function Candidates(options: seq<ActionOption>, used: set<ActionType>): seq<ActionType> {
    if options == [] then []
    else
      var o := options[0];
      if o.action in used || o.action == DoNothing || !Allowed(o) || o.expectedValue <= 0
      then Candidates(options[1..], used)
      else [o.action] + Candidates(options[1..], used + {o.action})
  }

  function ContactsIn(actions: seq<ActionType>): nat {
    if actions == [] then 0
    else (if Catalog(actions[0]).consumesContact then 1 else 0) + ContactsIn(actions[1..])
  }

  /** A contact is among the first `room` candidates, and the contacts before it leave one for it. */
  predicate Fits(candidates: seq<ActionType>, contacts: int, room: nat, x: ActionType) {
    exists p :: 0 <= p < |candidates| && p < room && candidates[p] == x && ContactsIn(candidates[..p]) < contacts
  }

  lemma FitsFirst(a: ActionType, rest: seq<ActionType>, contacts: int, room: nat, x: ActionType)
    requires room > 0
    ensures Fits([a] + rest, contacts, room, x) <==>
            (a == x && contacts > 0)
            || Fits(rest, if Catalog(a).consumesContact then contacts - 1 else contacts, room - 1, x)
  {
    var all := [a] + rest;
    var left := if Catalog(a).consumesContact then contacts - 1 else contacts;
    if Fits(all, contacts, room, x) {
      var p :| 0 <= p < |all| && p < room && all[p] == x && ContactsIn(all[..p]) < contacts;
      if p > 0 {
        assert all[..p][1..] == rest[..p - 1];
        assert rest[p - 1] == x && ContactsIn(rest[..p - 1]) < left;
      }
    }
    if a == x && contacts > 0 { assert all[0] == x && ContactsIn(all[..0]) == 0; }
    if Fits(rest, left, room - 1, x) {
      var p :| 0 <= p < |rest| && p < room - 1 && rest[p] == x && ContactsIn(rest[..p]) < left;
      assert all[..p + 1][1..] == rest[..p] && all[p + 1] == x;
    }
  }

  lemma {:induction false} NoContactsLeft(options: seq<ActionOption>, used: set<ActionType>, remaining: int, room: nat,
                                          x: ActionType)
    requires remaining <= 0 && Catalog(x).consumesContact
    ensures !Uses(Escalations(options, used, remaining, room), x)
  {
    if options != [] && room > 0 {
      var action := options[0].action;
      if Skipped(options[0], used, remaining) {
        NoContactsLeft(options[1..], used, remaining, room, x);
      } else {
        NoContactsLeft(options[1..], used + {action}, remaining, room - 1, x);
        UsesFirst(EscalationStep(action), Escalations(options[1..], used + {action}, remaining, room - 1), x);
      }
    }
  }

  lemma UsesFirst(step: PlanStep, rest: seq<PlanStep>, x: ActionType)
    ensures Uses([step] + rest, x) <==> step.action == x || Uses(rest, x)
  {
    var all := [step] + rest;
    if Uses(all, x) {
      var i :| 0 <= i < |all| && all[i].action == x;
      if i > 0 { assert rest[i - 1].action == x; }
    }
    if step.action == x { assert all[0].action == x; }
    if Uses(rest, x) {
      var i :| 0 <= i < |rest| && rest[i].action == x;
      assert all[i + 1].action == x;
    }
  }

  /** The loop escalates to a contact exactly when it fits. */
  lemma {:induction false} EscalatesIff(options: seq<ActionOption>, used: set<ActionType>, remaining: int, room: nat,
                                        x: ActionType)
    requires Catalog(x).consumesContact && x !in used
    ensures Uses(Escalations(options, used, remaining, room), x) <==> Fits(Candidates(options, used), remaining, room, x)
    decreases |options|
  {
    if remaining <= 0 {
      NoContactsLeft(options, used, remaining, room, x);
    } else if options != [] && room > 0 {
      var action := options[0].action;
      if Skipped(options[0], used, remaining) {
        EscalatesIff(options[1..], used, remaining, room, x);
      } else {
        EscalatesPast(options, used, remaining, room, x);
      }
    }
  }

  lemma {:induction false} EscalatesPast(options: seq<ActionOption>, used: set<ActionType>, remaining: int, room: nat,
                                         x: ActionType)
    requires Catalog(x).consumesContact && x !in used && remaining > 0 && room > 0
    requires options != [] && !Skipped(options[0], used, remaining)
    ensures Uses(Escalations(options, used, remaining, room), x) <==> Fits(Candidates(options, used), remaining, room, x)
    decreases |options|, 0
  {
    var action := options[0].action;
    var left := if Catalog(action).consumesContact then remaining - 1 else remaining;
    if x != action { EscalatesIff(options[1..], used + {action}, left, room - 1, x); }
    TakesFirst(options, used, remaining, room, x, left);
  }

  /** What is escalated to and what are candidates, both after the first option is taken. */
  lemma TakesFirst(options: seq<ActionOption>, used: set<ActionType>, remaining: int, room: nat, x: ActionType, left: int)
    requires remaining > 0 && room > 0 && options != [] && !Skipped(options[0], used, remaining)
    requires left == if Catalog(options[0].action).consumesContact then remaining - 1 else remaining
    ensures var action, rest := options[0].action, options[1..];
            && (Uses(Escalations(options, used, remaining, room), x) <==>
                  action == x || Uses(Escalations(rest, used + {action}, left, room - 1), x))
            && (Fits(Candidates(options, used), remaining, room, x) <==>
                  action == x || Fits(Candidates(rest, used + {action}), left, room - 1, x))
  {
    var action, rest := options[0].action, options[1..];
    UsesFirst(EscalationStep(action), Escalations(rest, used + {action}, left, room - 1), x);
    FitsFirst(action, Candidates(rest, used + {action}), remaining, room, x);
  }

  /** The plan will have the contact: it is the chosen action, or it fits among the first two
      candidates with the contacts that are left. */
  predicate WillUse(inputs: Inputs, chosen: ActionOption, options: seq<ActionOption>, x: ActionType) {
    || chosen.action == x
    || Fits(Candidates(options, {chosen.action}), MaxInt(inputs.contactBudget - inputs.contactsUsed, 0), 2, x)
  }

  lemma StepsUseIff(inputs: Inputs, chosen: ActionOption, options: seq<ActionOption>, x: ActionType)
    requires Catalog(x).consumesContact
    ensures Uses(Steps(inputs, chosen, options), x) <==> WillUse(inputs, chosen, options, x)
  {
    var n := MaxInt(inputs.contactBudget - inputs.contactsUsed, 0);
    UsesFirst(FirstStep(inputs, chosen), Escalations(options, {chosen.action}, n, 2), x);
    if chosen.action != x { EscalatesIff(options, {chosen.action}, n, 2, x); }
  }

  /** All steps of a plan are different exactly when it is not an overdue invoice for which both a
      call and a promise follow-up are chosen or come first among the ranked candidates. */
  lemma PlanDistinctIff(inputs: Inputs, chosen: ActionOption, options: seq<ActionOption>)
    requires chosen.action != DoNothing
    ensures Distinct(Plan(inputs, chosen, options)) <==>
            !(inputs.event.kind == OverdueInvoice
              && WillUse(inputs, chosen, options, Voice) && WillUse(inputs, chosen, options, PromiseFollowup))
  {
    StepsUseIff(inputs, chosen, options, Voice);
    StepsUseIff(inputs, chosen, options, PromiseFollowup);
    StepsDistinctIff(inputs, chosen, options);
  }

  lemma StepsDistinctIff(inputs: Inputs, chosen: ActionOption, options: seq<ActionOption>)
    requires chosen.action != DoNothing
    ensures var steps := Steps(inputs, chosen, options);
            Distinct(Plan(inputs, chosen, options)) <==>
            !(inputs.event.kind == OverdueInvoice && Uses(steps, Voice) && Uses(steps, PromiseFollowup))
  {
    var steps := Steps(inputs, chosen, options);
    EscalationsSound(options, {chosen.action}, MaxInt(inputs.contactBudget - inputs.contactsUsed, 0), 2);
    assert Distinct(steps);
    if inputs.event.kind == OverdueInvoice && Uses(steps, Voice) {
      var plan := Plan(inputs, chosen, options);
      assert plan[|steps|].action == PromiseFollowup;
      if Uses(steps, PromiseFollowup) {
        var i :| 0 <= i < |steps| && steps[i].action == PromiseFollowup;
        assert plan[i] == steps[i];
      }
    }
  }

  lemma ChosenIsListed(inputs: Inputs, gate: ActionGate)
    requires Decide(inputs, gate).chosen.action != DoNothing
    ensures Decide(inputs, gate).chosen in Options(inputs, gate) && Allowed(Decide(inputs, gate).chosen)
  {
    DecideIsOptimal(inputs, gate);
    var b: nat :| IsBestAt(Options(inputs, gate), b, Decide(inputs, gate).chosen, inputs.minExpectedValue,
                           inputs.minConfidence);
  }

  /** A retry is planned at most once, and only when the gate did not block it. */
  lemma RetryPlannedOnce(inputs: Inputs, gate: ActionGate)
    ensures var plan := Decide(inputs, gate).plan;
            && (forall i, j :: 0 <= i < j < |plan| ==> !(plan[i].action == RetryPayment && plan[j].action == RetryPayment))
            && (forall i :: 0 <= i < |plan| ==> plan[i].action != DoNothing)
            && (Uses(plan, RetryPayment) ==> AskGate(gate, RetryPayment, 0.0).verdict != Block)
  {
    var outcome := Decide(inputs, gate);
    if outcome.chosen.action != DoNothing {
      PlanIsSound(inputs, outcome.chosen, outcome.options);
      if Uses(outcome.plan, RetryPayment) { PlannedRetryIsAllowed(inputs, gate); }
    }
  }

  lemma PlannedRetryIsAllowed(inputs: Inputs, gate: ActionGate)
    requires Decide(inputs, gate).chosen.action != DoNothing && Uses(Decide(inputs, gate).plan, RetryPayment)
    ensures AskGate(gate, RetryPayment, 0.0).verdict != Block
  {
    var outcome := Decide(inputs, gate);
    PlanIsSound(inputs, outcome.chosen, outcome.options);
    RankMembers(Options(inputs, gate));
    ChosenIsListed(inputs, gate);
    var o := RetryOption(outcome.chosen, outcome.options, outcome.plan);
    PricedRetry(inputs, gate, o);
  }

  /** The allowed option behind a planned retry. */
  lemma RetryOption(chosen: ActionOption, options: seq<ActionOption>, plan: seq<PlanStep>) returns (o: ActionOption)
    requires Uses(plan, RetryPayment) && plan != [] && plan[0].action == chosen.action && Allowed(chosen)
    requires forall i :: 1 <= i < |plan| ==>
               Justified(plan[i], options) || (i == |plan| - 1 && plan[i].action == PromiseFollowup)
    ensures o.action == RetryPayment && Allowed(o) && (o == chosen || o in options)
  {
    var i :| 0 <= i < |plan| && plan[i].action == RetryPayment;
    if i == 0 {
      o := chosen;
    } else {
      assert Justified(plan[i], options);
      var k :| 0 <= k < |options| && options[k].action == RetryPayment && Allowed(options[k]);
      o := options[k];
    }
  }

  lemma PricedRetry(inputs: Inputs, gate: ActionGate, o: ActionOption)
    requires o in Options(inputs, gate) && o.action == RetryPayment && Allowed(o)
    ensures AskGate(gate, RetryPayment, 0.0).verdict != Block
  {
    var p :| 0 <= p < |Options(inputs, gate)| && Options(inputs, gate)[p] == o;
    assert o == Price(inputs, AllowedActions(inputs.event.kind)[p], gate);
  }
}
