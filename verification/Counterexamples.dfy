/** Runs from a book nobody has worked on that show how the recovery loop's promises fail, each under
    the default policy and over the batches that the queries return. */
module Counterexamples {
  import opened Domain
  import opened Rows
  import opened Policy
  import opened Decision
  import opened Journey
  import opened Gateway
  import opened Ledger
  import opened Recovery
  import opened RecoveryProofs
  import opened TurnShape
  import opened TurnLimits
  import opened Orchestrator
  import opened Safety
  import opened Operations
  import opened Raises
  import opened Locks
  import opened Rollbacks
  import opened Cycles
  import opened MandateBudget
  import opened Runs
  import opened Queries
  import KeyStore

  // ------------------------------------------------------------------------- the book

  /** A loss that nobody has looked at yet, and that its customer will not make good unprompted. */
  function Loss(kind: EventKind, customer: CustomerId, amount: nat): Event {
    Event(kind := kind, status := AtRisk, cohort := Treatment, training := false, customer := customer,
          mandate := None, amount := amount, occurredAt := 0, route := "", rootCause := TransientBankDecline,
          retryCount := 0, priorContacts := 0, organicProbability := 0.0, appliedAction := None,
          recoveredAmount := 0, recoveryCost := 0, contactsUsed := 0)
  }

  const NEWCOMER: Customer := Customer(false, 0)

  function Believed(perAction: map<ActionType, real>): Facts {
    Facts(TransientBankDecline, 0.0, perAction, map[])
  }

  const LINK_WORKS: map<ActionType, real> := map[PaymentLink := 0.5]
  const RETRY_WORKS: map<ActionType, real> := map[RetryPayment := 0.9]
  const BOTH_WORK: map<ActionType, real> := map[RetryPayment := 0.9, PaymentLink := 0.5]

  /** What the agents believe to work for a loss. */
  function Belief(e: Event): map<ActionType, real> {
    if e.kind == CartAbandonment then LINK_WORKS else if e.amount >= 1_000_000 then BOTH_WORK else RETRY_WORKS
  }

  /** Two customers and their losses. */
  function Book(losses: seq<Event>): World {
    World([NEWCOMER, NEWCOMER], losses, [], [], map[], Simulator(0, true, {}), [], [], 0)
  }

  function ScanAt(losses: seq<Event>, now: Time): ScanEnv {
    ScanEnv(DEFAULT_POLICY, now, {}, seq(|losses|, i requires 0 <= i < |losses| => Believed(Belief(losses[i]))), 1.0)
  }

  function TickAt(now: Time): TickEnv { TickEnv(DEFAULT_POLICY, now, {}, {}, 1.0) }

  // ---------------------------------------------------------------------- what is chosen

  lemma HopelessIsWorthless(inputs: Inputs, action: ActionType)
    requires inputs.organic == 0.0 && inputs.learned == map[] && action !in inputs.perAction
    requires inputs.contactsUsed == 0
    ensures Worth(inputs, action).expectedValue <= 0
  {
    if action != DoNothing {
      FrictionGrows(inputs.customer.ltv, inputs.customer.ltv, 0, 0, Catalog(action).friction);
      var o := Worth(inputs, action);
      assert o.probability == 0.0 && o.uplift == 0.0;
      assert o.discountCost == 0 by { assert inputs.event.amount as real * o.discountPct / 100.0 * 0.0 == 0.0; }
      assert o.uplift * inputs.event.amount as real == 0.0;
    }
  }

  lemma LinkWorth(inputs: Inputs)
    requires inputs.organic == 0.0 && inputs.learned == map[] && inputs.contactsUsed == 0 && inputs.customer.ltv == 0
    requires PaymentLink in inputs.perAction && inputs.perAction[PaymentLink] == 0.5
    requires inputs.event.amount in {400_000, 500_000, 2_000_000}
    ensures 5_000 <= Worth(inputs, PaymentLink).expectedValue <= 1_000_000 && Worth(inputs, PaymentLink).probability == 0.5
  {
    assert FrictionCost(0, 0, 0.12) == 180;
    assert Offer(inputs, PaymentLink) == 0.0;
  }

  lemma RetryWorth(inputs: Inputs)
    requires inputs.organic == 0.0 && inputs.learned == map[] && inputs.contactsUsed == 0 && inputs.customer.ltv == 0
    requires RetryPayment in inputs.perAction && inputs.perAction[RetryPayment] == 0.9 && !inputs.degraded
    requires inputs.event.amount == 500_000 || inputs.event.amount == 2_000_000
    ensures Worth(inputs, RetryPayment).probability == 0.9
    ensures Worth(inputs, RetryPayment).expectedValue
            == if inputs.event.amount == 500_000 then 449_770 else 1_799_770
  {
    assert FrictionCost(0, 0, 0.02) == 30;
    assert Offer(inputs, RetryPayment) == 0.0;
  }

  /** A budget nothing was taken from. */
  predicate Unspent(b: BudgetState) {
    && b.contactsUsed == 0 && b.retriesUsed == 0 && b.npciAttemptsUsed == 0 && b.voiceUsed == 0
    && b.lastContactAt == None
    && !b.journeyPaused && b.pdnSentAt == None && b.rootCause == Some(TransientBankDecline)
  }

  predicate FirstAsk(ask: Ask) {
    && Unspent(ask.budget) && ask.customer == NEWCOMER && ask.discountPct == 0.0 && !ask.degraded
    && ask.event.status != Recovered && ask.event.priorContacts == 0 && ask.event.retryCount == 0
  }

  lemma LinkGate(ask: Ask)
    requires FirstAsk(ask) && ask.action == PaymentLink
    ensures Gate(DEFAULT_POLICY, ask).verdict == if ask.event.amount >= 1_000_000 then RequireApproval else Allow
  {
  }

  /** The network refuses presentations between ten and one. */
  lemma RetryGate(ask: Ask)
    requires FirstAsk(ask) && ask.action == RetryPayment
    ensures Gate(DEFAULT_POLICY, ask).verdict
            == if InPeakWindow(ask.now) then Block
               else if ask.event.amount >= 1_000_000 then RequireApproval else Allow
  {
    assert Blocks(DEFAULT_POLICY, ask) == if InPeakWindow(ask.now) then [OutsideExecutionWindow] else [];
  }

  /** An action that is viable and worth more than any other is chosen. */
  lemma BestIsChosen(inputs: Inputs, gate: ActionGate, action: ActionType, p: nat)
    requires p < |AllowedActions(inputs.event.kind)| && AllowedActions(inputs.event.kind)[p] == action
    requires Viable(Price(inputs, action, gate), inputs.minExpectedValue, inputs.minConfidence)
    requires forall a :: a in AllowedActions(inputs.event.kind) && a != action ==>
               Worth(inputs, a).expectedValue < Worth(inputs, action).expectedValue
    ensures Decide(inputs, gate).chosen == Price(inputs, action, gate)
  {
    DecideIsOptimal(inputs, gate);
    var options := Options(inputs, gate);
    assert options[p] == Price(inputs, action, gate);
    var chosen := Decide(inputs, gate).chosen;
    var i: nat :| IsBestAt(options, i, chosen, inputs.minExpectedValue, inputs.minConfidence);
    assert chosen == Price(inputs, AllowedActions(inputs.event.kind)[i], gate);
  }

  lemma {:induction false} NothingToEscalate(options: seq<ActionOption>, used: set<ActionType>, remaining: int, room: nat)
    requires forall o :: o in options ==> o.action in used || o.expectedValue <= 0
    ensures Escalations(options, used, remaining, room) == []
  {
    if options != [] && room > 0 { NothingToEscalate(options[1..], used, remaining, room); }
  }

  lemma {:induction false} SomethingToEscalate(options: seq<ActionOption>, used: set<ActionType>, remaining: int,
                                               room: nat, o: ActionOption)
    requires o in options && !Decision.Skipped(o, used, remaining) && room > 0
    ensures Escalations(options, used, remaining, room) != []
  {
    if Decision.Skipped(options[0], used, remaining) { SomethingToEscalate(options[1..], used, remaining, room, o); }
  }

  // ----------------------------------------------------------------- what a scan decides

  /** The row and the facts a scan of this event reads. */
  predicate Reads(w: World, s: ScanEnv, id: EventId, e: Event, perAction: map<ActionType, real>) {
    && Scannable(w, s, id) && w.events[id] == e && e.customer < |w.customers| && w.customers[e.customer] == NEWCOMER
    && s.facts[id] == Believed(perAction) && s.spec == DEFAULT_POLICY && s.degraded == {}
  }

  function InputsOf(w: World, s: ScanEnv, id: EventId): Inputs
    requires Scannable(w, s, id)
  {
    DecisionInputs(Diagnosed(w.events[id], s.facts[id]), w.customers[w.events[id].customer], s, s.facts[id])
  }

  function GateOf(w: World, s: ScanEnv, id: EventId): ActionGate
    requires Scannable(w, s, id)
  {
    DecisionGate(Diagnosed(w.events[id], s.facts[id]), w.customers[w.events[id].customer], s,
                 ScanBudget(w, w.events[id], s.spec))
  }

  predicate IsCart(e: Event) {
    e == Loss(CartAbandonment, e.customer, e.amount) && (e.amount == 400_000 || e.amount == 500_000)
  }

  lemma CartDecision(w: World, s: ScanEnv, id: EventId, e: Event)
    requires Reads(w, s, id, e, LINK_WORKS) && IsCart(e)
    ensures ReachesClaim(w, s, id) && Assess(w, s, id).chosen.action == PaymentLink
  {
    var inputs, gate := InputsOf(w, s, id), GateOf(w, s, id);
    LinkWorth(inputs);
    LinkGate(Ask(PaymentLink, inputs.event, NEWCOMER, ScanBudget(w, w.events[id], s.spec), 0.0, false, s.now));
    forall a | a in AllowedActions(CartAbandonment) && a != PaymentLink ensures Worth(inputs, a).expectedValue <= 0 {
      HopelessIsWorthless(inputs, a);
    }
    BestIsChosen(inputs, gate, PaymentLink, 0);
  }

  lemma RetryDecision(w: World, s: ScanEnv, id: EventId, e: Event, perAction: map<ActionType, real>)
    requires Reads(w, s, id, e, perAction) && !InPeakWindow(s.now)
    requires e == Loss(PaymentFailure, e.customer, e.amount)
    requires (e.amount == 2_000_000 && perAction == BOTH_WORK) || (e.amount == 500_000 && perAction == RETRY_WORKS)
    ensures var inputs, gate := InputsOf(w, s, id), GateOf(w, s, id);
            Decide(inputs, gate).chosen == Price(inputs, RetryPayment, gate)
    ensures ReachesClaim(w, s, id) && Assess(w, s, id).chosen.action == RetryPayment
  {
    var inputs, gate := InputsOf(w, s, id), GateOf(w, s, id);
    RetryWorth(inputs);
    RetryGate(Ask(RetryPayment, inputs.event, NEWCOMER, ScanBudget(w, w.events[id], s.spec), 0.0, false, s.now));
    forall a | a in AllowedActions(PaymentFailure) && a != RetryPayment
      ensures Worth(inputs, a).expectedValue < Worth(inputs, RetryPayment).expectedValue
    {
      if a == PaymentLink && perAction == BOTH_WORK { LinkWorth(inputs); } else { HopelessIsWorthless(inputs, a); }
    }
    BestIsChosen(inputs, gate, RetryPayment, 0);
  }

  /** Where nothing but a retry is believed in, the plan is to retry and give up. */
  lemma RetryIsAll(w: World, s: ScanEnv, id: EventId, e: Event)
    requires Reads(w, s, id, e, RETRY_WORKS) && !InPeakWindow(s.now) && e == Loss(PaymentFailure, e.customer, 500_000)
    ensures Assess(w, s, id).plan == [PlanStep(RetryPayment, 25)]
  {
    RetryDecision(w, s, id, e, RETRY_WORKS);
    var inputs, gate := InputsOf(w, s, id), GateOf(w, s, id);
    var outcome := Decide(inputs, gate);
    RankMembers(Options(inputs, gate));
    forall o | o in outcome.options ensures o.action in {RetryPayment} || o.expectedValue <= 0 {
      var k :| 0 <= k < |Options(inputs, gate)| && Options(inputs, gate)[k] == o;
      var a := AllowedActions(PaymentFailure)[k];
      assert o == Price(inputs, a, gate);
      if a != RetryPayment { HopelessIsWorthless(inputs, a); }
    }
    NothingToEscalate(outcome.options, {RetryPayment}, MaxInt(inputs.contactBudget - inputs.contactsUsed, 0), 2);
  }

  /** Where a payment link is believed in as well, it is the next step. */
  lemma RetryThenLink(w: World, s: ScanEnv, id: EventId, e: Event)
    requires Reads(w, s, id, e, BOTH_WORK) && !InPeakWindow(s.now) && e == Loss(PaymentFailure, e.customer, 2_000_000)
    ensures var plan := Assess(w, s, id).plan; |plan| >= 2 && plan[0] == PlanStep(RetryPayment, 25)
  {
    RetryDecision(w, s, id, e, BOTH_WORK);
    var inputs, gate := InputsOf(w, s, id), GateOf(w, s, id);
    var outcome := Decide(inputs, gate);
    var link := Price(inputs, PaymentLink, gate);
    RankMembers(Options(inputs, gate));
    assert Options(inputs, gate)[1] == link;
    LinkWorth(inputs);
    LinkGate(Ask(PaymentLink, inputs.event, NEWCOMER, ScanBudget(w, w.events[id], s.spec), 0.0, false, s.now));
    SomethingToEscalate(outcome.options, {RetryPayment}, MaxInt(inputs.contactBudget - inputs.contactsUsed, 0), 2, link);
  }

  const CALL_OR_PROMISE: map<ActionType, real> := map[Voice := 0.9, PromiseFollowup := 0.8]

  lemma CallWorth(inputs: Inputs)
    requires inputs.organic == 0.0 && inputs.learned == map[] && inputs.contactsUsed == 0 && inputs.customer.ltv == 0
    requires inputs.perAction == CALL_OR_PROMISE && inputs.event.amount == 500_000
    ensures Worth(inputs, Voice).probability == 0.9 && Worth(inputs, Voice).expectedValue == 448_275
    ensures Worth(inputs, PromiseFollowup).expectedValue == 399_695
  {
    assert FrictionCost(0, 0, 0.55) == 825 && FrictionCost(0, 0, 0.16) == 240;
    assert Offer(inputs, Voice) == 0.0 && Offer(inputs, PromiseFollowup) == 0.0;
  }

  lemma CallGate(ask: Ask)
    requires FirstAsk(ask) && ask.action in {Voice, PromiseFollowup} && ask.event.amount == 500_000
    ensures Gate(DEFAULT_POLICY, ask).verdict == Allow
  {
  }

  lemma InvoiceDecision(w: World, s: ScanEnv, id: EventId, e: Event)
    requires Reads(w, s, id, e, CALL_OR_PROMISE) && e == Loss(OverdueInvoice, e.customer, 500_000)
    ensures var inputs, gate := InputsOf(w, s, id), GateOf(w, s, id);
            && Assess(w, s, id).chosen == Price(inputs, Voice, gate)
            && Allowed(Price(inputs, PromiseFollowup, gate))
            && Price(inputs, PromiseFollowup, gate).expectedValue > 0
            && forall a :: a in AllowedActions(OverdueInvoice) && a !in {Voice, PromiseFollowup} ==>
                 Worth(inputs, a).expectedValue <= 0
  {
    var inputs, gate := InputsOf(w, s, id), GateOf(w, s, id);
    var budget := ScanBudget(w, w.events[id], s.spec);
    CallWorth(inputs);
    CallGate(Ask(Voice, inputs.event, NEWCOMER, budget, 0.0, false, s.now));
    CallGate(Ask(PromiseFollowup, inputs.event, NEWCOMER, budget, 0.0, false, s.now));
    forall a | a in AllowedActions(OverdueInvoice) && a !in {Voice, PromiseFollowup}
      ensures Worth(inputs, a).expectedValue <= 0
    {
      HopelessIsWorthless(inputs, a);
    }
    BestIsChosen(inputs, gate, Voice, 4);
  }

  lemma FollowupIsNext(inputs: Inputs, gate: ActionGate, chosen: ActionOption, options: seq<ActionOption>)
    requires inputs.event.kind == OverdueInvoice && chosen.action == Voice && inputs.contactBudget > inputs.contactsUsed
    requires forall o :: o in options <==> o in Options(inputs, gate)
    requires Allowed(Price(inputs, PromiseFollowup, gate)) && Price(inputs, PromiseFollowup, gate).expectedValue > 0
    requires forall a :: a in AllowedActions(OverdueInvoice) && a !in {Voice, PromiseFollowup} ==>
               Worth(inputs, a).expectedValue <= 0
    ensures Uses(Steps(inputs, chosen, options), Voice) && Uses(Steps(inputs, chosen, options), PromiseFollowup)
  {
    var picked := FollowupIsPicked(inputs, gate, options, inputs.contactBudget - inputs.contactsUsed);
    StepsFollow(inputs, chosen, options, picked);
  }

  lemma FollowupIsListed(inputs: Inputs, gate: ActionGate)
    requires inputs.event.kind == OverdueInvoice
    ensures Price(inputs, PromiseFollowup, gate) in Options(inputs, gate)
  {
    assert AllowedActions(OverdueInvoice)[5] == PromiseFollowup;
    assert Options(inputs, gate)[5] == Price(inputs, PromiseFollowup, gate);
  }

  /** After the call, the first escalation is the follow-up. */
  lemma FollowupIsPicked(inputs: Inputs, gate: ActionGate, options: seq<ActionOption>, n: int) returns (picked: seq<PlanStep>)
    requires inputs.event.kind == OverdueInvoice && n > 0
    requires forall o :: o in options <==> o in Options(inputs, gate)
    requires Allowed(Price(inputs, PromiseFollowup, gate)) && Price(inputs, PromiseFollowup, gate).expectedValue > 0
    requires forall a :: a in AllowedActions(OverdueInvoice) && a !in {Voice, PromiseFollowup} ==>
               Worth(inputs, a).expectedValue <= 0
    ensures picked == Escalations(options, {Voice}, n, 2) && picked != [] && picked[0].action == PromiseFollowup
  {
    FollowupIsListed(inputs, gate);
    SomethingToEscalate(options, {Voice}, n, 2, Price(inputs, PromiseFollowup, gate));
    EscalationsSound(options, {Voice}, n, 2);
    picked := Escalations(options, {Voice}, n, 2);
    var k :| 0 <= k < |options| && options[k].action == picked[0].action && options[k].expectedValue > 0;
    WorthyIsFollowup(inputs, gate, options[k]);
  }

  lemma StepsFollow(inputs: Inputs, chosen: ActionOption, options: seq<ActionOption>, picked: seq<PlanStep>)
    requires chosen.action == Voice && picked != [] && picked[0].action == PromiseFollowup
    requires picked == Escalations(options, {Voice}, MaxInt(inputs.contactBudget - inputs.contactsUsed, 0), 2)
    ensures Uses(Steps(inputs, chosen, options), Voice) && Uses(Steps(inputs, chosen, options), PromiseFollowup)
  {
    var steps := Steps(inputs, chosen, options);
    assert steps[0].action == Voice && steps[1] == picked[0];
  }

  lemma WorthyIsFollowup(inputs: Inputs, gate: ActionGate, o: ActionOption)
    requires inputs.event.kind == OverdueInvoice && o in Options(inputs, gate) && o.expectedValue > 0 && o.action != Voice
    requires forall a :: a in AllowedActions(OverdueInvoice) && a !in {Voice, PromiseFollowup} ==>
               Worth(inputs, a).expectedValue <= 0
    ensures o.action == PromiseFollowup
  {
    var m :| 0 <= m < |Options(inputs, gate)| && Options(inputs, gate)[m] == o;
    assert o == Price(inputs, AllowedActions(OverdueInvoice)[m], gate);
  }

  lemma InvoicePlanRepeats(w: World, s: ScanEnv, id: EventId, e: Event)
    requires Reads(w, s, id, e, CALL_OR_PROMISE) && e == Loss(OverdueInvoice, e.customer, 500_000)
    ensures !Distinct(Assess(w, s, id).plan)
  {
    var inputs, gate := InputsOf(w, s, id), GateOf(w, s, id);
    InvoiceDecision(w, s, id, e);
    var outcome := Decide(inputs, gate);
    RankMembers(Options(inputs, gate));
    FollowupIsNext(inputs, gate, outcome.chosen, outcome.options);
    StepsDistinctIff(inputs, outcome.chosen, outcome.options);
  }

  /** An overdue invoice whose plan has the promise follow-up twice: a call is chosen, the follow-up
      comes next, and it is appended once more. */
  lemma FollowupIsPlannedTwice()
    ensures var w := Book([Loss(OverdueInvoice, 0, 500_000)]);
            var s := ScanEnv(DEFAULT_POLICY, 0, {}, [Believed(CALL_OR_PROMISE)], 1.0);
            Scannable(w, s, 0) && !Distinct(Assess(w, s, 0).plan)
  {
    var w := Book([Loss(OverdueInvoice, 0, 500_000)]);
    var s := ScanEnv(DEFAULT_POLICY, 0, {}, [Believed(CALL_OR_PROMISE)], 1.0);
    InvoicePlanRepeats(w, s, 0, Loss(OverdueInvoice, 0, 500_000));
  }

  // ------------------------------------------------------------------- what a scan opens

  /** A journey that was just opened: its one action is planned, or waits for a human. */
  predicate JustOpened(w: World, s: ScanEnv, id: EventId, w': World, plan: seq<PlanStep>, status: ActionStatus) {
    && plan != [] && Scannable(w, s, id) && |w'.journeys| == |w.journeys| + 1 && w'.journeys[..|w.journeys|] == w.journeys
    && ScanFrame(w.(clock := s.now), w', id) && w'.gw == w.gw
    && var n := |w.journeys|;
       && RowsExist(w', n)
       && var j, ev := w'.journeys[n], EventOf(w', n);
          && j.event == id && j.customer == ev.customer == w.events[id].customer && j.createdAt == s.now
          && |j.actions| == 1 && Open(j) && Legal(j) && j.plan == plan
          && Last(j).kind == plan[0].action && Last(j).status == status
          && (status != Blocked ==> j.nextActionAt == Some(Last(j).scheduledAt))
          && Last(j).scheduledAt == s.now + Scaled(plan[0].delayMinutes * 60, s.speedup) && Last(j).discountPct == 0.0
          && Last(j).executedAt.None? && Last(j).key == ActionKey(n, plan[0].action, 0)
          && j.contactsUsed == 0 && j.retriesUsed == 0 && j.npciAttemptsUsed == 0 && j.voiceUsed == 0 && j.stepIndex == 0
          && ev == w.events[id].(status := InRecovery, rootCause := s.facts[id].cause,
                                 organicProbability := s.facts[id].organic)
  }

  lemma FirstAction(planned: Journey, env: Env, discountPct: real, verdict: GateVerdict)
    requires planned.plan != [] && planned.actions == [] && ScheduleUnder(planned, env, 0, discountPct, verdict).Some?
    ensures var j := ScheduleUnder(planned, env, 0, discountPct, verdict).value;
            && j.actions == [ScheduledAction(env, planned.plan[0], 0, discountPct, verdict)]
            && (verdict.verdict != Block ==> j.nextActionAt == Some(j.actions[0].scheduledAt))
  {
  }

  lemma OpenedAction(w: World, s: ScanEnv, id: EventId, e: Event, plan: seq<PlanStep>, discountPct: real)
    requires Scannable(w, s, id) && PlanOk(plan)
    ensures OpenedJourney(w, s, id, e, plan, discountPct).Some?
    ensures var env := StartEnv(w, s, id);
            var verdict := Gate(s.spec, AskAbout(env, ScanBudget(w, w.events[id], s.spec), e, plan[0].action, discountPct));
            var j := OpenedJourney(w, s, id, e, plan, discountPct).value;
            && j.actions == [ScheduledAction(env, plan[0], 0, discountPct, verdict)]
            && (verdict.verdict != Block ==> j.nextActionAt == Some(j.actions[0].scheduledAt))
  {
    OpenedJourneyIsNew(w, s, id, e, plan, discountPct);
    var env := StartEnv(w, s, id);
    var planned := Move(Move(NewJourney(id, e.customer, plan, s.now), Analyzing, s.now).value, JPlanned, s.now).value;
    FirstAction(planned, env, discountPct,
                Gate(s.spec, AskAbout(env, ScanBudget(w, w.events[id], s.spec), e, plan[0].action, discountPct)));
  }

  lemma {:induction false} FoundIsListed(options: seq<ActionOption>, action: ActionType)
    ensures FindAction(options, action).Some? ==>
              FindAction(options, action).value in options && FindAction(options, action).value.action == action
  {
    if options != [] && options[0].action != action { FoundIsListed(options[1..], action); }
  }

  lemma NoDiscount(w: World, s: ScanEnv, id: EventId, action: ActionType)
    requires Scannable(w, s, id) && action != Discount
    ensures OptionDiscount(Assess(w, s, id).options, action) == 0.0
  {
    var inputs, gate := InputsOf(w, s, id), GateOf(w, s, id);
    RankMembers(Options(inputs, gate));
    FoundIsListed(Assess(w, s, id).options, action);
    if o: ActionOption :| FindAction(Assess(w, s, id).options, action) == Some(o) {
      var k :| 0 <= k < |Options(inputs, gate)| && Options(inputs, gate)[k] == o;
      assert o == Price(inputs, AllowedActions(inputs.event.kind)[k], gate);
    }
  }

  /** The question put to the gate when the first step is scheduled. */
  function FirstQuestion(w: World, s: ScanEnv, id: EventId, action: ActionType): Ask
    requires Scannable(w, s, id)
  {
    Ask(action, Diagnosed(w.events[id], s.facts[id]).(status := InRecovery), w.customers[w.events[id].customer],
        ScanBudget(w, w.events[id], s.spec), 0.0, w.events[id].route in s.degraded, s.now)
  }

  predicate NobodyOwns(w: World, customer: CustomerId) {
    forall k :: 0 <= k < |w.journeys| && Open(w.journeys[k]) ==> w.journeys[k].customer != customer
  }

  lemma OneScan(w: World, s: ScanEnv, id: EventId)
    requires Scannable(w, s, id)
    ensures Scan(w, s, [id]).0 == ScanOne(w.(clock := s.now), s, id).0
  {
    var none: seq<EventId> := [];
    var w0 := w.(clock := s.now);
    assert [id][1..] == none;
    assert ScanAll(ScanOne(w0, s, id).0, s, none).0 == ScanOne(w0, s, id).0;
    assert Scannable(w0, s, [id][0]);
  }

  /** A scan of a fresh event that is worth pursuing, of a customer nobody owns, opens a journey. */
  lemma ScanOpens(w: World, s: ScanEnv, id: EventId, plan: seq<PlanStep>)
    requires LocksSound(w) && FreshEvent(w, id) && Scannable(w, s, id) && ReachesClaim(w, s, id)
    requires NobodyOwns(w, w.events[id].customer) && plan == Assess(w, s, id).plan
    requires plan != [] && plan[0].action != Discount
    ensures JustOpened(w, s, id, Scan(w, s, [id]).0, plan,
                       StatusAfterGate(Gate(s.spec, FirstQuestion(w, s, id, plan[0].action)).verdict))
  {
    var w0, action := w.(clock := s.now), plan[0].action;
    OneScan(w, s, id);
    assert ScanBudget(w0, w0.events[id], s.spec) == ScanBudget(w, w.events[id], s.spec);
    assert Assess(w0, s, id) == Assess(w, s, id) && FirstQuestion(w0, s, id, action) == FirstQuestion(w, s, id, action);
    assert ScanOne(w0, s, id) == ClaimAndStart(w0, s, id, Diagnosed(w.events[id], s.facts[id]), Assess(w0, s, id));
    SameLocksSound(w, w0);
    ClaimedIff(w0, w.events[id].customer, s.now);
    AssessedPlanOk(w0, s, id);
    ScanOneFrame(w0, s, id);
    OpensJourney(w0, s, id, Diagnosed(w.events[id], s.facts[id]), Assess(w0, s, id));
    SameOpening(w, w0, s, id, Scan(w, s, [id]).0, plan,
                StatusAfterGate(Gate(s.spec, FirstQuestion(w, s, id, action)).verdict));
  }

  lemma SameOpening(w: World, w0: World, s: ScanEnv, id: EventId, w': World, plan: seq<PlanStep>, status: ActionStatus)
    requires w0 == w.(clock := s.now) && Scannable(w, s, id) && JustOpened(w0, s, id, w', plan, status)
    ensures JustOpened(w, s, id, w', plan, status)
  {
    assert w0.(clock := s.now) == w0;
  }

  lemma SameLocksSound(w: World, w0: World)
    requires LocksSound(w) && w0 == w.(clock := w0.clock)
    ensures LocksSound(w0)
  {
    forall customer ensures LockOk(w0, customer) { assert LockOk(w, customer); }
  }

  lemma OpensJourney(w: World, s: ScanEnv, id: EventId, d: Event, outcome: Outcome)
    requires FreshEvent(w, id) && Scannable(w, s, id) && d == Diagnosed(w.events[id], s.facts[id]) && w.clock == s.now
    requires outcome == Assess(w, s, id) && PlanOk(outcome.plan) && outcome.plan[0].action != Discount
    requires Claim(w.keys, d.customer, s.now).1
    requires ScanFrame(w, ClaimAndStart(w, s, id, d, outcome).0, id)
    ensures JustOpened(w, s, id, ClaimAndStart(w, s, id, d, outcome).0, outcome.plan,
                       StatusAfterGate(Gate(s.spec, FirstQuestion(w, s, id, outcome.plan[0].action)).verdict))
  {
    NoDiscount(w, s, id, outcome.plan[0].action);
    var j := ClaimAndStartShape(w, s, id, d, outcome);
    OpenedAction(w, s, id, d.(status := InRecovery), outcome.plan, 0.0);
    var w' := ClaimAndStart(w, s, id, d, outcome).0;
    assert w'.journeys[|w.journeys|] == j;
  }

  // ------------------------------------------------------------------- runs step by step

  /** The operation comes no earlier than the one before it, a scan takes the one event and a tick the two
      journeys that its query returns first, and decisions are made on the approval queue. */
  predicate AsQueried(w: World, op: Op) {
    && w.clock <= At(op)
    && match op
       case ScanOp(_, ids) => ids == UnclaimedEvents(w, 1)
       case TickOp(tick, due) => due == DueJourneys(w, tick.now, 2)
       case ApproveOp(id, _) => AwaitsApproval(w, id)
       case CommandOp(id, command, _) => command == Reject ==> AwaitsApproval(w, id)
  }

  /** A run whose scans and ticks take what their queries return. */
  predicate QueriedRun(w: World, ops: seq<Op>)
    decreases |ops|
  {
    ops == [] || (AsQueried(w, ops[0]) && QueriedRun(Do(w, ops[0]).w, ops[1..]))
  }

  predicate Leads(start: World, ops: seq<Op>, w: World) {
    QueriedRun(start, ops) && Final(start, ops) == w
  }

  lemma {:induction false} LeadsOn(start: World, ops: seq<Op>, op: Op)
    ensures Final(start, ops + [op]) == Do(Final(start, ops), op).w
    ensures QueriedRun(start, ops + [op]) <==> QueriedRun(start, ops) && AsQueried(Final(start, ops), op)
    decreases |ops|
  {
    if ops == [] {
      assert ops + [op] == [op] && [op][1..] == [];
    } else {
      assert (ops + [op])[0] == ops[0] && (ops + [op])[1..] == ops[1..] + [op];
      LeadsOn(Do(start, ops[0]).w, ops[1..], op);
    }
  }

  lemma Next(start: World, ops: seq<Op>, w: World, op: Op)
    requires Leads(start, ops, w) && AsQueried(w, op)
    ensures Leads(start, ops + [op], Do(w, op).w)
  {
    LeadsOn(start, ops, op);
  }

  lemma TwoInARow(a: Op, b: Op)
    ensures [] + [a] == [a] && [] + [a] + [b] == [a, b]
  {
  }

  lemma ThreeInARow(a: Op, b: Op, c: Op)
    ensures [] + [a] + [b] + [c] == [a, b, c]
  {
  }

  lemma FourInARow(a: Op, b: Op, c: Op, d: Op)
    ensures [] + [a] + [b] + [c] + [d] == [a, b, c, d]
  {
  }

  ghost predicate Sane(w: World) {
    Inv(w) && Fine(w, DEFAULT_POLICY, true) && LockInv(w) && Resting(w)
  }

  /** Losses of two customers, no two of them worth the same, the largest first. */
  predicate ByWorth(losses: seq<Event>) {
    && (forall i :: 0 <= i < |losses| ==>
          losses[i] == Loss(losses[i].kind, losses[i].customer, losses[i].amount) && losses[i].customer < 2)
    && (forall i, k :: 0 <= i < k < |losses| ==> losses[i].amount > losses[k].amount)
  }

  /** The first n losses are being recovered, the others are as they were. */
  predicate Tried(w: World, losses: seq<Event>, n: nat) {
    && ByWorth(losses) && |w.events| == |losses| && w.customers == [NEWCOMER, NEWCOMER]
    && (forall i :: 0 <= i < n && i < |losses| ==> w.events[i].status == InRecovery)
    && (forall i :: n <= i < |losses| ==> w.events[i] == losses[i])
  }

  predicate Unstarted(w: World, losses: seq<Event>) {
    Tried(w, losses, 0) && w.journeys == [] && w.ledger == [] && w.clock == 0 && w.gw.timeouts == 0
  }

  lemma NothingStarted(losses: seq<Event>)
    requires ByWorth(losses)
    ensures Untouched(Book(losses)) && Sane(Book(losses)) && Unstarted(Book(losses), losses)
    ensures Leads(Book(losses), [], Book(losses))
  {
    UntouchedIsFine(Book(losses), DEFAULT_POLICY);
  }

  /** The next loss in the list is the one a scan is given. */
  lemma NextLoss(w: World, losses: seq<Event>, n: nat)
    requires Inv(w) && Tried(w, losses, n) && n < |losses|
    ensures UnclaimedEvents(w, 1) == [n] && FreshEvent(w, n)
  {
    assert w.events[n] == losses[n];
    UnownedEvent(w, n);
    assert Unclaimed(w, n);
    var ids := UnclaimedEvents(w, 1);
    UnclaimedEventsAreABatch(w, 1);
    if ids != [] { WorthMost(w, losses, n, ids[0]); }
  }

  lemma WorthMost(w: World, losses: seq<Event>, n: nat, id: EventId)
    requires Tried(w, losses, n) && n < |losses| && Unclaimed(w, id) && w.events[id].amount >= losses[n].amount
    ensures id == n
  {
  }

  lemma ReadsNext(w: World, losses: seq<Event>, n: nat, now: Time)
    requires Tried(w, losses, n) && n < |losses|
    ensures Reads(w, ScanAt(losses, now), n, losses[n], Belief(losses[n]))
  {
  }

  lemma ScanKeepsSane(w: World, s: ScanEnv, id: EventId)
    requires Sane(w) && s.spec == DEFAULT_POLICY && FreshEvent(w, id) && w.clock <= s.now && LocksLive(w, s.now)
    ensures Sane(Scan(w, s, [id]).0)
  {
    assert FreshBatch(w, [id]);
    StepKeepsAll(w, ScanOp(s, [id]), DEFAULT_POLICY, w.mandates, true);
    OrderIsResting(Scan(w, s, [id]).0);
  }

  lemma ScanNext(start: World, ops: seq<Op>, w: World, losses: seq<Event>, n: nat, now: Time)
    requires Leads(start, ops, w) && Inv(w) && Tried(w, losses, n) && n < |losses| && w.clock <= now
    ensures Leads(start, ops + [ScanOp(ScanAt(losses, now), [n])], Scan(w, ScanAt(losses, now), [n]).0)
  {
    NextLoss(w, losses, n);
    Next(start, ops, w, ScanOp(ScanAt(losses, now), [n]));
  }

  // ------------------------------------------------------------------- what comes to be open

  /** An opened journey whose one action has not been executed. */
  predicate FirstStep(w: World, id: JourneyId, customer: CustomerId, amount: nat, action: ActionType, at: Time,
                      status: ActionStatus)
  {
    && RowsExist(w, id)
    && var j, ev := w.journeys[id], EventOf(w, id);
       && j.customer == customer == ev.customer && customer < |w.customers| && w.customers[customer] == NEWCOMER
       && j.createdAt == 0 && Open(j)
       && |j.actions| == 1 && Last(j).kind == action && Last(j).status == status && Last(j).scheduledAt == at
       && (status != Blocked ==> j.nextActionAt == Some(at))
       && Last(j).executedAt.None? && Last(j).discountPct == 0.0 && Last(j).key == ActionKey(id, action, 0)
       && j.contactsUsed == 0 && j.retriesUsed == 0 && j.npciAttemptsUsed == 0 && j.voiceUsed == 0 && j.stepIndex == 0
       && ev.amount == amount && ev.status == InRecovery && ev.rootCause == TransientBankDecline
       && ev.priorContacts == 0 && ev.retryCount == 0 && ev.route == ""
  }

  lemma OpenedIsFirstStep(w: World, losses: seq<Event>, n: nat, w': World, plan: seq<PlanStep>, status: ActionStatus)
    requires Tried(w, losses, n) && n < |losses| && JustOpened(w, ScanAt(losses, 0), n, w', plan, status)
    ensures FirstStep(w', |w.journeys|, losses[n].customer, losses[n].amount, plan[0].action,
                      plan[0].delayMinutes * MINUTE, status)
    ensures w'.journeys[|w.journeys|].plan == plan && w'.journeys[|w.journeys|].event == n && w'.clock == 0
    ensures Tried(w', losses, n + 1)
  {
    assert Scaled(plan[0].delayMinutes * 60, 1.0) == plan[0].delayMinutes * MINUTE;
  }

  lemma LinkComesFirst(w: World, s: ScanEnv, id: EventId)
    requires Scannable(w, s, id) && Assess(w, s, id).chosen.action == PaymentLink
    ensures Assess(w, s, id).plan != [] && Assess(w, s, id).plan[0] == PlanStep(PaymentLink, 0)
  {
  }

  lemma CartOpens(w: World, s: ScanEnv, id: EventId, e: Event) returns (plan: seq<PlanStep>)
    requires Reads(w, s, id, e, LINK_WORKS) && IsCart(e)
    requires LocksSound(w) && NobodyOwns(w, e.customer)
    ensures JustOpened(w, s, id, Scan(w, s, [id]).0, plan, Planned) && plan[0] == PlanStep(PaymentLink, 0)
  {
    CartDecision(w, s, id, e);
    LinkComesFirst(w, s, id);
    LinkGate(FirstQuestion(w, s, id, PaymentLink));
    plan := Assess(w, s, id).plan;
    ScanOpens(w, s, id, plan);
  }

  lemma BigRetryOpens(w: World, s: ScanEnv, id: EventId, e: Event) returns (plan: seq<PlanStep>)
    requires Reads(w, s, id, e, BOTH_WORK) && e == Loss(PaymentFailure, e.customer, 2_000_000)
    requires LocksSound(w) && NobodyOwns(w, e.customer) && !InPeakWindow(s.now)
    ensures JustOpened(w, s, id, Scan(w, s, [id]).0, plan, AwaitingApproval)
    ensures |plan| >= 2 && plan[0] == PlanStep(RetryPayment, 25)
  {
    RetryDecision(w, s, id, e, BOTH_WORK);
    RetryThenLink(w, s, id, e);
    RetryGate(FirstQuestion(w, s, id, RetryPayment));
    plan := Assess(w, s, id).plan;
    ScanOpens(w, s, id, plan);
  }

  lemma SmallRetryOpens(w: World, s: ScanEnv, id: EventId, e: Event)
    requires Reads(w, s, id, e, RETRY_WORKS) && e == Loss(PaymentFailure, e.customer, 500_000)
    requires LocksSound(w) && NobodyOwns(w, e.customer) && !InPeakWindow(s.now)
    ensures JustOpened(w, s, id, Scan(w, s, [id]).0, [PlanStep(RetryPayment, 25)], Planned)
  {
    RetryDecision(w, s, id, e, RETRY_WORKS);
    RetryIsAll(w, s, id, e);
    RetryGate(FirstQuestion(w, s, id, RetryPayment));
    ScanOpens(w, s, id, [PlanStep(RetryPayment, 25)]);
  }

  // ------------------------------------------------------- two journeys, one of them approved

  /** The first loss is a large failed payment. */
  predicate BigFirst(losses: seq<Event>) {
    losses != [] && losses[0] == Loss(PaymentFailure, 0, 2_000_000)
  }

  /** The large failed payment is to be retried in 25 minutes, once a human has agreed. */
  predicate FirstOpen(w: World, losses: seq<Event>) {
    && Tried(w, losses, 1) && w.clock == 0 && |w.journeys| == 1
    && FirstStep(w, 0, 0, 2_000_000, RetryPayment, 25 * MINUTE, AwaitingApproval)
    && |w.journeys[0].plan| >= 2 && w.journeys[0].state == JAwaitingApproval && w.journeys[0].event == 0
  }

  lemma FirstScan(w: World, losses: seq<Event>)
    requires Unstarted(w, losses) && BigFirst(losses) && Sane(w)
    ensures var w' := Scan(w, ScanAt(losses, 0), [0]).0; FirstOpen(w', losses) && Sane(w')
  {
    ReadsNext(w, losses, 0, 0);
    var plan := BigRetryOpens(w, ScanAt(losses, 0), 0, losses[0]);
    ScanKeepsSane(w, ScanAt(losses, 0), 0);
    FirstIsOpen(w, losses, Scan(w, ScanAt(losses, 0), [0]).0, plan);
  }

  lemma FirstIsOpen(w: World, losses: seq<Event>, w': World, plan: seq<PlanStep>)
    requires Unstarted(w, losses) && BigFirst(losses) && |plan| >= 2 && plan[0] == PlanStep(RetryPayment, 25)
    requires JustOpened(w, ScanAt(losses, 0), 0, w', plan, AwaitingApproval)
    ensures FirstOpen(w', losses)
  {
    OpenedIsFirstStep(w, losses, 0, w', plan, AwaitingApproval);
  }

  /** Another journey's rows. */
  predicate SameJourneyRows(w: World, w': World, id: JourneyId) {
    && RowsExist(w, id) && RowsExist(w', id) && w'.journeys[id] == w.journeys[id] && EventOf(w', id) == EventOf(w, id)
    && w'.customers == w.customers
  }

  /** The cart's customer gets a payment link at once. */
  predicate CartOpen(w: World, w': World) {
    && w'.clock == 0 && |w'.journeys| == 2 && SameJourneyRows(w, w', 0)
    && FirstStep(w', 1, 1, 500_000, PaymentLink, 0, Planned) && w'.journeys[1].state == JPlanned
  }

  /** Behind the large failed payment comes a cart. */
  predicate CartNext(losses: seq<Event>) {
    BigFirst(losses) && |losses| > 1 && losses[1] == Loss(CartAbandonment, 1, 500_000)
  }

  lemma CartScan(w: World, losses: seq<Event>)
    requires FirstOpen(w, losses) && CartNext(losses) && Sane(w)
    ensures var w' := Scan(w, ScanAt(losses, 0), [1]).0; CartOpen(w, w') && Sane(w')
  {
    ReadsNext(w, losses, 1, 0);
    var plan := CartOpens(w, ScanAt(losses, 0), 1, losses[1]);
    ScanKeepsSane(w, ScanAt(losses, 0), 1);
    CartIsOpen(w, losses, Scan(w, ScanAt(losses, 0), [1]).0, plan);
  }

  lemma CartIsOpen(w: World, losses: seq<Event>, w': World, plan: seq<PlanStep>)
    requires FirstOpen(w, losses) && CartNext(losses) && plan != [] && plan[0] == PlanStep(PaymentLink, 0)
    requires JustOpened(w, ScanAt(losses, 0), 1, w', plan, Planned)
    ensures CartOpen(w, w')
  {
    OpenedIsFirstStep(w, losses, 1, w', plan, Planned);
    assert w'.journeys[..1][0] == w'.journeys[0];
  }

  /** The small failed payment is to be retried in 25 minutes, and nothing else is planned for it. */
  predicate RetryOpen(w: World, w': World, losses: seq<Event>) {
    && w'.clock == 0 && |w'.journeys| == 2 && SameJourneyRows(w, w', 0) && Tried(w', losses, 2)
    && FirstStep(w', 1, 1, 500_000, RetryPayment, 25 * MINUTE, Planned) && w'.journeys[1].state == JPlanned
    && |w'.journeys[1].plan| == 1
  }

  /** Behind the large failed payment comes a small one, and then a cart of the same customer. */
  predicate RetryNext(losses: seq<Event>) {
    && BigFirst(losses) && |losses| > 2 && losses[1] == Loss(PaymentFailure, 1, 500_000)
    && losses[2] == Loss(CartAbandonment, 1, 400_000)
  }

  lemma RetryScan(w: World, losses: seq<Event>)
    requires FirstOpen(w, losses) && RetryNext(losses) && Sane(w)
    ensures var w' := Scan(w, ScanAt(losses, 0), [1]).0; RetryOpen(w, w', losses) && Sane(w')
  {
    ReadsNext(w, losses, 1, 0);
    SmallRetryOpens(w, ScanAt(losses, 0), 1, losses[1]);
    ScanKeepsSane(w, ScanAt(losses, 0), 1);
    RetryIsOpen(w, losses, Scan(w, ScanAt(losses, 0), [1]).0);
  }

  lemma RetryIsOpen(w: World, losses: seq<Event>, w': World)
    requires FirstOpen(w, losses) && RetryNext(losses)
    requires JustOpened(w, ScanAt(losses, 0), 1, w', [PlanStep(RetryPayment, 25)], Planned)
    ensures RetryOpen(w, w', losses)
  {
    OpenedIsFirstStep(w, losses, 1, w', [PlanStep(RetryPayment, 25)], Planned);
    assert w'.journeys[..1][0] == w'.journeys[0];
  }

  /** A human has agreed to the retry after an hour. */
  predicate BigAgreed(w: World) {
    && FirstStep(w, 0, 0, 2_000_000, RetryPayment, HOUR, Approved) && w.journeys[0].state == JApproved
    && |w.journeys[0].plan| >= 2
  }

  predicate Agreed(w: World) {
    w.clock == HOUR && |w.journeys| == 2 && BigAgreed(w)
  }

  lemma Agreeing(w: World)
    requires Sane(w) && w.clock == 0 && w.journeys != [] && w.journeys[0].state == JAwaitingApproval
    requires FirstStep(w, 0, 0, 2_000_000, RetryPayment, 25 * MINUTE, AwaitingApproval) && |w.journeys[0].plan| >= 2
    ensures AwaitsApproval(w, 0)
    ensures var w' := Approve(w, 0, HOUR);
            && BigAgreed(w') && Sane(w') && w'.clock == HOUR && |w'.journeys| == |w.journeys|
            && w' == w.(journeys := w'.journeys, clock := HOUR)
            && w'.journeys[0].createdAt == w.journeys[0].createdAt
            && forall k :: 0 < k < |w.journeys| ==> w'.journeys[k] == w.journeys[k]
  {
    StepKeepsAll(w, ApproveOp(0, HOUR), DEFAULT_POLICY, w.mandates, true);
    OrderIsResting(Approve(w, 0, HOUR));
  }

  function Opening(losses: seq<Event>): seq<Op> {
    [ScanOp(ScanAt(losses, 0), [0]), ScanOp(ScanAt(losses, 0), [1]), ApproveOp(0, HOUR)]
  }

  /** Both journeys of the first run before its ticks. */
  predicate CartPending(w: World) {
    Agreed(w) && FirstStep(w, 1, 1, 500_000, PaymentLink, 0, Planned) && w.journeys[1].state == JPlanned
  }

  lemma CartBook(start: World, losses: seq<Event>) returns (w: World)
    requires Sane(start) && Unstarted(start, losses) && CartNext(losses) && Leads(start, [], start)
    ensures Leads(start, Opening(losses), w) && Sane(w) && CartPending(w)
  {
    FirstScan(start, losses);
    ScanNext(start, [], start, losses, 0, 0);
    var w1 := Scan(start, ScanAt(losses, 0), [0]).0;
    CartScan(w1, losses);
    ScanNext(start, [] + [ScanOp(ScanAt(losses, 0), [0])], w1, losses, 1, 0);
    w := Approving(start, losses, Scan(w1, ScanAt(losses, 0), [1]).0);
  }

  lemma Approving(start: World, losses: seq<Event>, w: World) returns (w': World)
    requires Leads(start, [] + [ScanOp(ScanAt(losses, 0), [0])] + [ScanOp(ScanAt(losses, 0), [1])], w)
    requires Sane(w) && w.clock == 0 && |w.journeys| == 2 && w.journeys[0].state == JAwaitingApproval
    requires FirstStep(w, 0, 0, 2_000_000, RetryPayment, 25 * MINUTE, AwaitingApproval) && |w.journeys[0].plan| >= 2
    requires RowsExist(w, 1) && w.journeys[1].event != w.journeys[0].event
    ensures w' == Approve(w, 0, HOUR) && Leads(start, Opening(losses), w')
    ensures Agreed(w') && Sane(w') && SameJourneyRows(w, w', 1) && w'.events == w.events && w'.customers == w.customers
  {
    Agreeing(w);
    var first, second := ScanOp(ScanAt(losses, 0), [0]), ScanOp(ScanAt(losses, 0), [1]);
    Next(start, [] + [first] + [second], w, ApproveOp(0, HOUR));
    ThreeInARow(first, second, ApproveOp(0, HOUR));
    w' := Approve(w, 0, HOUR);
  }

  lemma QuestionAtTick(w: World, t: TickEnv, id: JourneyId, customer: CustomerId, amount: nat, action: ActionType,
                       at: Time, status: ActionStatus)
    requires FirstStep(w, id, customer, amount, action, at, status) && w.journeys[id].state != Paused
    requires t.spec == DEFAULT_POLICY && t.degraded == {}
    ensures var ask := AskNow(CellOf(w, id), TurnEnv(w, t, id));
            FirstAsk(ask) && ask.action == action && ask.now == t.now && ask.event.amount == amount
  {
    var j := w.journeys[id];
    assert j.actions[..0] == [] && LastContact(j.actions) == None;
  }

  /** A due retry is blocked while the network refuses presentations. */
  lemma RetryAtPeak(w: World, t: TickEnv, id: JourneyId, customer: CustomerId, amount: nat, at: Time, status: ActionStatus)
    requires FirstStep(w, id, customer, amount, RetryPayment, at, status) && status in {Planned, Approved}
    requires t.spec == DEFAULT_POLICY && t.degraded == {} && at <= t.now && InPeakWindow(t.now)
    requires w.journeys[id].state in {JPlanned, JApproved}
    ensures Target(CellOf(w, id), TurnEnv(w, t, id)) == Some(NextState(w.journeys[id]))
  {
    QuestionAtTick(w, t, id, customer, amount, RetryPayment, at, status);
    RetryGate(AskNow(CellOf(w, id), TurnEnv(w, t, id)));
  }

  lemma LinkIsCharged(w: World, t: TickEnv, id: JourneyId, customer: CustomerId, at: Time)
    requires FirstStep(w, id, customer, 500_000, PaymentLink, at, Planned) && w.journeys[id].state == JPlanned
    requires t.spec == DEFAULT_POLICY && t.degraded == {} && at <= t.now
    ensures ChargesAt(w, t, id)
  {
    QuestionAtTick(w, t, id, customer, 500_000, PaymentLink, at, Planned);
    LinkGate(AskNow(CellOf(w, id), TurnEnv(w, t, id)));
  }

  /** Approved before ten and due after ten, the retry can neither be made nor be given up. */
  lemma AgreedIsStuck(w: World, t: TickEnv)
    requires BigAgreed(w) && t.spec == DEFAULT_POLICY && t.degraded == {} && HOUR <= t.now && InPeakWindow(t.now)
    ensures StuckAt(w, t, 0) && TurnedDown(w, t, 0)
  {
    RetryAtPeak(w, t, 0, 0, 2_000_000, HOUR, Approved);
    QuestionAtTick(w, t, 0, 0, 2_000_000, RetryPayment, HOUR, Approved);
    RetryGate(AskNow(CellOf(w, 0), TurnEnv(w, t, 0)));
  }

  // ------------------------------------------------------------------------ charged twice

  /** The queue for the tick: whoever has waited longest comes first. */
  lemma DueInOrder(w: World, now: Time, at: Time, later: Time, limit: nat)
    requires |w.journeys| == 2 && at < later <= now && limit >= 2
    requires Open(w.journeys[0]) && w.journeys[0].nextActionAt == Some(later)
    requires Open(w.journeys[1]) && w.journeys[1].nextActionAt == Some(at)
    ensures DueJourneys(w, now, limit) == [1, 0]
  {
    var last: seq<Row> := [Row(1, at)];
    assert DueRows(w.journeys, now, 2) == [];
    assert DueRows(w.journeys, now, 1) == last;
    assert DueRows(w.journeys, now, 0) == [Row(0, later)] + last;
    assert ([Row(0, later)] + last)[1..] == last && last[1..] == [];
    assert Ordered(last) == last by { assert Ordered(last[1..]) == []; }
    assert InsertRow(Row(0, later), last) == last + InsertRow(Row(0, later), last[1..]);
    assert Ordered([Row(0, later)] + last) == [Row(1, at), Row(0, later)];
    assert Ids([Row(1, at), Row(0, later)]) == [1, 0];
  }

  /** A tick while the network refuses presentations. */
  predicate AtPeak(t: TickEnv) {
    t.spec == DEFAULT_POLICY && t.degraded == {} && HOUR <= t.now && InPeakWindow(t.now)
  }

  lemma CartDue(w: World, t: TickEnv, due: seq<JourneyId>)
    requires CartPending(w) && AtPeak(t) && due == [1, 0]
    ensures OpenBatch(w, due) && DueJourneys(w, t.now, 2) == due
  {
    DueInOrder(w, t.now, 0, HOUR, 2);
  }

  lemma CartRaises(w: World, t: TickEnv, due: seq<JourneyId>)
    requires CartPending(w) && AtPeak(t) && due == [1, 0]
    ensures TickRaises(w, t, due) && AnyTurnedDown(w, t, due) && Charged(w, t, due, 1) && TickCharges(w, t, due)
  {
    CartStuck(w, t);
    CartCharged(w, t);
    ChargeThenRaise(w, t, due);
  }

  lemma CartStuck(w: World, t: TickEnv)
    requires CartPending(w) && AtPeak(t)
    ensures StuckAt(w, t, 0) && TurnedDown(w, t, 0)
  {
    AgreedIsStuck(w, t);
  }

  lemma CartCharged(w: World, t: TickEnv)
    requires CartPending(w) && AtPeak(t)
    ensures ChargesAt(w, t, 1)
  {
    LinkIsCharged(w, t, 1, 1, 0);
  }

  lemma ChargeThenRaise(w: World, t: TickEnv, due: seq<JourneyId>)
    requires due == [1, 0] && t.spec.automationEnabled && ChargesAt(w, t, 1) && StuckAt(w, t, 0) && TurnedDown(w, t, 0)
    ensures TickRaises(w, t, due) && AnyTurnedDown(w, t, due) && Charged(w, t, due, 1) && TickCharges(w, t, due)
  {
    assert due[1] == 0 && StuckAt(w, t, due[1]) && TurnedDown(w, t, due[1]);
    assert due[0] == 1 && Reached(w, t, due, 0) && ChargesAt(w, t, due[0]);
  }

  lemma CartTickRaises(w: World, t: TickEnv, due: seq<JourneyId>)
    requires Sane(w) && CartPending(w) && AtPeak(t) && due == [1, 0]
    ensures Inv(w) && LegalBook(w) && OpenBatch(w, due) && DueJourneys(w, t.now, 2) == due && Tick(w, t, due).raised
  {
    CartDue(w, t, due);
    CartRaises(w, t, due);
    AnyTickRaisesIff(w, t, due);
  }

  lemma CartChargedTwice(w: World, t: TickEnv, t2: TickEnv, due: seq<JourneyId>)
    requires Inv(w) && CartPending(w) && AtPeak(t) && AtPeak(t2) && due == [1, 0]
    ensures DoubleCharge(Tick(Tick(w, t, due).w, t2, due).w.trace)
  {
    CartDue(w, t, due);
    CartRaises(w, t, due);
    CartRaises(w, t2, due);
    ChargedTwice(w, t, due, t2, due, 1);
  }

  lemma PeakIsPeak()
    ensures AtPeak(TickAt(PEAK)) && AtPeak(TickAt(PEAK + MINUTE))
  {
  }

  const PEAK: Time := 6 * HOUR

  const PAYMENT_AND_CART: seq<Event> := [Loss(PaymentFailure, 0, 2_000_000), Loss(CartAbandonment, 1, 500_000)]

  /** A tick can raise on a book in order where nobody paused anything: a retry was approved before
      the network's closed hours and comes due in them. */
  lemma TickRaisesInARun()
    ensures var start, ops := Book(PAYMENT_AND_CART), Opening(PAYMENT_AND_CART);
            && Untouched(start) && QueriedRun(start, ops)
            && var w := Final(start, ops);
               && Inv(w) && LegalBook(w) && AsQueried(w, TickOp(TickAt(PEAK), [1, 0]))
               && Tick(w, TickAt(PEAK), [1, 0]).raised
  {
    NothingStarted(PAYMENT_AND_CART);
    PeakIsPeak();
    var w := CartBook(Book(PAYMENT_AND_CART), PAYMENT_AND_CART);
    CartTickRaises(w, TickAt(PEAK), [1, 0]);
  }

  lemma TickLeads(start: World, ops: seq<Op>, w: World, t: TickEnv, due: seq<JourneyId>)
    requires Leads(start, ops, w) && Inv(w) && LocksSound(w) && w.clock <= t.now && due == DueJourneys(w, t.now, 2)
    ensures Leads(start, ops + [TickOp(t, due)], Tick(w, t, due).w) && Tick(w, t, due).w.clock == t.now
  {
    Next(start, ops, w, TickOp(t, due));
    DueJourneysAreABatch(w, t.now, 2);
    TickBodyShrinksLocks(w, t, due);
  }

  /** After a rollback the queue is what it was. */
  lemma SameDue(w: World, r: World, now: Time)
    requires r.journeys == w.journeys
    ensures DueJourneys(r, now, 2) == DueJourneys(w, now, 2)
  {
  }

  lemma SecondTickLeads(start: World, ops: seq<Op>, w: World, r: World, t: TickEnv, t2: TickEnv, due: seq<JourneyId>)
    requires Sane(w) && CartPending(w) && AtPeak(t) && AtPeak(t2) && t.now <= t2.now && due == [1, 0]
    requires r == Tick(w, t, due).w && Leads(start, ops, r) && r.clock == t.now
    ensures Leads(start, ops + [TickOp(t2, due)], Tick(r, t2, due).w)
  {
    CartTickRaises(w, t, due);
    CartDue(w, t2, due);
    SameDue(w, r, t2.now);
    Next(start, ops, r, TickOp(t2, due));
  }

  lemma ChargedTwiceFrom(start: World, losses: seq<Event>, t: TickEnv, t2: TickEnv, due: seq<JourneyId>)
    requires Sane(start) && Unstarted(start, losses) && CartNext(losses) && Leads(start, [], start)
    requires AtPeak(t) && AtPeak(t2) && t.now <= t2.now && due == [1, 0]
    ensures var ops := Opening(losses) + [TickOp(t, due)] + [TickOp(t2, due)];
            QueriedRun(start, ops) && DoubleCharge(Final(start, ops).trace)
  {
    var w := CartBook(start, losses);
    CartDue(w, t, due);
    TickLeads(start, Opening(losses), w, t, due);
    SecondTickLeads(start, Opening(losses) + [TickOp(t, due)], w, Tick(w, t, due).w, t, t2, due);
    CartChargedTwice(w, t, t2, due);
  }

  /** A run in which one idempotency key is executed twice: the tick above, and the same once more. */
  lemma ActionIsChargedTwice()
    ensures var start := Book(PAYMENT_AND_CART);
            var ops := Opening(PAYMENT_AND_CART) + [TickOp(TickAt(PEAK), [1, 0])] + [TickOp(TickAt(PEAK + MINUTE), [1, 0])];
            Untouched(start) && QueriedRun(start, ops) && DoubleCharge(Final(start, ops).trace)
  {
    NothingStarted(PAYMENT_AND_CART);
    PeakIsPeak();
    ChargedTwiceFrom(Book(PAYMENT_AND_CART), PAYMENT_AND_CART, TickAt(PEAK), TickAt(PEAK + MINUTE), [1, 0]);
  }

  // ------------------------------------------------------------------- a lock that was lost

  /** A large retry that was agreed to, and a small one with nothing else planned. */
  predicate RetryPending(w: World, losses: seq<Event>) {
    && Agreed(w) && FirstStep(w, 1, 1, 500_000, RetryPayment, 25 * MINUTE, Planned) && w.journeys[1].state == JPlanned
    && |w.journeys[1].plan| == 1 && Tried(w, losses, 2) && RetryNext(losses)
  }

  lemma RetryBook(start: World, losses: seq<Event>) returns (w: World)
    requires Sane(start) && Unstarted(start, losses) && RetryNext(losses) && Leads(start, [], start)
    ensures Leads(start, Opening(losses), w) && Sane(w) && RetryPending(w, losses)
  {
    FirstScan(start, losses);
    ScanNext(start, [], start, losses, 0, 0);
    var w1 := Scan(start, ScanAt(losses, 0), [0]).0;
    RetryScan(w1, losses);
    ScanNext(start, [] + [ScanOp(ScanAt(losses, 0), [0])], w1, losses, 1, 0);
    w := Approving(start, losses, Scan(w1, ScanAt(losses, 0), [1]).0);
  }

  /** The small retry is blocked and was all there was, so its journey ends; then the large one raises. */
  lemma RetryDue(w: World, losses: seq<Event>, t: TickEnv, due: seq<JourneyId>)
    requires RetryPending(w, losses) && AtPeak(t) && due == [1, 0]
    ensures OpenBatch(w, due) && DueJourneys(w, t.now, 2) == due
  {
    DueInOrder(w, t.now, 25 * MINUTE, HOUR, 2);
  }

  lemma RetryTick(w: World, losses: seq<Event>, t: TickEnv, due: seq<JourneyId>)
    requires RetryPending(w, losses) && AtPeak(t) && due == [1, 0]
    ensures TickRaises(w, t, due) && ClosedBeforeRaise(w, t, due, 1) && !TickCharges(w, t, due)
  {
    AgreedIsStuck(w, t);
    SmallRetryEnds(w, losses, t);
    CloseThenRaise(w, t, due);
  }

  lemma CloseThenRaise(w: World, t: TickEnv, due: seq<JourneyId>)
    requires |w.journeys| == 2 && due == [1, 0] && t.spec.automationEnabled && StuckAt(w, t, 0)
    requires ClosesAt(w, t, 1) && !StuckAt(w, t, 1) && !ChargesAt(w, t, 1)
    ensures TickRaises(w, t, due) && ClosedBeforeRaise(w, t, due, 1) && !TickCharges(w, t, due)
  {
    assert due[0] == 1 && due[1] == 0 && StuckAt(w, t, due[1]);
  }

  lemma SmallRetryEnds(w: World, losses: seq<Event>, t: TickEnv)
    requires RetryPending(w, losses) && AtPeak(t)
    ensures ClosesAt(w, t, 1) && !StuckAt(w, t, 1) && !ChargesAt(w, t, 1)
  {
    RetryAtPeak(w, t, 1, 1, 500_000, 25 * MINUTE, Planned);
    LastStepEnds(CellOf(w, 1), TurnEnv(w, t, 1));
  }

  lemma LastStepEnds(c: Cell, env: Env)
    requires c.j.actions != [] && Target(c, env) == Some(JFailed) && c.j.state == JPlanned
    ensures Closes(c, env) && !Stuck(c, env) && !Charging(c, env)
  {
  }

  /** The journey is back, and its lock is not. */
  lemma LockIsLost(w: World, losses: seq<Event>, t: TickEnv, due: seq<JourneyId>)
    requires Sane(w) && RetryPending(w, losses) && AtPeak(t) && due == [1, 0] && t.now < CUSTOMER_LOCK_TTL
    ensures var r := Tick(w, t, due).w;
            && LocksSound(r) && Resting(r) && Inv(r)
            && r == w.(keys := r.keys, gw := r.gw, trace := r.trace, clock := r.clock)
            && !LockStored(r, 1)
  {
    RetryDue(w, losses, t, due);
    RetryTick(w, losses, t, due);
    AnyTickRaisesIff(w, t, due);
    RollbackKeepsInvIff(w, t, due);
    TickIsSound(w, t, due);
    LocksAfterTickBody(w, t, due, 1);
  }

  lemma ClaimOfUnguarded(w: World, s: ScanEnv, id: EventId, e: Event)
    requires LocksSound(w) && Resting(w) && Reads(w, s, id, e, LINK_WORKS) && IsCart(e)
    requires Unguarded(w, e.customer, s.now)
    ensures !OneOwner(Scan(w, s, [id]).0)
  {
    var w0 := w.(clock := s.now);
    SameOwners(w, w0);
    CartDecision(w0, s, id, e);
    SameUnguarded(w, w0, e.customer, s.now);
    SecondOwnerIff(w0, s, id);
    OneScan(w, s, id);
  }

  lemma LostLockCosts(w: World, losses: seq<Event>, r: World, now: Time)
    requires RetryPending(w, losses) && r == w.(keys := r.keys, gw := r.gw, trace := r.trace, clock := r.clock)
    requires LocksSound(r) && Resting(r) && !LockStored(r, 1) && now < CUSTOMER_LOCK_TTL
    ensures !Outlived(r, 1, now) && !OneOwner(Scan(r, ScanAt(losses, now), [2]).0)
  {
    assert Open(r.journeys[1]) && !HoldsLock(r, 1) && r.journeys[1].customer == 1;
    UnguardedIff(r, 1, now);
    ReadsNext(r, losses, 2, now);
    ClaimOfUnguarded(r, ScanAt(losses, now), 2, losses[2]);
  }

  lemma SecondOwnerFrom(start: World, losses: seq<Event>, t: TickEnv, due: seq<JourneyId>, now: Time)
    requires Sane(start) && Unstarted(start, losses) && RetryNext(losses) && Leads(start, [], start)
    requires AtPeak(t) && due == [1, 0] && t.now <= now < CUSTOMER_LOCK_TTL
    ensures var ops := Opening(losses) + [TickOp(t, due)];
            && !Outlived(Final(start, ops), 1, now)
            && QueriedRun(start, ops + [ScanOp(ScanAt(losses, now), [2])])
            && !OneOwner(Final(start, ops + [ScanOp(ScanAt(losses, now), [2])]))
  {
    var w := RetryBook(start, losses);
    RetryDue(w, losses, t, due);
    TickLeads(start, Opening(losses), w, t, due);
    LockIsLost(w, losses, t, due);
    ScanNext(start, Opening(losses) + [TickOp(t, due)], Tick(w, t, due).w, losses, 2, now);
    LostLockCosts(w, losses, Tick(w, t, due).w, now);
  }

  const TWO_PAYMENTS: seq<Event> :=
    [Loss(PaymentFailure, 0, 2_000_000), Loss(PaymentFailure, 1, 500_000), Loss(CartAbandonment, 1, 400_000)]

  /** A run in which a customer gets a second open journey within hours of the first, because a tick
      closed the first, raised, and was rolled back. */
  lemma SecondOwnerAfterRollback()
    ensures var start, ops := Book(TWO_PAYMENTS), Opening(TWO_PAYMENTS) + [TickOp(TickAt(PEAK), [1, 0])];
            var claim := ScanOp(ScanAt(TWO_PAYMENTS, PEAK + MINUTE), [2]);
            && Untouched(start) && QueriedRun(start, ops + [claim])
            && !Outlived(Final(start, ops), 1, PEAK + MINUTE) && !OneOwner(Final(start, ops + [claim]))
  {
    NothingStarted(TWO_PAYMENTS);
    PeakIsPeak();
    SecondOwnerFrom(Book(TWO_PAYMENTS), TWO_PAYMENTS, TickAt(PEAK), [1, 0], PEAK + MINUTE);
  }

  // --------------------------------------------------------------- a lock that was outlived

  /** Behind the large failed payment comes a cart of the same customer. */
  predicate OwnCartNext(losses: seq<Event>) {
    BigFirst(losses) && |losses| > 1 && losses[1] == Loss(CartAbandonment, 0, 500_000)
  }

  lemma DayLaterFrom(start: World, losses: seq<Event>)
    requires Sane(start) && Unstarted(start, losses) && OwnCartNext(losses) && Leads(start, [], start)
    ensures var first, later := ScanOp(ScanAt(losses, 0), [0]), ScanOp(ScanAt(losses, CUSTOMER_LOCK_TTL), [1]);
            && AwaitsApproval(Final(start, [first]), 0) && LockInv(Final(start, [first]))
            && QueriedRun(start, [first, later]) && !OneOwner(Final(start, [first, later]))
  {
    TwoInARow(ScanOp(ScanAt(losses, 0), [0]), ScanOp(ScanAt(losses, CUSTOMER_LOCK_TTL), [1]));
    FirstScan(start, losses);
    ScanNext(start, [], start, losses, 0, 0);
    var w := Scan(start, ScanAt(losses, 0), [0]).0;
    ScanNext(start, [] + [ScanOp(ScanAt(losses, 0), [0])], w, losses, 1, CUSTOMER_LOCK_TTL);
    DayLater(w, losses, CUSTOMER_LOCK_TTL);
  }

  lemma DayLater(w: World, losses: seq<Event>, now: Time)
    requires FirstOpen(w, losses) && OwnCartNext(losses) && LocksSound(w) && Resting(w) && CUSTOMER_LOCK_TTL <= now
    ensures !OneOwner(Scan(w, ScanAt(losses, now), [1]).0)
  {
    assert Outlived(w, 0, now) by { assert Open(w.journeys[0]); }
    UnguardedIff(w, 0, now);
    ReadsNext(w, losses, 1, now);
    ClaimOfUnguarded(w, ScanAt(losses, now), 1, losses[1]);
  }

  const PAYMENT_AND_OWN_CART: seq<Event> := [Loss(PaymentFailure, 0, 2_000_000), Loss(CartAbandonment, 0, 500_000)]

  /** Under the default policy a journey lives for three days and its lock for one: while the first
      journey waits a day for approval, a scan gives its customer a second one. */
  lemma SecondOwnerAfterOneDay()
    ensures var start := Book(PAYMENT_AND_OWN_CART);
            var first := ScanOp(ScanAt(PAYMENT_AND_OWN_CART, 0), [0]);
            var later := ScanOp(ScanAt(PAYMENT_AND_OWN_CART, CUSTOMER_LOCK_TTL), [1]);
            && Untouched(start) && QueriedRun(start, [first, later])
            && AwaitsApproval(Final(start, [first]), 0) && !OneOwner(Final(start, [first, later]))
  {
    NothingStarted(PAYMENT_AND_OWN_CART);
    DayLaterFrom(Book(PAYMENT_AND_OWN_CART), PAYMENT_AND_OWN_CART);
  }

  // ------------------------------------------------------------- a lock that was taken away

  /** The first loss is a small failed payment. */
  predicate SmallFirst(losses: seq<Event>) {
    losses != [] && losses[0] == Loss(PaymentFailure, 0, 500_000)
  }

  /** One journey, just opened: the small failed payment is to be retried in 25 minutes. */
  predicate SmallOpen(w: World, losses: seq<Event>) {
    && Tried(w, losses, 1) && w.clock == 0 && |w.journeys| == 1 && w.journeys[0].state == JPlanned
    && FirstStep(w, 0, 0, 500_000, RetryPayment, 25 * MINUTE, Planned) && w.gw.timeouts == 0 && w.ledger == []
  }

  lemma SmallScan(start: World, losses: seq<Event>)
    requires Sane(start) && Unstarted(start, losses) && SmallFirst(losses) && Leads(start, [], start)
    ensures var scan := ScanOp(ScanAt(losses, 0), [0]);
            var w := Scan(start, ScanAt(losses, 0), [0]).0;
            SmallOpen(w, losses) && Sane(w) && Leads(start, [] + [scan], w)
  {
    ReadsNext(start, losses, 0, 0);
    SmallRetryOpens(start, ScanAt(losses, 0), 0, losses[0]);
    ScanKeepsSane(start, ScanAt(losses, 0), 0);
    ScanNext(start, [], start, losses, 0, 0);
    SmallIsOpen(start, losses, Scan(start, ScanAt(losses, 0), [0]).0);
  }

  lemma SmallIsOpen(w: World, losses: seq<Event>, w': World)
    requires Unstarted(w, losses) && SmallFirst(losses)
    requires JustOpened(w, ScanAt(losses, 0), 0, w', [PlanStep(RetryPayment, 25)], Planned)
    ensures SmallOpen(w', losses)
  {
    OpenedIsFirstStep(w, losses, 0, w', [PlanStep(RetryPayment, 25)], Planned);
  }

  lemma StopKeepsSane(w: World, id: JourneyId, at: Time)
    requires Sane(w) && w.clock <= at && id < |w.journeys| && Open(w.journeys[id])
    ensures Sane(Apply(w, id, Stop, at).w)
  {
    StepKeepsAll(w, CommandOp(id, Stop, at), DEFAULT_POLICY, w.mandates, true);
    OrderIsResting(Apply(w, id, Stop, at).w);
  }

  /** One journey, stopped; its customer's cart has not been looked at. */
  predicate SmallStopped(w: World, losses: seq<Event>) {
    && Tried(w, losses, 1) && |w.journeys| == 1 && w.journeys[0].state == Closed && w.journeys[0].customer == 0
    && |losses| > 1 && losses[1] == Loss(CartAbandonment, 0, 400_000)
  }

  lemma SmallStop(w: World, losses: seq<Event>)
    requires SmallOpen(w, losses) && |losses| > 1 && losses[1] == Loss(CartAbandonment, 0, 400_000)
    ensures var w' := Apply(w, 0, Stop, HOUR).w; SmallStopped(w', losses) && w'.clock == HOUR
  {
    assert StopCell(CellOf(w, 0), HOUR).Some?;
    var ev := EventOf(w, 0);
    assert w.events[w.journeys[0].event := ev] == w.events;
  }

  /** The customer's second journey holds the lock, and the first one is stopped again. */
  lemma StopTakesLock(w: World, losses: seq<Event>, now: Time)
    requires Sane(w) && SmallStopped(w, losses) && w.clock <= now
    ensures var w' := Scan(w, ScanAt(losses, now), [1]).0;
            && |w'.journeys| == 2 && w'.clock == now && HoldsLiveLock(w', 1, now) && LockInv(w')
            && !LockInv(Apply(w', 0, Stop, now).w)
  {
    var plan := SecondCart(w, losses, now);
    ScanKeepsSane(w, ScanAt(losses, now), 1);
    StopTakesItAway(w, Scan(w, ScanAt(losses, now), [1]).0, losses, now, plan);
  }

  lemma SecondCart(w: World, losses: seq<Event>, now: Time) returns (plan: seq<PlanStep>)
    requires LocksSound(w) && SmallStopped(w, losses)
    ensures JustOpened(w, ScanAt(losses, now), 1, Scan(w, ScanAt(losses, now), [1]).0, plan, Planned)
    ensures FreshEvent(w, 1) && LocksLive(w, now)
  {
    ReadsNext(w, losses, 1, now);
    plan := CartOpens(w, ScanAt(losses, now), 1, losses[1]);
  }

  lemma StopTakesItAway(w: World, w': World, losses: seq<Event>, now: Time, plan: seq<PlanStep>)
    requires Sane(w') && SmallStopped(w, losses) && JustOpened(w, ScanAt(losses, now), 1, w', plan, Planned)
    ensures |w'.journeys| == 2 && w'.clock == now && HoldsLiveLock(w', 1, now) && LockInv(w')
    ensures !LockInv(Apply(w', 0, Stop, now).w)
  {
    assert w'.journeys[..1][0] == w.journeys[0];
    assert HoldsLock(w', 1) && LockOk(w', 0);
    assert Open(w'.journeys[1]) && LockEnd(w'.journeys[1]) > w'.clock;
    StopClosedKeepsLocksIff(w', 0);
  }

  lemma Stopping(start: World, losses: seq<Event>) returns (w: World)
    requires Sane(start) && Unstarted(start, losses) && SmallFirst(losses) && Leads(start, [], start)
    requires |losses| > 1 && losses[1] == Loss(CartAbandonment, 0, 400_000)
    ensures Leads(start, [] + [ScanOp(ScanAt(losses, 0), [0])] + [CommandOp(0, Stop, HOUR)], w)
    ensures Sane(w) && SmallStopped(w, losses) && w.clock == HOUR
  {
    SmallScan(start, losses);
    var w1 := Scan(start, ScanAt(losses, 0), [0]).0;
    SmallStop(w1, losses);
    StopKeepsSane(w1, 0, HOUR);
    Next(start, [] + [ScanOp(ScanAt(losses, 0), [0])], w1, CommandOp(0, Stop, HOUR));
    w := Apply(w1, 0, Stop, HOUR).w;
  }

  lemma StoppingAgain(start: World, ops: seq<Op>, w: World, losses: seq<Event>, now: Time)
    requires Leads(start, ops, w) && Sane(w) && SmallStopped(w, losses) && w.clock <= now
    ensures var ops' := ops + [ScanOp(ScanAt(losses, now), [1])] + [CommandOp(0, Stop, now)];
            QueriedRun(start, ops') && !LockInv(Final(start, ops'))
  {
    ScanNext(start, ops, w, losses, 1, now);
    StopTakesLock(w, losses, now);
    Next(start, ops + [ScanOp(ScanAt(losses, now), [1])], Scan(w, ScanAt(losses, now), [1]).0, CommandOp(0, Stop, now));
  }

  lemma StoppedTwiceFrom(start: World, losses: seq<Event>)
    requires Sane(start) && Unstarted(start, losses) && SmallFirst(losses) && Leads(start, [], start)
    requires |losses| > 1 && losses[1] == Loss(CartAbandonment, 0, 400_000)
    ensures var ops := StopAndGo(losses); QueriedRun(start, ops) && !LockInv(Final(start, ops))
  {
    var first, stop := ScanOp(ScanAt(losses, 0), [0]), CommandOp(0, Stop, HOUR);
    var second, again := ScanOp(ScanAt(losses, 2 * HOUR), [1]), CommandOp(0, Stop, 2 * HOUR);
    var w := Stopping(start, losses);
    StoppingAgain(start, [] + [first] + [stop], w, losses, 2 * HOUR);
    FourInARow(first, stop, second, again);
  }

  function StopAndGo(losses: seq<Event>): seq<Op> {
    [ScanOp(ScanAt(losses, 0), [0]), CommandOp(0, Stop, HOUR),
     ScanOp(ScanAt(losses, 2 * HOUR), [1]), CommandOp(0, Stop, 2 * HOUR)]
  }

  const SMALL_PAYMENT_AND_CART: seq<Event> := [Loss(PaymentFailure, 0, 500_000), Loss(CartAbandonment, 0, 400_000)]

  /** A run in which a closed journey is stopped once more and takes away the lock of the open one that
      came after it. */
  lemma StoppedTwice()
    ensures var start, ops := Book(SMALL_PAYMENT_AND_CART), StopAndGo(SMALL_PAYMENT_AND_CART);
            Untouched(start) && QueriedRun(start, ops) && !LockInv(Final(start, ops))
  {
    NothingStarted(SMALL_PAYMENT_AND_CART);
    StoppedTwiceFrom(Book(SMALL_PAYMENT_AND_CART), SMALL_PAYMENT_AND_CART);
  }

  // --------------------------------------------------------------- a recovery paid for twice

  /** A retry that the gateway settles at once. */
  lemma RetrySucceeds(c: Cell, env: Env, ask: Ask)
    requires Core(env.id, c) && Last(c.j).executedAt.None? && ask.action == Last(c.j).kind == RetryPayment
    requires c.gw.timeouts <= 0 && Last(c.j).key in env.paid
    ensures var (charged, status) := Charge(c, env, ask);
            && status == GwSucceeded && charged.ledger == c.ledger && charged.j.state == c.j.state
            && |charged.j.actions| == |c.j.actions|
            && Last(charged.j) == Last(c.j).(status := Succeeded, executedAt := Some(env.now), resolveAfterSeconds := 0)
  {
    ReservationSucceeds(env.id, c, env);
  }

  /** A booked recovery: the journey is closed, its last action and the ledger have it. */
  predicate BookedBy(c: Cell, c': Cell) {
    && c'.j.state == Closed && c'.ev.status == Recovered && |c'.ledger| == |c.ledger| + 1
    && c.j.actions != [] && |c'.j.actions| == |c.j.actions| && Last(c'.j).status == Succeeded
    && Last(c'.j).discountPct == Last(c.j).discountPct && Last(c'.j).kind == Last(c.j).kind
  }

  lemma SettledIsBooked(charged: Cell, env: Env, budget: BudgetState)
    requires charged.j.actions != [] && charged.j.state == JExecuting && Last(charged.j).status == Succeeded
    ensures AwaitVerdict(charged, env, budget, GwSucceeded).Some?
    ensures BookedBy(charged, AwaitVerdict(charged, env, budget, GwSucceeded).value)
  {
    VerifiedIsBooked(charged.(j := Move(charged.j, Verifying, env.now).value), env, budget);
  }

  lemma VerifiedIsBooked(c: Cell, env: Env, budget: BudgetState)
    requires c.j.actions != [] && c.j.state == Verifying && Last(c.j).status == Succeeded
    ensures Verify(c, env, budget).Some? && BookedBy(c, Verify(c, env, budget).value)
  {
    assert Ascertain(c, env) == (c, GwSucceeded);
    ConcludedIsBooked(c, env);
  }

  lemma ConcludedIsBooked(c: Cell, env: Env)
    requires c.j.actions != [] && c.j.state == Verifying
    ensures Conclude(c, env).Some? && BookedBy(c, Conclude(c, env).value)
  {
  }

  lemma PaidChargeIsBooked(c: Cell, env: Env, budget: BudgetState, ask: Ask)
    requires Core(env.id, c) && Last(c.j).executedAt.None? && ask.action == Last(c.j).kind == RetryPayment
    requires c.gw.timeouts <= 0 && Last(c.j).key in env.paid && c.j.state == JExecuting
    ensures var (charged, status) := Charge(c, env, ask);
            && charged.j.actions != [] && AwaitVerdict(charged, env, budget, status).Some?
            && BookedBy(c, AwaitVerdict(charged, env, budget, status).value)
  {
    RetrySucceeds(c, env, ask);
    SettledIsBooked(Charge(c, env, ask).0, env, budget);
  }

  lemma PaidRetryIsBooked(c: Cell, env: Env, budget: BudgetState, ask: Ask)
    requires Core(env.id, c) && Last(c.j).executedAt.None? && ask.action == Last(c.j).kind == RetryPayment
    requires c.gw.timeouts <= 0 && Last(c.j).key in env.paid && c.j.state == JPlanned
    ensures Perform(c, env, budget, ask).Some? && BookedBy(c, Perform(c, env, budget, ask).value)
  {
    MoveKeepsCore(env.id, c, JExecuting, env.now);
    var executing := c.(j := Move(c.j, JExecuting, env.now).value);
    PerformIsAwait(c, executing, env, budget, ask);
    PaidChargeIsBooked(executing, env, budget, ask);
  }

  /** A tick before the network's closed hours; the first retry of the first journey has been paid. */
  predicate PaidTick(t: TickEnv) {
    && t.spec == DEFAULT_POLICY && t.degraded == {} && 25 * MINUTE <= t.now && !InPeakWindow(t.now)
    && ActionKey(0, RetryPayment, 0) in t.paid
  }

  lemma SmallRetryTurn(w: World, losses: seq<Event>, t: TickEnv)
    requires SmallOpen(w, losses) && Inv(w) && PaidTick(t)
    ensures var c, r := CellOf(w, 0), Advance(CellOf(w, 0), TurnEnv(w, t, 0));
            r.Some? && BookedBy(c, r.value) && r.value.ev.cohort == Treatment
  {
    assert JourneyOk(w, 0);
    var c, env := CellOf(w, 0), TurnEnv(w, t, 0);
    QuestionAtTick(w, t, 0, 0, 500_000, RetryPayment, 25 * MINUTE, Planned);
    RetryGate(AskNow(c, env));
    PaidRetryIsBooked(c, env, AskNow(c, env).budget, AskNow(c, env));
    AdvanceRests(c, env);
  }

  /** The book after a tick that had one turn to give, and that turn closed its journey. */
  lemma OneTurnTick(w: World, t: TickEnv, c': Cell)
    requires |w.journeys| == 1 && |w.events| == 1 && RowsExist(w, 0) && t.spec.automationEnabled
    requires Advance(CellOf(w, 0), TurnEnv(w, t, 0)) == Some(c') && !Open(c'.j) && c'.ev.cohort == Treatment
    ensures Tick(w, t, [0]) == Run(WithCell(w.(clock := t.now), 0, c'), false)
  {
    var none: seq<JourneyId> := [];
    var w0, due: seq<JourneyId> := w.(clock := t.now), [0];
    var w1 := WithCell(w0, 0, c');
    assert CellOf(w0, 0) == CellOf(w, 0) && TurnEnv(w0, t, 0) == TurnEnv(w, t, 0);
    assert due[1..] == none && AdvanceAll(w1, t, none) == Run(w1, false);
    assert AdvanceOne(w0, t, due[0]) == Run(w1, false);
    assert SettleFrom(w1, t, 1) == w1 && SettleFrom(w1, t, 0) == w1;
    assert ExpireFrom(w1, t, 1) == Run(w1, false) && ExpireFrom(w1, t, 0) == Run(w1, false);
  }

  /** The one journey was booked: its retry cost 2 rupees and the journey cost 4. */
  predicate PaidForTwice(w: World) {
    && |w.journeys| == 1 && |w.ledger| == 1 && w.ledger[0].journey == 0 && w.ledger[0].cost == 200
    && CostOf(w.journeys[0].actions) == 200 && w.journeys[0].cost == 400
  }

  lemma BookedOnceCostsTwice(w: World)
    requires Inv(w) && |w.journeys| == 1 && |w.ledger| == 1 && RowsExist(w, 0) && EventOf(w, 0).status == Recovered
    requires var j := w.journeys[0]; |j.actions| == 1 && Last(j).discountPct == 0.0 && Last(j).kind == RetryPayment
    ensures PaidForTwice(w)
  {
    assert JourneyOk(w, 0);
    assert EntryOk(w, w.ledger[0]);
    var j := w.journeys[0];
    assert ActionOk(0, j.plan, 0, j.actions[0]);
    assert DiscountPaise(EventOf(w, 0).amount, 0.0) == 0;
    assert j.actions[..0] == [] && CostOf(j.actions[..0]) == 0;
  }

  lemma SmallRetryTick(w: World, losses: seq<Event>, t: TickEnv)
    requires Inv(w) && SmallOpen(w, losses) && |losses| == 1 && PaidTick(t)
    ensures PaidForTwice(Tick(w, t, [0]).w)
  {
    SmallRetryTurn(w, losses, t);
    OneTurnTick(w, t, Advance(CellOf(w, 0), TurnEnv(w, t, 0)).value);
    assert OpenBatch(w, [0]);
    TickKeepsInv(w, t, [0]);
    BookedOnceCostsTwice(Tick(w, t, [0]).w);
  }

  lemma DueAlone(w: World, now: Time, at: Time, limit: nat)
    requires |w.journeys| == 1 && at <= now && limit >= 1
    requires Open(w.journeys[0]) && w.journeys[0].nextActionAt == Some(at)
    ensures DueJourneys(w, now, limit) == [0]
  {
    var rows: seq<Row> := [Row(0, at)];
    assert DueRows(w.journeys, now, 1) == [];
    assert DueRows(w.journeys, now, 0) == rows && rows[1..] == [];
    assert Ordered(rows) == rows by { assert Ordered(rows[1..]) == []; }
    assert Ids(rows) == [0];
  }

  lemma PaidForTwiceFrom(start: World, losses: seq<Event>, t: TickEnv)
    requires Sane(start) && Unstarted(start, losses) && SmallFirst(losses) && |losses| == 1 && Leads(start, [], start)
    requires PaidTick(t)
    ensures var ops := [ScanOp(ScanAt(losses, 0), [0]), TickOp(t, [0])];
            QueriedRun(start, ops) && PaidForTwice(Final(start, ops))
  {
    var scan := ScanOp(ScanAt(losses, 0), [0]);
    SmallScan(start, losses);
    var w := Scan(start, ScanAt(losses, 0), [0]).0;
    SmallRetryTick(w, losses, t);
    DueAlone(w, t.now, 25 * MINUTE, 2);
    Next(start, [] + [scan], w, TickOp(t, [0]));
    TwoInARow(scan, TickOp(t, [0]));
  }

  const SMALL_PAYMENT: seq<Event> := [Loss(PaymentFailure, 0, 500_000)]

  function PaidAt(now: Time): TickEnv { TickEnv(DEFAULT_POLICY, now, {}, {ActionKey(0, RetryPayment, 0)}, 1.0) }

  /** A run that ends with one booking: a retry of 2 rupees recovers the money, and the journey is
      charged 4. */
  lemma RetryIsPaidForTwice()
    ensures var start := Book(SMALL_PAYMENT);
            var ops := [ScanOp(ScanAt(SMALL_PAYMENT, 0), [0]), TickOp(PaidAt(25 * MINUTE), [0])];
            Untouched(start) && QueriedRun(start, ops) && PaidForTwice(Final(start, ops))
  {
    NothingStarted(SMALL_PAYMENT);
    PaidForTwiceFrom(Book(SMALL_PAYMENT), SMALL_PAYMENT, PaidAt(25 * MINUTE));
  }

  // --------------------------------------------------------------- a customer locked out

  /** The large retry has been agreed to, and the cart has not been looked at. */
  ghost predicate CartWaits(w: World, losses: seq<Event>) {
    && Sane(w) && BigAgreed(w) && Tried(w, losses, 1) && CartNext(losses) && |w.journeys| == 1 && w.clock == HOUR
  }

  lemma CartLeft(start: World, losses: seq<Event>) returns (w: World)
    requires Sane(start) && Unstarted(start, losses) && CartNext(losses) && Leads(start, [], start)
    ensures Leads(start, [ScanOp(ScanAt(losses, 0), [0]), ApproveOp(0, HOUR)], w) && CartWaits(w, losses)
  {
    FirstScan(start, losses);
    ScanNext(start, [], start, losses, 0, 0);
    var w1 := Scan(start, ScanAt(losses, 0), [0]).0;
    Agreeing(w1);
    Next(start, [] + [ScanOp(ScanAt(losses, 0), [0])], w1, ApproveOp(0, HOUR));
    TwoInARow(ScanOp(ScanAt(losses, 0), [0]), ApproveOp(0, HOUR));
    w := Approve(w1, 0, HOUR);
  }

  /** Both journeys in the round, the new one after the one that has waited longer. */
  predicate RoundPending(w: World, now: Time) {
    && BigAgreed(w) && |w.journeys| == 2 && Open(w.journeys[1]) && w.journeys[1].customer == 1
    && w.journeys[1].nextActionAt == Some(now)
  }

  lemma RoundScan(w: World, losses: seq<Event>, now: Time)
    requires CartWaits(w, losses) && HOUR < now
    ensures RoundPending(Scan(w, ScanAt(losses, now), [1]).0, now)
  {
    ReadsNext(w, losses, 1, now);
    var plan := CartOpens(w, ScanAt(losses, now), 1, losses[1]);
    RoundIsPending(w, losses, now, Scan(w, ScanAt(losses, now), [1]).0, plan);
  }

  lemma RoundIsPending(w: World, losses: seq<Event>, now: Time, w': World, plan: seq<PlanStep>)
    requires CartWaits(w, losses) && plan != [] && plan[0] == PlanStep(PaymentLink, 0)
    requires JustOpened(w, ScanAt(losses, now), 1, w', plan, Planned)
    ensures RoundPending(w', now)
  {
    assert Scaled(0, 1.0) == 0;
    assert w'.journeys[..1][0] == w.journeys[0];
    assert w'.events[w.journeys[0].event] == w.events[w.journeys[0].event];
  }

  lemma DueByRow(w: World, now: Time, at: Time, later: Time, limit: nat)
    requires |w.journeys| == 2 && at <= later <= now && limit >= 2
    requires Open(w.journeys[0]) && w.journeys[0].nextActionAt == Some(at)
    requires Open(w.journeys[1]) && w.journeys[1].nextActionAt == Some(later)
    ensures DueJourneys(w, now, limit) == [0, 1]
  {
    var last: seq<Row> := [Row(1, later)];
    assert DueRows(w.journeys, now, 2) == [];
    assert DueRows(w.journeys, now, 1) == last;
    assert DueRows(w.journeys, now, 0) == [Row(0, at)] + last;
    assert ([Row(0, at)] + last)[1..] == last && last[1..] == [];
    assert Ordered(last) == last by { assert Ordered(last[1..]) == []; }
    assert Ordered([Row(0, at)] + last) == [Row(0, at), Row(1, later)];
    assert Ids([Row(0, at), Row(1, later)]) == [0, 1];
  }

  lemma RoundDue(w: World, now: Time, due: seq<JourneyId>)
    requires RoundPending(w, now) && HOUR <= now && due == [0, 1]
    ensures OpenBatch(w, due) && DueJourneys(w, now, 2) == due
  {
    DueByRow(w, now, HOUR, now, 2);
  }

  /** The retry that was agreed to raises before the new journey has its turn. */
  lemma RoundRaises(w: World, t: TickEnv, due: seq<JourneyId>)
    requires RoundPending(w, t.now) && AtPeak(t) && due == [0, 1]
    ensures TickRaises(w, t, due) && !TickCharges(w, t, due) && !ClosedBeforeRaise(w, t, due, 1)
  {
    AgreedIsStuck(w, t);
    StuckFirst(w, t, due);
  }

  lemma StuckFirst(w: World, t: TickEnv, due: seq<JourneyId>)
    requires |w.journeys| == 2 && due == [0, 1] && t.spec.automationEnabled && StuckAt(w, t, 0)
    ensures TickRaises(w, t, due) && !TickCharges(w, t, due) && !ClosedBeforeRaise(w, t, due, 1)
  {
    assert due[0] == 0 && StuckAt(w, t, due[0]);
  }

  ghost predicate RoundStarts(w: World, s: ScanEnv) {
    Inv(w) && LockInv(w) && FreshBatch(w, [1]) && w.clock <= s.now && LocksLive(w, s.now) && |w.journeys| == 1
  }

  /** The scan has opened one journey, and the tick raises before that has its turn. */
  predicate RoundFails(scanned: World, t: TickEnv, due: seq<JourneyId>, customer: CustomerId) {
    && |scanned.journeys| == 2 && scanned.journeys[1].customer == customer
    && OpenBatch(scanned, due) && TickRaises(scanned, t, due)
    && !TickCharges(scanned, t, due) && !ClosedBeforeRaise(scanned, t, due, 1)
  }

  lemma RoundIsLost(w: World, s: ScanEnv, t: TickEnv, due: seq<JourneyId>, customer: CustomerId)
    requires RoundStarts(w, s) && RoundFails(Scan(w, s, [1]).0, t, due, customer) && s.now == t.now
    ensures var r := Cycle(w, s, [1], t, due);
            && r.raised && Inv(r.w) && LockedOut(r.w, customer, s.now + CUSTOMER_LOCK_TTL)
            && r.w.journeys == w.journeys && r.w.events == w.events && r.w.customers == w.customers
  {
    CycleKeepsInvIff(w, s, [1], t, due);
    CycleLocksOutIff(w, s, [1], t, due, 1);
  }

  lemma CartIsLost(w: World, losses: seq<Event>, s: ScanEnv, t: TickEnv, due: seq<JourneyId>)
    requires RoundStarts(w, s) && RoundFails(Scan(w, s, [1]).0, t, due, 1) && s.now == t.now && CartWaits(w, losses)
    ensures var r := Cycle(w, s, [1], t, due);
            r.raised && Inv(r.w) && LockedOut(r.w, 1, s.now + CUSTOMER_LOCK_TTL) && CartLost(w, r.w, losses)
  {
    RoundIsLost(w, s, t, due, 1);
    RowsAreBack(w, Cycle(w, s, [1], t, due).w, losses);
  }

  lemma CartStarts(w: World, losses: seq<Event>, now: Time)
    requires CartWaits(w, losses) && HOUR < now < CUSTOMER_LOCK_TTL
    ensures RoundStarts(w, ScanAt(losses, now))
  {
    NextLoss(w, losses, 1);
    assert LocksLive(w, now);
  }

  lemma CartFails(w: World, losses: seq<Event>, t: TickEnv, due: seq<JourneyId>)
    requires CartWaits(w, losses) && AtPeak(t) && HOUR < t.now && due == [0, 1]
    ensures var scanned := Scan(w, ScanAt(losses, t.now), [1]).0;
            DueJourneys(scanned, t.now, 2) == due && RoundFails(scanned, t, due, 1)
  {
    RoundScan(w, losses, t.now);
    RoundDue(Scan(w, ScanAt(losses, t.now), [1]).0, t.now, due);
    RoundRaises(Scan(w, ScanAt(losses, t.now), [1]).0, t, due);
  }

  predicate CartLost(w: World, r: World, losses: seq<Event>) {
    r.journeys == w.journeys && Tried(r, losses, 1) && NobodyOwns(r, 1)
  }

  lemma RowsAreBack(w: World, r: World, losses: seq<Event>)
    requires CartWaits(w, losses) && r.journeys == w.journeys && r.events == w.events && r.customers == w.customers
    ensures CartLost(w, r, losses)
  {
  }

  lemma LockedOutCart(r: World, losses: seq<Event>, until: Time, now: Time)
    requires Inv(r) && Tried(r, losses, 1) && CartNext(losses) && LockedOut(r, 1, until)
    ensures UnclaimedEvents(r, 1) == [1]
    ensures Scan(r, ScanAt(losses, now), [1]).1 == [if now < until then Collision else Started(|r.journeys|)]
  {
    NextLoss(r, losses, 1);
    var s, r0 := ScanAt(losses, now), r.(clock := now);
    ReadsNext(r0, losses, 1, now);
    CartDecision(r0, s, 1, losses[1]);
    LockedOutWaits(r0, 1, until, s, 1);
    FoundInOneScan(r, s, 1);
  }

  lemma FoundInOneScan(w: World, s: ScanEnv, id: EventId)
    requires Scannable(w, s, id)
    ensures Scan(w, s, [id]).1 == [ScanOne(w.(clock := s.now), s, id).1]
  {
    var none: seq<EventId> := [];
    var w0 := w.(clock := s.now);
    assert [id][1..] == none;
    assert ScanAll(ScanOne(w0, s, id).0, s, none).1 == [];
    assert Scannable(w0, s, [id][0]);
  }

  /** A round of the scheduler that raises opens a journey for a customer and loses it. The book is in
      order and nobody owns the customer, but every scan for the next 24 hours finds them taken. */
  lemma CycleLocksCustomerOut()
    ensures var losses := PAYMENT_AND_CART;
            var start, ops := Book(losses), [ScanOp(ScanAt(losses, 0), [0]), ApproveOp(0, HOUR)];
            var w := Final(start, ops);
            var r := Cycle(w, ScanAt(losses, PEAK), [1], TickAt(PEAK), [0, 1]);
            && Untouched(start) && QueriedRun(start, ops) && UnclaimedEvents(w, 1) == [1]
            && DueJourneys(Scan(w, ScanAt(losses, PEAK), [1]).0, PEAK, 2) == [0, 1]
            && r.raised && Inv(r.w) && NobodyOwns(r.w, 1) && UnclaimedEvents(r.w, 1) == [1]
            && forall now :: Scan(r.w, ScanAt(losses, now), [1]).1
                             == [if now < PEAK + CUSTOMER_LOCK_TTL then Collision else Started(|r.w.journeys|)]
  {
    NothingStarted(PAYMENT_AND_CART);
    PeakIsPeak();
    var w := CartLeft(Book(PAYMENT_AND_CART), PAYMENT_AND_CART);
    NextLoss(w, PAYMENT_AND_CART, 1);
    CartStarts(w, PAYMENT_AND_CART, PEAK);
    CartFails(w, PAYMENT_AND_CART, TickAt(PEAK), [0, 1]);
    CartIsLost(w, PAYMENT_AND_CART, ScanAt(PAYMENT_AND_CART, PEAK), TickAt(PEAK), [0, 1]);
    var r := Cycle(w, ScanAt(PAYMENT_AND_CART, PEAK), [1], TickAt(PEAK), [0, 1]).w;
    forall now ensures UnclaimedEvents(r, 1) == [1]
      ensures Scan(r, ScanAt(PAYMENT_AND_CART, now), [1]).1
              == [if now < PEAK + CUSTOMER_LOCK_TTL then Collision else Started(|r.journeys|)]
    {
      LockedOutCart(r, PAYMENT_AND_CART, PEAK + CUSTOMER_LOCK_TTL, now);
    }
  }
}
