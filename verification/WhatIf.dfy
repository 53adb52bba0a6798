/** The strategy simulator: it replays the open book under a policy, or under the fixed legacy
    workflow, and adds up what would be done. */
module WhatIf {
  import opened Domain
  import opened Rows
  import opened Policy
  import opened Decision

  /** An event of the open book with everything a policy is scored against. */
  datatype Scored = Scored(event: Event, customer: Customer, organic: real, perAction: map<ActionType, real>,
                           degraded: bool, learned: map<ActionType, real>)

  datatype Result = Result(
    events: nat, revenueAtRisk: int, expectedRecovery: int, expectedIncremental: int, interventionCost: int,
    discountCost: int, contacts: nat, interventions: nat, doNothing: nat, approvals: nat, blocked: nat,
    npciWasted: nat, futilePrevented: nat, mix: map<ActionType, nat>)

  const NOTHING_YET: Result := Result(0, 0, 0, 0, 0, 0, 0, 0, 0, 0, 0, 0, 0, map[])

  const ALL_ACTIONS: seq<ActionType> :=
    [DoNothing, RetryPayment, PaymentLink, AltPaymentMethod, WhatsApp, Sms, Email, Voice, Discount,
     HumanEscalation, PromiseFollowup, ReregisterMandate, AmendMandateCap, SendPdn, SwitchRail]

  function LegacyAction(kind: EventKind): ActionType {
    match kind
    case PaymentFailure | SubscriptionFailure => RetryPayment
    case CartAbandonment | OverdueInvoice => Email
  }

  function InMix(mix: map<ActionType, nat>, action: ActionType): nat {
    if action in mix then mix[action] else 0
  }

  function MixTotal(mix: map<ActionType, nat>, actions: seq<ActionType>): nat {
    if actions == [] then 0 else InMix(mix, actions[0]) + MixTotal(mix, actions[1..])
  }

  predicate EachOnce(actions: seq<ActionType>) {
    && (forall i, k :: 0 <= i < k < |actions| ==> actions[i] != actions[k])
    && (forall a: ActionType :: a in actions)
  }

  /** Summed over the actions, each taken once, the mix is the number of events. */
  ghost predicate MixAddsUp(mix: map<ActionType, nat>, n: nat) {
    forall actions :: EachOnce(actions) ==> MixTotal(mix, actions) == n
  }

  // ------------------------------------------------------------------------- one event

  predicate Wasteful(action: ActionType, e: Event) {
    action == RetryPayment && RetryIsFutile(e.rootCause)
  }

  /** What one event adds to the result. */
  function Recorded(r: Result, o: ActionOption, e: Event): Result {
    var acts := o.action != DoNothing;
    r.(events := r.events + 1,
       revenueAtRisk := r.revenueAtRisk + e.amount,
       mix := r.mix[o.action := InMix(r.mix, o.action) + 1],
       futilePrevented := r.futilePrevented + (if Wasteful(o.action, e) && o.verdict == Block then 1 else 0),
       npciWasted := r.npciWasted + (if Wasteful(o.action, e) && o.verdict != Block then 1 else 0),
       doNothing := r.doNothing + (if acts then 0 else 1),
       interventions := r.interventions + (if acts then 1 else 0),
       expectedRecovery := r.expectedRecovery + (if acts then o.expectedRecovery else 0),
       expectedIncremental := r.expectedIncremental + (if acts then Truncate(o.uplift * e.amount as real) else 0),
       interventionCost := r.interventionCost + (if acts then o.cost else 0),
       discountCost := r.discountCost + (if acts then o.discountCost else 0),
       contacts := r.contacts + (if acts && Catalog(o.action).consumesContact then 1 else 0),
       approvals := r.approvals + (if acts && o.verdict == RequireApproval then 1 else 0))
  }

  /** The result object that the simulator fills in. */
  class Tally {
    var result: Result

    constructor ()
      ensures result == NOTHING_YET
    {
      result := NOTHING_YET;
    }

    method Record(o: ActionOption, e: Event)
      modifies this
      ensures result == Recorded(old(result), o, e)
      ensures result.interventions + result.doNothing - result.events
              == old(result).interventions + old(result).doNothing - old(result).events
      ensures result.interventions - result.contacts >= old(result).interventions - old(result).contacts
      ensures result.interventions - result.approvals >= old(result).interventions - old(result).approvals
      ensures result.npciWasted > old(result).npciWasted <==> Wasteful(o.action, e) && o.verdict != Block
    {
      result := result.(events := result.events + 1, revenueAtRisk := result.revenueAtRisk + e.amount);
      result := result.(mix := result.mix[o.action := InMix(result.mix, o.action) + 1]);
      if o.action == RetryPayment && RetryIsFutile(e.rootCause) {
        if o.verdict == Block {
          result := result.(futilePrevented := result.futilePrevented + 1);
        } else {
          result := result.(npciWasted := result.npciWasted + 1);
        }
      }
      if o.action == DoNothing {
        result := result.(doNothing := result.doNothing + 1);
        return;
      }
      result := result.(interventions := result.interventions + 1,
                        expectedRecovery := result.expectedRecovery + o.expectedRecovery,
                        expectedIncremental := result.expectedIncremental + Truncate(o.uplift * e.amount as real),
                        interventionCost := result.interventionCost + o.cost,
                        discountCost := result.discountCost + o.discountCost);
      if Catalog(o.action).consumesContact {
        result := result.(contacts := result.contacts + 1);
      }
      if o.verdict == RequireApproval {
        result := result.(approvals := result.approvals + 1);
      }
    }

    method CountBlocked()
      modifies this
      ensures result == old(result).(blocked := old(result).blocked + 1)
    {
      result := result.(blocked := result.blocked + 1);
    }
  }

  // ------------------------------------------------------------------- under a policy

  function FreshBudget(e: Event): BudgetState {
    BudgetState(0, 0, 0, 0, None, false, 0, None, Some(e.rootCause))
  }

  function GateFor(s: Scored, spec: PolicySpec, now: Time): ActionGate {
    PolicyGate(spec, s.event, s.customer, FreshBudget(s.event), s.degraded, now)
  }

  function PolicyInputsFor(s: Scored, spec: PolicySpec): Inputs {
    Inputs(s.event, s.customer, s.organic, s.perAction, s.event.priorContacts, spec.maxContacts, s.degraded,
           spec.minConfidence, spec.minExpectedValue, spec.maxDiscountPct, s.learned)
  }

  function DecisionFor(s: Scored, spec: PolicySpec, now: Time): Outcome {
    Decide(PolicyInputsFor(s, spec), GateFor(s, spec, now))
  }

  predicate AllBlocked(options: seq<ActionOption>) {
    forall i :: 0 <= i < |options| && options[i].action != DoNothing ==> options[i].verdict == Block
  }

  /** What the simulation promises about its counters, after `book`. */
  ghost predicate Conserved(r: Result, book: seq<Scored>) {
    && r.events == |book|
    && r.interventions + r.doNothing == r.events
    && MixAddsUp(r.mix, r.events)
    && r.revenueAtRisk == AtRiskTotal(book)
    && r.blocked <= r.doNothing
    && r.contacts <= r.interventions && r.approvals <= r.interventions
  }

  function AtRiskTotal(book: seq<Scored>): int {
    if book == [] then 0 else AtRiskTotal(book[..|book| - 1]) + book[|book| - 1].event.amount
  }

  lemma {:induction false} MixGrows(mix: map<ActionType, nat>, action: ActionType, actions: seq<ActionType>)
    requires forall i, k :: 0 <= i < k < |actions| ==> actions[i] != actions[k]
    ensures MixTotal(mix[action := InMix(mix, action) + 1], actions)
            == MixTotal(mix, actions) + (if action in actions then 1 else 0)
  {
    if actions != [] {
      MixGrows(mix, action, actions[1..]);
      assert actions == [actions[0]] + actions[1..];
    }
  }

  function Place(a: ActionType): nat {
    match a
    case DoNothing => 0
    case RetryPayment => 1
    case PaymentLink => 2
    case AltPaymentMethod => 3
    case WhatsApp => 4
    case Sms => 5
    case Email => 6
    case Voice => 7
    case Discount => 8
    case HumanEscalation => 9
    case PromiseFollowup => 10
    case ReregisterMandate => 11
    case AmendMandateCap => 12
    case SendPdn => 13
    case SwitchRail => 14
  }

  /** The fifteen actions, each once. */
  lemma AllActionsEachOnce()
    ensures EachOnce(ALL_ACTIONS)
  {
    forall a: ActionType ensures a in ALL_ACTIONS {
      assert ALL_ACTIONS[Place(a)] == a;
    }
    forall i, k | 0 <= i < k < |ALL_ACTIONS| ensures ALL_ACTIONS[i] != ALL_ACTIONS[k] {
      assert Place(ALL_ACTIONS[i]) == i && Place(ALL_ACTIONS[k]) == k;
    }
  }

  lemma MixRecorded(mix: map<ActionType, nat>, action: ActionType, n: nat)
    requires MixAddsUp(mix, n)
    ensures MixAddsUp(mix[action := InMix(mix, action) + 1], n + 1)
  {
    forall actions | EachOnce(actions) ensures MixTotal(mix[action := InMix(mix, action) + 1], actions) == n + 1 {
      MixGrows(mix, action, actions);
    }
  }

  lemma RecordConserves(r: Result, book: seq<Scored>, s: Scored, o: ActionOption, blocked: bool)
    requires Conserved(r, book) && (blocked ==> o.action == DoNothing)
    ensures var r1 := if blocked then r.(blocked := r.blocked + 1) else r;
            Conserved(Recorded(r1, o, s.event), book + [s])
  {
    MixRecorded(r.mix, o.action, r.events);
    assert (book + [s])[..|book|] == book;
  }

  /** When every action is blocked nothing is chosen. */
  lemma NothingLeftToChoose(s: Scored, spec: PolicySpec, now: Time)
    ensures AllBlocked(DecisionFor(s, spec, now).options) ==> DecisionFor(s, spec, now).chosen.action == DoNothing
    ensures DecisionFor(s, spec, now).chosen.action != DoNothing ==> DecisionFor(s, spec, now).chosen.verdict != Block
  {
    var inputs, gate := PolicyInputsFor(s, spec), GateFor(s, spec, now);
    var d := Decide(inputs, gate);
    DecideIsOptimal(inputs, gate);
    if d.chosen.action != DoNothing {
      var i :| IsBestAt(Options(inputs, gate), i, d.chosen, inputs.minExpectedValue, inputs.minConfidence);
      assert d.chosen in Options(inputs, gate);
      RankMembers(Options(inputs, gate));
      assert d.chosen in d.options;
      var k :| 0 <= k < |d.options| && d.options[k] == d.chosen;
    }
  }

  /** The chosen action carries the verdict the gate gave it. */
  lemma ChosenIsGated(inputs: Inputs, gate: ActionGate)
    ensures var chosen := Decide(inputs, gate).chosen;
            chosen.action != DoNothing ==>
              chosen.verdict == AskGate(gate, chosen.action, Offer(inputs, chosen.action)).verdict
  {
    DecideIsOptimal(inputs, gate);
    var chosen := Decide(inputs, gate).chosen;
    if chosen.action != DoNothing {
      var i: nat :| IsBestAt(Options(inputs, gate), i, chosen, inputs.minExpectedValue, inputs.minConfidence);
      assert chosen == Price(inputs, AllowedActions(inputs.event.kind)[i], gate);
    }
  }

  /** A retry that cannot succeed is never chosen under a policy. */
  lemma NeverWasteful(s: Scored, spec: PolicySpec, now: Time)
    ensures !Wasteful(DecisionFor(s, spec, now).chosen.action, s.event)
  {
    var inputs := PolicyInputsFor(s, spec);
    NothingLeftToChoose(s, spec, now);
    ChosenIsGated(inputs, GateFor(s, spec, now));
    if RetryIsFutile(s.event.rootCause) { FutileIsBlocked(s, spec, now, Offer(inputs, RetryPayment)); }
  }

  lemma FutileIsBlocked(s: Scored, spec: PolicySpec, now: Time, discountPct: real)
    requires RetryIsFutile(s.event.rootCause)
    ensures AskGate(GateFor(s, spec, now), RetryPayment, discountPct).verdict == Block
  {
  }

  /** The result after one more event of the book and what was decided about it. */
  function AfterEvent(r: Result, s: Scored, outcome: Outcome): Result {
    Recorded(if AllBlocked(outcome.options) then r.(blocked := r.blocked + 1) else r, outcome.chosen, s.event)
  }

  ghost predicate SoundUnderPolicy(r: Result, book: seq<Scored>) {
    Conserved(r, book) && r.npciWasted == 0 && r.futilePrevented == 0
  }

  /** A decision that never wastes a presentation and idles when everything is blocked. */
  predicate Sane(s: Scored, outcome: Outcome) {
    (AllBlocked(outcome.options) ==> outcome.chosen.action == DoNothing) && !Wasteful(outcome.chosen.action, s.event)
  }

  lemma PolicyIsSane(s: Scored, spec: PolicySpec, now: Time)
    ensures Sane(s, DecisionFor(s, spec, now))
  {
    NothingLeftToChoose(s, spec, now);
    NeverWasteful(s, spec, now);
  }

  lemma RecordIsSound(r: Result, book: seq<Scored>, s: Scored, o: ActionOption, blocked: bool)
    requires SoundUnderPolicy(r, book) && (blocked ==> o.action == DoNothing) && !Wasteful(o.action, s.event)
    ensures SoundUnderPolicy(Recorded(if blocked then r.(blocked := r.blocked + 1) else r, o, s.event), book + [s])
  {
    RecordConserves(r, book, s, o, blocked);
  }

  lemma OneMore<T>(s: seq<T>, i: nat)
    requires i < |s|
    ensures s[..i] + [s[i]] == s[..i + 1] && s[..i + 1][..i] == s[..i]
  {
  }

  lemma Whole<T>(s: seq<T>)
    ensures s[..|s|] == s
  {
  }

  type Chooser = Scored -> Outcome

  function PolicyChooser(spec: PolicySpec, now: Time): Chooser {
    (s: Scored) => DecisionFor(s, spec, now)
  }

  /** The result of a book, event by event, whoever decides. */
  function Simulated(book: seq<Scored>, choose: Chooser): Result {
    if book == [] then NOTHING_YET
    else
      var s := book[|book| - 1];
      AfterEvent(Simulated(book[..|book| - 1], choose), s, choose(s))
  }

  lemma {:induction false} SimulatedIsSound(book: seq<Scored>, choose: Chooser)
    requires forall s :: Sane(s, choose(s))
    ensures SoundUnderPolicy(Simulated(book, choose), book)
  {
    if book == [] {
      EmptyIsConserved(NOTHING_YET, book);
    } else {
      var n := |book| - 1;
      var outcome := choose(book[n]);
      SimulatedIsSound(book[..n], choose);
      assert Sane(book[n], outcome);
      RecordIsSound(Simulated(book[..n], choose), book[..n], book[n], outcome.chosen, AllBlocked(outcome.options));
      assert book[..n] + [book[n]] == book;
    }
  }

  method SimulateEvent(tally: Tally, s: Scored, outcome: Outcome)
    modifies tally
    ensures tally.result == AfterEvent(old(tally.result), s, outcome)
  {
    if AllBlocked(outcome.options) {
      tally.CountBlocked();
    }
    tally.Record(outcome.chosen, s.event);
  }

  method SimulateBook(book: seq<Scored>, choose: Chooser) returns (r: Result)
    ensures r == Simulated(book, choose)
  {
    var tally := new Tally();
    var i := 0;
    while i < |book|
      invariant 0 <= i <= |book|
      invariant tally.result == Simulated(book[..i], choose)
    {
      OneMore(book, i);
      SimulateEvent(tally, book[i], choose(book[i]));
      i := i + 1;
    }
    Whole(book);
    r := tally.result;
  }

  /** Under every policy the counters add up to the book, and no presentation is wasted. As a
      blocked action is never chosen, none is ever counted as prevented either. */
  method Simulate(book: seq<Scored>, spec: PolicySpec, now: Time) returns (r: Result)
    ensures Conserved(r, book)
    ensures r.npciWasted == 0 && r.futilePrevented == 0
  {
    var choose := PolicyChooser(spec, now);
    forall s ensures Sane(s, choose(s)) { PolicyIsSane(s, spec, now); }
    r := SimulateBook(book, choose);
    SimulatedIsSound(book, choose);
  }

  lemma EmptyIsConserved(r: Result, book: seq<Scored>)
    requires r == NOTHING_YET && |book| == 0
    ensures SoundUnderPolicy(r, book)
  {
    forall actions ensures MixTotal(r.mix, actions) == 0 { MixOfNothing(r.mix, actions); }
  }

  lemma {:induction false} MixOfNothing(mix: map<ActionType, nat>, actions: seq<ActionType>)
    requires mix == map[]
    ensures MixTotal(mix, actions) == 0
  {
    if actions != [] { MixOfNothing(mix, actions[1..]); }
  }

  // ------------------------------------------------------------- the legacy workflow

  function LegacyInputs(s: Scored, spec: PolicySpec): Inputs {
    var action := LegacyAction(s.event.kind);
    var scored := if action in s.perAction then map[action := s.perAction[action]] else map[];
    Inputs(s.event, s.customer, s.organic, scored, s.event.priorContacts, spec.maxContacts, s.degraded,
           0.0, -1_000_000_000_000, spec.maxDiscountPct, map[])
  }

  /** Events whose cause a retry cannot cure and that the legacy workflow retries. */
  predicate RetriedInVain(e: Event) {
    (e.kind == PaymentFailure || e.kind == SubscriptionFailure) && RetryIsFutile(e.rootCause)
  }

  function VainRetries(book: seq<Scored>): nat {
    if book == [] then 0
    else VainRetries(book[..|book| - 1]) + (if RetriedInVain(book[|book| - 1].event) then 1 else 0)
  }

  function EmailsTo(book: seq<Scored>): nat {
    if book == [] then 0
    else EmailsTo(book[..|book| - 1]) + (if LegacyAction(book[|book| - 1].event.kind) == Email then 1 else 0)
  }

  lemma {:induction false} FindsAction(options: seq<ActionOption>, action: ActionType)
    requires exists i :: 0 <= i < |options| && options[i].action == action
    ensures var o := FindAction(options, action);
            o.Some? && o.value.action == action && o.value in options
  {
    if options[0].action != action {
      var i :| 0 <= i < |options| && options[i].action == action;
      assert options[1..][i - 1] == options[i];
      FindsAction(options[1..], action);
    }
  }

  /** The legacy action is always among the options, and nothing stops it. */
  lemma LegacyOptionExists(s: Scored, spec: PolicySpec)
    ensures var o := LegacyOption(s, spec);
            o.Some? && o.value.action == LegacyAction(s.event.kind) && o.value.verdict == Allow
  {
    var options, action := Options(LegacyInputs(s, spec), OpenGate), LegacyAction(s.event.kind);
    LegacyActionIsPriced(s, spec);
    RankMembers(options);
    RankedFinds(options, action);
    NothingIsGated(LegacyInputs(s, spec), FindAction(Rank(options), action).value);
  }

  lemma LegacyActionIsPriced(s: Scored, spec: PolicySpec)
    ensures var options := Options(LegacyInputs(s, spec), OpenGate);
            exists i :: 0 <= i < |options| && options[i].action == LegacyAction(s.event.kind)
  {
    var k := if LegacyAction(s.event.kind) == RetryPayment then 0 else if s.event.kind == CartAbandonment then 3 else 1;
    var options := Options(LegacyInputs(s, spec), OpenGate);
    assert AllowedActions(s.event.kind)[k] == LegacyAction(s.event.kind);
    assert options[k].action == LegacyAction(s.event.kind);
  }

  lemma RankedFinds(options: seq<ActionOption>, action: ActionType)
    requires exists i :: 0 <= i < |options| && options[i].action == action
    requires forall o :: o in Rank(options) <==> o in options
    ensures var o := FindAction(Rank(options), action);
            o.Some? && o.value.action == action && o.value in options
  {
    var i :| 0 <= i < |options| && options[i].action == action;
    assert options[i] in Rank(options);
    var k :| 0 <= k < |Rank(options)| && Rank(options)[k] == options[i];
    FindsAction(Rank(options), action);
  }

  lemma NothingIsGated(inputs: Inputs, o: ActionOption)
    requires o in Options(inputs, OpenGate)
    ensures o.verdict == Allow
  {
    var p :| 0 <= p < |Options(inputs, OpenGate)| && Options(inputs, OpenGate)[p] == o;
    assert o == Price(inputs, AllowedActions(inputs.event.kind)[p], OpenGate);
  }

  function LegacyOption(s: Scored, spec: PolicySpec): Option<ActionOption> {
    FindAction(Decide(LegacyInputs(s, spec), OpenGate).options, LegacyAction(s.event.kind))
  }

  ghost predicate SoundLegacy(r: Result, book: seq<Scored>) {
    && Conserved(r, book)
    && r.doNothing == 0 && r.approvals == 0 && r.blocked == 0 && r.futilePrevented == 0
    && r.npciWasted == VainRetries(book) && r.contacts == EmailsTo(book)
  }

  lemma LegacyIsSound(r: Result, book: seq<Scored>, s: Scored, o: ActionOption)
    requires SoundLegacy(r, book) && o.action == LegacyAction(s.event.kind) && o.verdict == Allow
    ensures SoundLegacy(Recorded(r, o, s.event), book + [s])
  {
    RecordConserves(r, book, s, o, false);
    assert (book + [s])[..|book|] == book;
  }

  function AfterLegacy(r: Result, s: Scored, spec: PolicySpec): Result {
    var option := LegacyOption(s, spec);
    if option.Some? then Recorded(r, option.value, s.event) else r
  }

  lemma AfterLegacyIsSound(r: Result, book: seq<Scored>, s: Scored, spec: PolicySpec)
    requires SoundLegacy(r, book)
    ensures SoundLegacy(AfterLegacy(r, s, spec), book + [s])
  {
    LegacyOptionExists(s, spec);
    LegacyIsSound(r, book, s, LegacyOption(s, spec).value);
  }

  /** The result of a book under the legacy workflow, event by event. */
  function LegacySimulated(book: seq<Scored>, spec: PolicySpec): Result {
    if book == [] then NOTHING_YET
    else AfterLegacy(LegacySimulated(book[..|book| - 1], spec), book[|book| - 1], spec)
  }

  lemma EmptyIsLegacy(r: Result, book: seq<Scored>)
    requires r == NOTHING_YET && |book| == 0
    ensures SoundLegacy(r, book)
  {
    EmptyIsConserved(r, book);
  }

  lemma {:induction false} LegacySimulatedIsSound(book: seq<Scored>, spec: PolicySpec)
    ensures SoundLegacy(LegacySimulated(book, spec), book)
  {
    if book == [] {
      EmptyIsLegacy(NOTHING_YET, book);
    } else {
      var n := |book| - 1;
      LegacySimulatedIsSound(book[..n], spec);
      AfterLegacyIsSound(LegacySimulated(book[..n], spec), book[..n], book[n], spec);
      assert book[..n] + [book[n]] == book;
    }
  }

  method LegacyBook(book: seq<Scored>, spec: PolicySpec) returns (r: Result)
    ensures r == LegacySimulated(book, spec)
  {
    var tally := new Tally();
    var i := 0;
    while i < |book|
      invariant 0 <= i <= |book|
      invariant tally.result == LegacySimulated(book[..i], spec)
    {
      OneMore(book, i);
      var option := LegacyOption(book[i], spec);
      LegacyOptionExists(book[i], spec);
      tally.Record(option.value, book[i].event);
      i := i + 1;
    }
    Whole(book);
    r := tally.result;
  }

  /** The legacy workflow acts on every event whatever it costs, asks nobody, and wastes exactly
      the presentations that cannot succeed. */
  method SimulateLegacy(book: seq<Scored>, spec: PolicySpec) returns (r: Result)
    ensures Conserved(r, book)
    ensures r.interventions == |book| && r.doNothing == 0 && r.approvals == 0 && r.blocked == 0
    ensures r.npciWasted == VainRetries(book) && r.futilePrevented == 0
    ensures r.contacts == EmailsTo(book)
  {
    r := LegacyBook(book, spec);
    LegacySimulatedIsSound(book, spec);
  }
}
