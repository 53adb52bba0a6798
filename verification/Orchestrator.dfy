/** The recovery loop over the whole book: scanning opens journeys, ticking advances them, and
    people approve, reject, pause, resume or stop them in between. */
module Orchestrator {
  import opened Domain
  import opened Rows
  import opened Policy
  import opened Decision
  import opened Journey
  import opened Gateway
  import opened Ledger
  import opened Recovery
  import KeyStore

  const DUST_FLOOR: nat := 200_00
  const CONTROL_SETTLE_SECONDS: nat := 8 * 3600

  /** The tables, the key store, the gateway, and every gateway call made so far. */
  datatype World = World(
    customers: CustomerTable,
    events: EventTable,
    mandates: MandateTable,
    journeys: seq<Journey>,
    keys: Keys,
    gw: Simulator,
    trace: seq<GatewayCall>,
    ledger: seq<LedgerEntry>,
    clock: Time)

  // ---------------------------------------------------------------- one journey's cell

  predicate RowsExist(w: World, id: JourneyId) {
    && id < |w.journeys| && w.journeys[id].event < |w.events|
    && w.events[w.journeys[id].event].customer < |w.customers|
  }

  function MandateRow(w: World, ev: Event): Option<Mandate> {
    if ev.mandate.Some? && ev.mandate.value < |w.mandates| then Some(w.mandates[ev.mandate.value]) else None
  }

  function EventOf(w: World, id: JourneyId): Event
    requires RowsExist(w, id)
  {
    w.events[w.journeys[id].event]
  }

  function CellOf(w: World, id: JourneyId): Cell
    requires RowsExist(w, id)
  {
    var ev := EventOf(w, id);
    Cell(w.journeys[id], ev, MandateRow(w, ev), w.keys, w.gw, w.trace, w.ledger)
  }

  function WithCell(w: World, id: JourneyId, c: Cell): World
    requires RowsExist(w, id)
  {
    var ev := EventOf(w, id);
    w.(journeys := w.journeys[id := c.j],
       events := w.events[w.journeys[id].event := c.ev],
       mandates := if c.mandate.Some? && ev.mandate.Some? && ev.mandate.value < |w.mandates|
                   then w.mandates[ev.mandate.value := c.mandate.value] else w.mandates,
       keys := c.keys, gw := c.gw, trace := c.trace, ledger := c.ledger)
  }

  // ------------------------------------------------------------------------- ticking

  /** What a tick is given: the policy, the clock, the routes found degraded and the keys that
      the outside world has paid. */
  datatype TickEnv = TickEnv(spec: PolicySpec, now: Time, degraded: set<string>, paid: Paid, speedup: real)

  function TurnEnv(w: World, t: TickEnv, id: JourneyId): Env
    requires RowsExist(w, id)
  {
    var ev := EventOf(w, id);
    Env(id, t.spec, t.now, w.customers[ev.customer], ev.route in t.degraded, t.paid, t.speedup,
        OrganicRates(w.events))
  }

  /** A run of steps, or the state reached when one of them raised. */
  datatype Run = Run(w: World, raised: bool)

  function AdvanceOne(w: World, t: TickEnv, id: JourneyId): Run {
    if !RowsExist(w, id) then Run(w, false)
    else
      match Advance(CellOf(w, id), TurnEnv(w, t, id))
      case Some(c) => Run(WithCell(w, id, c), false)
      case None => Run(w, true)
  }

  function AdvanceAll(w: World, t: TickEnv, ids: seq<JourneyId>): Run
    decreases |ids|
  {
    if ids == [] then Run(w, false)
    else
      var r := AdvanceOne(w, t, ids[0]);
      if r.raised then r else AdvanceAll(r.w, t, ids[1..])
  }

  predicate Settles(e: Event, t: TickEnv) {
    && !e.training && e.cohort == Control && (e.status == AtRisk || e.status == Suppressed)
    && e.occurredAt < t.now - Scaled(CONTROL_SETTLE_SECONDS, t.speedup)
  }

  function SettleOne(w: World, t: TickEnv, id: EventId): World
    requires id < |w.events|
  {
    var e := w.events[id];
    var (gw, paid) := FetchAt(w.gw, ControlKey(id), t.paid);
    var settled := e.(status := if paid then Recovered else Lost, appliedAction := Some(DoNothing),
                      recoveredAmount := if paid then e.amount else e.recoveredAmount);
    w.(events := w.events[id := settled], gw := gw, trace := w.trace + [FetchCall(ControlKey(id), id, paid)])
  }

  /** Resolve the holdout events that have aged, from row `from` on. */
  function SettleFrom(w: World, t: TickEnv, from: nat): World
    decreases |w.events| - from
  {
    if from >= |w.events| then w
    else SettleFrom(if Settles(w.events[from], t) then SettleOne(w, t, from) else w, t, from + 1)
  }

  predicate Stale(j: Journey, t: TickEnv) {
    Open(j) && j.createdAt < t.now - (t.spec.journeyTtlHours * HOUR as real).Floor
  }

  function ExpireCell(c: Cell, now: Time): Option<Cell> {
    var expired :- Move(c.j, Expired, now);
    Close(c.(j := expired, ev := c.ev.(status := Lost)), now)
  }

  function ExpireOne(w: World, t: TickEnv, id: JourneyId): Run {
    if !RowsExist(w, id) then Run(w, false)
    else
      match ExpireCell(CellOf(w, id), t.now)
      case Some(c) => Run(WithCell(w, id, c), false)
      case None => Run(w, true)
  }

  function ExpireFrom(w: World, t: TickEnv, from: nat): Run
    decreases |w.journeys| - from
  {
    if from >= |w.journeys| then Run(w, false)
    else if !Stale(w.journeys[from], t) then ExpireFrom(w, t, from + 1)
    else
      var r := ExpireOne(w, t, from);
      if r.raised || |r.w.journeys| != |w.journeys| then r else ExpireFrom(r.w, t, from + 1)
  }

  function TickBody(w: World, t: TickEnv, due: seq<JourneyId>): Run {
    var r := AdvanceAll(w.(clock := t.now), t, due);
    if r.raised then r else ExpireFrom(SettleFrom(r.w, t, 0), t, 0)
  }

  /** The session is rolled back, so the tables are as they were; the key store and the outside
      world are not. */
  function RolledBack(before: World, reached: World): World {
    before.(keys := reached.keys, gw := reached.gw, trace := reached.trace, clock := reached.clock)
  }

  function Tick(w: World, t: TickEnv, due: seq<JourneyId>): Run {
    if !t.spec.automationEnabled then Run(w.(clock := t.now), false)
    else
      var r := TickBody(w, t, due);
      if r.raised then Run(RolledBack(w, r.w), true) else r
  }

  // ------------------------------------------------------------------------ scanning

  /** What the planning agents contribute for one event: the diagnosed cause, the predicted
      probabilities and the learned rates. */
  datatype Facts = Facts(cause: RootCause, organic: real, perAction: map<ActionType, real>,
                         learned: map<ActionType, real>)

  datatype ScanEnv = ScanEnv(spec: PolicySpec, now: Time, degraded: set<string>, facts: seq<Facts>, speedup: real)

  datatype Finding = NotWorthIt | HeldOut | NothingToDo | Gated | Collision | Started(journey: JourneyId)

  predicate WorthPursuing(e: Event, c: Customer, spec: PolicySpec) {
    && e.status != Recovered
    && e.amount >= DUST_FLOOR
    && !(c.optedOut && e.retryCount >= spec.maxRetries)
  }

  /** The budget a scan starts from. It is taken before the investigator runs, so the cause in
      it is the one diagnosed earlier, not the one this scan is about to find. */
  function ScanBudget(w: World, e: Event, spec: PolicySpec): BudgetState {
    var m := MandateRow(w, e);
    BudgetState(0, 0, 0, 0, None, spec.paused, if m.Some? then m.value.attemptsUsed else 0,
                if m.Some? then m.value.lastPdnSentAt else None, Some(e.rootCause))
  }

  function Diagnosed(e: Event, f: Facts): Event {
    e.(rootCause := f.cause, organicProbability := f.organic)
  }

  predicate Scannable(w: World, s: ScanEnv, id: EventId) {
    id < |w.events| && id < |s.facts| && w.events[id].customer < |w.customers|
  }

  function DecisionInputs(e: Event, c: Customer, s: ScanEnv, f: Facts): Inputs {
    Inputs(e, c, f.organic, f.perAction, e.priorContacts, s.spec.maxContacts, e.route in s.degraded,
           s.spec.minConfidence, s.spec.minExpectedValue, s.spec.maxDiscountPct, f.learned)
  }

  function DecisionGate(e: Event, c: Customer, s: ScanEnv, budget: BudgetState): ActionGate {
    PolicyGate(s.spec, e, c, budget, e.route in s.degraded, s.now)
  }

  function Assess(w: World, s: ScanEnv, id: EventId): Outcome
    requires Scannable(w, s, id)
  {
    var e, c := Diagnosed(w.events[id], s.facts[id]), w.customers[w.events[id].customer];
    Decide(DecisionInputs(e, c, s, s.facts[id]), DecisionGate(e, c, s, ScanBudget(w, w.events[id], s.spec)))
  }

  function OptionDiscount(options: seq<ActionOption>, action: ActionType): real {
    var o := FindAction(options, action);
    if o.Some? then o.value.discountPct else 0.0
  }

  function StartEnv(w: World, s: ScanEnv, id: EventId): Env
    requires Scannable(w, s, id)
  {
    Env(|w.journeys|, s.spec, s.now, w.customers[w.events[id].customer], w.events[id].route in s.degraded,
        {}, s.speedup, OrganicRates(w.events))
  }

  /** The journey row once its first step is scheduled. */
  function OpenedJourney(w: World, s: ScanEnv, id: EventId, e: Event, plan: seq<PlanStep>,
                         discountPct: real): Option<Journey>
    requires Scannable(w, s, id) && plan != []
  {
    var analyzing :- Move(NewJourney(id, e.customer, plan, s.now), Analyzing, s.now);
    var planned :- Move(analyzing, JPlanned, s.now);
    Schedule(planned, e, StartEnv(w, s, id), ScanBudget(w, w.events[id], s.spec), 0, discountPct)
  }

  function ClaimedKeys(keys: Keys, customer: CustomerId, id: JourneyId, now: Time): Keys {
    KeyStore.SetIfAbsent(KeyStore.Delete(keys, CustomerLock(customer)), CustomerLock(customer),
                         ByJourney(id), CUSTOMER_LOCK_TTL, now).0
  }

  /** Claim the customer and, if that succeeds, open the journey and re-point the claim to it. */
  function ClaimAndStart(w: World, s: ScanEnv, id: EventId, e: Event, outcome: Outcome): (World, Finding)
    requires Scannable(w, s, id) && outcome.plan != []
  {
    var lock := CustomerLock(e.customer);
    var (keys, claimed) := KeyStore.SetIfAbsent(w.keys, lock, PendingOwner, CUSTOMER_LOCK_TTL, s.now);
    if !claimed then
      (w.(events := w.events[id := e], keys := KeyStore.Get(keys, lock, s.now).0), Collision)
    else
      var recovering := e.(status := InRecovery);
      var discount := OptionDiscount(outcome.options, outcome.plan[0].action);
      match OpenedJourney(w, s, id, recovering, outcome.plan, discount)
      case None => (w, Gated)
      case Some(j) =>
        (w.(events := w.events[id := recovering], journeys := w.journeys + [j],
            keys := ClaimedKeys(keys, e.customer, |w.journeys|, s.now)),
         Started(|w.journeys|))
  }

  /** What a scan does about an event it has diagnosed and decided on. */
  function ActOn(w: World, s: ScanEnv, id: EventId, d: Event, outcome: Outcome): (World, Finding)
    requires Scannable(w, s, id) && (outcome.chosen.action != DoNothing ==> outcome.plan != [])
  {
    if d.cohort == Control then (w.(events := w.events[id := d]), HeldOut)
    else if outcome.chosen.action == DoNothing then
      (w.(events := w.events[id := d.(status := Suppressed)]), NothingToDo)
    else if outcome.chosen.verdict == Block then
      (w.(events := w.events[id := d.(status := Suppressed)]), Gated)
    else ClaimAndStart(w, s, id, d, outcome)
  }

  function ScanOne(w: World, s: ScanEnv, id: EventId): (World, Finding)
    requires Scannable(w, s, id)
  {
    var e := w.events[id];
    if !WorthPursuing(e, w.customers[e.customer], s.spec) then
      (w.(events := w.events[id := e.(status := Suppressed)]), NotWorthIt)
    else ActOn(w, s, id, Diagnosed(e, s.facts[id]), Assess(w, s, id))
  }

  /** The events of one scan in order, and what was found for each. */
  function ScanAll(w: World, s: ScanEnv, ids: seq<EventId>): (World, seq<Finding>)
    decreases |ids|
  {
    if ids == [] then (w, [])
    else if !Scannable(w, s, ids[0]) then ScanAll(w, s, ids[1..])
    else
      var (w1, finding) := ScanOne(w, s, ids[0]);
      var (w2, findings) := ScanAll(w1, s, ids[1..]);
      (w2, [finding] + findings)
  }

  function Scan(w: World, s: ScanEnv, ids: seq<EventId>): (World, seq<Finding>) {
    ScanAll(w.(clock := s.now), s, ids)
  }

  predicate Claimed(w: World, id: EventId) {
    exists k :: 0 <= k < |w.journeys| && Open(w.journeys[k]) && w.journeys[k].event == id
  }

  /** The live events a scan may look at: at risk, and not owned by an open journey. */
  predicate Unclaimed(w: World, id: EventId) {
    id < |w.events| && !w.events[id].training && w.events[id].status == AtRisk && !Claimed(w, id)
  }

  // ------------------------------------------------------------------ human decisions

  predicate AwaitsApproval(w: World, id: JourneyId) {
    id < |w.journeys| && w.journeys[id].actions != [] && Last(w.journeys[id]).status == AwaitingApproval
  }

  /** Approving an action in the queue. Its journey may have been closed in the meantime. */
  function ApproveRow(j: Journey, now: Time): Journey
    requires j.actions != []
  {
    var approved := WithLast(j, Last(j).(status := Approved, scheduledAt := now));
    var moved := if j.state == JAwaitingApproval then Move(approved, JApproved, now) else Some(approved);
    match moved
    case Some(k) => k.(nextActionAt := Some(now))
    case None => j
  }

  function Approve(w: World, id: JourneyId, now: Time): World
    requires AwaitsApproval(w, id)
  {
    w.(journeys := w.journeys[id := ApproveRow(w.journeys[id], now)], clock := now)
  }

  function RejectCell(c: Cell, now: Time): Option<Cell>
    requires c.j.actions != []
  {
    var cancelled := WithLast(c.j, Last(c.j).(status := Cancelled));
    var blocked :- Move(cancelled, JBlocked, now);
    Close(c.(j := blocked, ev := c.ev.(status := Suppressed)), now)
  }

  function StopCell(c: Cell, now: Time): Option<Cell> {
    var blocked :- if IsTerminal(c.j.state) then Some(c.j) else Move(c.j, JBlocked, now);
    Close(c.(j := blocked), now)
  }

  function PauseCell(c: Cell, now: Time): Option<Cell> {
    var paused :- Move(c.j, Paused, now);
    Some(c.(j := paused.(nextActionAt := None)))
  }

  function ResumeCell(c: Cell, now: Time): Option<Cell> {
    var target := if c.j.actions != [] && Last(c.j).status == Approved then JApproved else JPlanned;
    var resumed :- Move(c.j, target, now);
    Some(c.(j := resumed.(nextActionAt := Some(now))))
  }

  datatype Command = Reject | Stop | Pause | Resume

  function CommandCell(c: Cell, command: Command, now: Time): Option<Cell>
    requires c.j.actions != []
  {
    match command
    case Reject => RejectCell(c, now)
    case Stop => StopCell(c, now)
    case Pause => PauseCell(c, now)
    case Resume => ResumeCell(c, now)
  }

  function Apply(w: World, id: JourneyId, command: Command, now: Time): Run {
    if !RowsExist(w, id) || w.journeys[id].actions == [] then Run(w, true)
    else
      match CommandCell(CellOf(w, id), command, now)
      case Some(c) => Run(WithCell(w, id, c).(clock := now), false)
      case None => Run(w.(clock := now), true)
  }
}
