/** One journey's turn: what executor, verifier and orchestrator do to the journey, its event,
    its mandate, the key store, the gateway and the ledger when the journey is due. A step that
    raises an invalid transition in the source is None here. */
module Recovery {
  import opened Domain
  import opened Rows
  import opened Policy
  import opened Decision
  import opened Journey
  import opened Gateway
  import opened Ledger
  import KeyStore

  const RESERVATION_TTL: int := 6 * HOUR
  const CUSTOMER_LOCK_TTL: int := 24 * HOUR

  datatype StoreKey = IdemKey(key: Key) | CustomerLock(customer: CustomerId)

  datatype Owner = PendingOwner | ByJourney(journey: JourneyId) | ByAction(action: JourneyId, sequence: nat)

  type Keys = KeyStore.Table<StoreKey, Owner>

  /** One call on the gateway, with the policy and the question the gate answered just before. */
  datatype GatewayCall =
    | ExecuteCall(key: Key, event: EventId, spec: PolicySpec, ask: Ask, answer: ExecuteAnswer)
    | FetchCall(key: Key, event: EventId, succeeded: bool)

  datatype Cell = Cell(
    j: Journey,
    ev: Event,
    mandate: Option<Mandate>,
    keys: Keys,
    gw: Simulator,
    trace: seq<GatewayCall>,
    ledger: seq<LedgerEntry>)

  /** What a turn reads but does not change. */
  datatype Env = Env(
    id: JourneyId,
    spec: PolicySpec,
    now: Time,
    customer: Customer,
    degraded: bool,
    paid: Paid,
    speedup: real,
    rates: CohortRates)

  // ------------------------------------------------------------------------- budget

  /** When this journey last contacted the customer: the latest execution of a contact. */
  function LastContact(actions: seq<Action>): Option<Time> {
    if actions == [] then None
    else
      var a, before := actions[|actions| - 1], LastContact(actions[..|actions| - 1]);
      if a.executedAt.None? || !Catalog(a.kind).consumesContact then before
      else if before.Some? && before.value >= a.executedAt.value then before
      else a.executedAt
  }

  function BudgetOf(j: Journey, ev: Event, spec: PolicySpec): BudgetState {
    BudgetState(j.contactsUsed, j.retriesUsed, j.discountsUsed, j.voiceUsed, LastContact(j.actions),
                j.state == Paused || spec.paused, j.npciAttemptsUsed, None, Some(ev.rootCause))
  }

  function AskAbout(env: Env, budget: BudgetState, ev: Event, action: ActionType, discountPct: real): Ask {
    Ask(action, ev, env.customer, budget, discountPct, env.degraded, env.now)
  }

  // ---------------------------------------------------------------------- scheduling

  function StatusAfterGate(v: Verdict): ActionStatus {
    match v case Block => Blocked case RequireApproval => AwaitingApproval case Allow => Planned
  }

  function ScheduledAction(env: Env, step: PlanStep, index: nat, discountPct: real, verdict: GateVerdict): Action {
    Action(step.action, index, StatusAfterGate(verdict.verdict), ActionKey(env.id, step.action, index),
           env.now + Scaled(step.delayMinutes * 60, env.speedup), None, Catalog(step.action).cost,
           discountPct, verdict.reasons, 0)
  }

  function Schedule(j: Journey, ev: Event, env: Env, budget: BudgetState, index: nat, discountPct: real): Option<Journey>
    requires index < |j.plan|
  {
    ScheduleUnder(j, env, index, discountPct,
                  Gate(env.spec, AskAbout(env, budget, ev, j.plan[index].action, discountPct)))
  }

  /** What the gate's answer makes of the next step: planned, waiting for a human, or blocked. */
  function ScheduleUnder(j: Journey, env: Env, index: nat, discountPct: real, verdict: GateVerdict): Option<Journey>
    requires index < |j.plan|
  {
    var action := ScheduledAction(env, j.plan[index], index, discountPct, verdict);
    var scheduled := j.(stepIndex := index, nextActionAt := Some(action.scheduledAt), actions := j.actions + [action]);
    match verdict.verdict
    case Block => Some(scheduled.(nextActionAt := Some(env.now)))
    case RequireApproval => Move(scheduled, JAwaitingApproval, env.now)
    case Allow => Some(scheduled)
  }

  // ------------------------------------------------------------------------- closing

  function Close(c: Cell, now: Time): Option<Cell> {
    var closed :- Move(c.j, Closed, now);
    Some(c.(j := closed, keys := KeyStore.Delete(c.keys, CustomerLock(c.j.customer))))
  }

  function GiveUp(c: Cell, now: Time): Option<Cell> {
    var failed :- Move(c.j, JFailed, now);
    Close(c.(j := failed, ev := c.ev.(status := Lost)), now)
  }

  function Replan(c: Cell, env: Env, budget: BudgetState): Option<Cell>
    requires c.j.stepIndex + 1 < |c.j.plan|
  {
    var planned :- Move(c.j, JPlanned, env.now);
    var scheduled :- Schedule(planned, c.ev, env, budget, c.j.stepIndex + 1, 0.0);
    Some(c.(j := scheduled))
  }

  function NextStepOrClose(c: Cell, env: Env, budget: BudgetState): Option<Cell> {
    if c.j.stepIndex + 1 < |c.j.plan| then Replan(c, env, budget) else GiveUp(c, env.now)
  }

  // ----------------------------------------------------------------------- executing

  function Last(j: Journey): Action
    requires j.actions != []
  {
    j.actions[|j.actions| - 1]
  }

  function WithLast(j: Journey, a: Action): Journey
    requires j.actions != []
  {
    j.(actions := j.actions[|j.actions| - 1 := a])
  }

  function SetLast(c: Cell, a: Action): Cell
    requires c.j.actions != []
  {
    c.(j := WithLast(c.j, a))
  }

  function Settled(succeeded: bool): GatewayStatus { if succeeded then GwSucceeded else GwFailed }

  function StatusAfterCall(s: GatewayStatus): ActionStatus {
    match s case GwSucceeded => Succeeded case GwFailed => Failed case GwPending => Executing
  }

  /** The call itself: an execute, followed by a state query if it timed out. */
  function CallGateway(c: Cell, env: Env, key: Key, ask: Ask): (Cell, GatewayStatus) {
    var (gw, answer) := ExecuteAt(c.gw, key, ask.action, env.paid);
    var called := c.(gw := gw, trace := c.trace + [ExecuteCall(key, c.j.event, env.spec, ask, answer)]);
    match answer
    case Answered(status) => (called, status)
    case TimedOut =>
      var (gw', succeeded) := FetchAt(gw, key, env.paid);
      (called.(gw := gw', trace := called.trace + [FetchCall(key, c.j.event, succeeded)]), Settled(succeeded))
  }

  /** Reserve the key, then call. A key held by another action cancels this one instead. */
  function Execute(c: Cell, env: Env, ask: Ask): (Cell, GatewayStatus)
    requires c.j.actions != []
  {
    var a := Last(c.j);
    var owner := ByAction(env.id, a.sequence);
    var (keys, reserved) := KeyStore.SetIfAbsent(c.keys, IdemKey(a.key), owner, RESERVATION_TTL, env.now);
    var (keys', holder) := if reserved then (keys, Some(owner)) else KeyStore.Get(keys, IdemKey(a.key), env.now);
    var c1 := c.(keys := keys');
    if holder != Some(owner) then
      (SetLast(c1, a.(status := Cancelled, reasons := [DuplicateAction])), GwFailed)
    else
      var (c2, status) := CallGateway(c1, env, a.key, ask);
      (SetLast(c2, a.(status := StatusAfterCall(status), executedAt := Some(env.now),
                      resolveAfterSeconds := if status == GwPending then ResolveDelay(a.kind) else 0)),
       status)
  }

  function BumpMandate(m: Option<Mandate>, action: ActionType, now: Time): Option<Mandate> {
    if m.None? then None
    else if action == RetryPayment then Some(m.value.(attemptsUsed := m.value.attemptsUsed + 1))
    else if action == SendPdn then Some(m.value.(lastPdnSentAt := Some(now)))
    else m
  }

  function One(b: bool): nat { if b then 1 else 0 }

  /** The budgets, the mandate ledger and the direct cost one execution consumes. */
  function Consume(c: Cell, a: Action, now: Time): Cell {
    var contact := One(Catalog(a.kind).consumesContact);
    var retry := One(a.kind == RetryPayment);
    c.(j := c.j.(contactsUsed := c.j.contactsUsed + contact,
                 retriesUsed := c.j.retriesUsed + retry,
                 discountsUsed := c.j.discountsUsed + One(a.kind == Discount),
                 voiceUsed := c.j.voiceUsed + One(a.kind == Voice),
                 npciAttemptsUsed := c.j.npciAttemptsUsed + retry,
                 cost := c.j.cost + a.cost),
       ev := c.ev.(contactsUsed := c.ev.contactsUsed + contact, recoveryCost := c.ev.recoveryCost + a.cost),
       mandate := BumpMandate(c.mandate, a.kind, now))
  }

  // ----------------------------------------------------------------------- verifying

  function DiscountPaise(amount: nat, pct: real): int {
    Truncate(amount as real * pct / 100.0)
  }

  function BookingCost(a: Action, amount: nat): int {
    Catalog(a.kind).cost + DiscountPaise(amount, a.discountPct)
  }

  function Book(c: Cell, env: Env): Cell
    requires c.j.actions != []
  {
    var a := Last(c.j);
    var gross := c.ev.amount - DiscountPaise(c.ev.amount, a.discountPct);
    var cost := BookingCost(a, c.ev.amount);
    c.(j := WithLast(c.j, a.(status := Succeeded)).(recoveredAmount := gross, cost := c.j.cost + cost),
       ev := c.ev.(status := Recovered, appliedAction := Some(a.kind), recoveredAmount := gross,
                   recoveryCost := c.ev.recoveryCost + cost),
       ledger := c.ledger + [Entry(c.j.event, c.ev, env.id, a.kind, gross, cost, env.rates)])
  }

  /** What the verifier learns about the last action: from its status, or by asking. */
  function Ascertain(c: Cell, env: Env): (Cell, GatewayStatus)
    requires c.j.actions != []
  {
    var a := Last(c.j);
    if a.status == Succeeded then (c, GwSucceeded)
    else if a.status == Failed then (c, GwFailed)
    else
      var since := if a.executedAt.Some? then a.executedAt.value else env.now;
      if env.now < since + Scaled(a.resolveAfterSeconds, env.speedup) then (c, GwPending)
      else
        var (gw, succeeded) := FetchAt(c.gw, a.key, env.paid);
        (c.(gw := gw, trace := c.trace + [FetchCall(a.key, c.j.event, succeeded)]), Settled(succeeded))
  }

  function CloseRecovered(booked: Cell, now: Time): Option<Cell> {
    var recovered :- Move(booked.j, JRecovered, now);
    Close(booked.(j := recovered), now)
  }

  function Conclude(c: Cell, env: Env): Option<Cell>
    requires c.j.actions != []
  {
    CloseRecovered(Book(c, env), env.now)
  }

  function Verify(c: Cell, env: Env, budget: BudgetState): Option<Cell>
    requires c.j.actions != []
  {
    var (c1, status) := Ascertain(c, env);
    match status
    case GwPending => Some(c1.(j := c1.j.(nextActionAt := Some(env.now + Scaled(600, env.speedup)))))
    case GwSucceeded => Conclude(c1, env)
    case GwFailed => NextStepOrClose(SetLast(c1, Last(c1.j).(status := Failed)), env, budget)
  }

  // ------------------------------------------------------------------- the whole turn

  function Hold(c: Cell, env: Env, verdict: GateVerdict): Option<Cell>
    requires c.j.actions != []
  {
    var held := WithLast(c.j, Last(c.j).(status := AwaitingApproval, reasons := verdict.reasons));
    var waiting :- Move(held, JAwaitingApproval, env.now);
    Some(c.(j := waiting.(nextActionAt := None)))
  }

  function CountFutile(c: Cell, reasons: seq<PolicyRule>): Cell {
    c.(j := c.j.(futilePrevented := c.j.futilePrevented + One(RetryFutile in reasons)))
  }

  function Refused(c: Cell, verdict: GateVerdict): Cell
    requires c.j.actions != []
  {
    CountFutile(SetLast(c, Last(c.j).(status := Blocked, reasons := verdict.reasons)), verdict.reasons)
  }

  function Refuse(c: Cell, env: Env, budget: BudgetState, verdict: GateVerdict): Option<Cell>
    requires c.j.actions != []
  {
    NextStepOrClose(Refused(c, verdict), env, budget)
  }

  /** Execute the last action and charge what it consumes. */
  function Charge(c: Cell, env: Env, ask: Ask): (Cell, GatewayStatus)
    requires c.j.actions != []
  {
    var (executed, status) := Execute(c, env, ask);
    (Consume(executed, Last(c.j), env.now), status)
  }

  /** Wait for the outcome, or verify the one that is known already. */
  function AwaitVerdict(c: Cell, env: Env, budget: BudgetState, status: GatewayStatus): Option<Cell>
    requires c.j.actions != []
  {
    var verifying :- Move(c.j, Verifying, env.now);
    if status == GwPending then
      var wait := if Last(verifying).resolveAfterSeconds == 0 then 900 else Last(verifying).resolveAfterSeconds;
      Some(c.(j := verifying.(nextActionAt := Some(env.now + Scaled(wait, env.speedup)))))
    else Verify(c.(j := verifying), env, budget)
  }

  function Perform(c: Cell, env: Env, budget: BudgetState, ask: Ask): Option<Cell>
    requires c.j.actions != []
  {
    var executing :- Move(c.j, JExecuting, env.now);
    var (charged, status) := Charge(c.(j := executing), env, ask);
    AwaitVerdict(charged, env, budget, status)
  }

  /** The question put to the gate immediately before execution. */
  function AskNow(c: Cell, env: Env): Ask
    requires c.j.actions != []
  {
    AskAbout(env, BudgetOf(c.j, c.ev, env.spec), c.ev, Last(c.j).kind, Last(c.j).discountPct)
  }

  function Due(c: Cell, env: Env): Option<Cell>
    requires c.j.actions != []
  {
    var ask := AskNow(c, env);
    var verdict := Gate(env.spec, ask);
    match verdict.verdict
    case RequireApproval => Hold(c, env, verdict)
    case Block => Refuse(c, env, ask.budget, verdict)
    case Allow => Perform(c, env, ask.budget, ask)
  }

  function SkipBlocked(c: Cell, env: Env): Option<Cell>
    requires c.j.actions != []
  {
    NextStepOrClose(CountFutile(c, Last(c.j).reasons), env, BudgetOf(c.j, c.ev, env.spec))
  }

  function Resolve(c: Cell, env: Env): Option<Cell>
    requires c.j.actions != []
  {
    var verifying :- Move(c.j, Verifying, env.now);
    Verify(c.(j := verifying), env, BudgetOf(c.j, c.ev, env.spec))
  }

  function Advance(c: Cell, env: Env): Option<Cell> {
    if c.j.actions == [] then Some(c.(j := c.j.(nextActionAt := None)))
    else
      var a := Last(c.j);
      match a.status
      case AwaitingApproval => Some(c.(j := c.j.(nextActionAt := None)))
      case Blocked => SkipBlocked(c, env)
      case Planned | Approved =>
        if a.scheduledAt > env.now then Some(c.(j := c.j.(nextActionAt := Some(a.scheduledAt))))
        else Due(c, env)
      case Executing | Succeeded | Failed | Cancelled | Skipped => Resolve(c, env)
  }
}
