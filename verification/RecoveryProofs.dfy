/** What every turn of a journey keeps, and what it may touch. */
module RecoveryProofs {
  import opened Domain
  import opened Rows
  import opened Policy
  import opened Decision
  import opened Journey
  import opened Gateway
  import opened Ledger
  import opened Recovery
  import KeyStore

  // ---------------------------------------------------------------------- invariants

  predicate PlanOk(plan: seq<PlanStep>) {
    && 1 <= |plan| <= 4
    && (forall i :: 0 <= i < |plan| ==> plan[i].action != DoNothing)
    && (forall i, k :: 0 <= i < k < |plan| ==> !(plan[i].action == RetryPayment && plan[k].action == RetryPayment))
  }

  predicate Finished(a: Action) { a.status == Failed || a.status == Blocked }

  predicate ExecutedOk(a: Action) {
    (a.executedAt.Some? <==> a.status in {Executing, Succeeded, Failed}) && a.status != Skipped
  }

  predicate ActionOk(id: JourneyId, plan: seq<PlanStep>, i: nat, a: Action)
    requires i < |plan|
  {
    && a.kind == plan[i].action && a.sequence == i && a.key == ActionKey(id, a.kind, i)
    && a.cost == Catalog(a.kind).cost
    && ExecutedOk(a)
  }

  /** Action i carries out step i of the plan; every action before the last one is finished. */
  predicate ActionsOk(id: JourneyId, j: Journey) {
    && 1 <= |j.actions| <= |j.plan|
    && j.stepIndex == |j.actions| - 1
    && (forall i :: 0 <= i < |j.actions| ==> ActionOk(id, j.plan, i, j.actions[i]))
    && (forall i :: 0 <= i < |j.actions| - 1 ==> Finished(j.actions[i]))
  }

  datatype Meter = ContactMeter | RetryMeter | OfferMeter | CallMeter

  predicate Ticks(meter: Meter, kind: ActionType) {
    match meter
    case ContactMeter => Catalog(kind).consumesContact
    case RetryMeter => kind == RetryPayment
    case OfferMeter => kind == Discount
    case CallMeter => kind == Voice
  }

  function Count(actions: seq<Action>, meter: Meter): nat {
    if actions == [] then 0
    else
      var a := actions[|actions| - 1];
      Count(actions[..|actions| - 1], meter) + One(a.executedAt.Some? && Ticks(meter, a.kind))
  }

  function CostOf(actions: seq<Action>): int {
    if actions == [] then 0
    else
      var a := actions[|actions| - 1];
      CostOf(actions[..|actions| - 1]) + if a.executedAt.Some? then a.cost else 0
  }

  /** The journey's counters are what its executed actions add up to. */
  predicate CountersOk(j: Journey) {
    && j.contactsUsed == Count(j.actions, ContactMeter)
    && j.retriesUsed == Count(j.actions, RetryMeter)
    && j.npciAttemptsUsed == Count(j.actions, RetryMeter)
    && j.discountsUsed == Count(j.actions, OfferMeter)
    && j.voiceUsed == Count(j.actions, CallMeter)
  }

  /** Journey and event agree on what the recovery cost. The action that recovers the money is
      charged twice: when it executes and again when the recovery is booked. */
  predicate MoneyOk(j: Journey, ev: Event)
    requires j.actions != []
  {
    && j.cost == CostOf(j.actions) + (if ev.status == Recovered then BookingCost(Last(j), ev.amount) else 0)
    && ev.recoveryCost == j.cost
    && ev.contactsUsed == j.contactsUsed
  }

  predicate Success(call: GatewayCall) {
    if call.FetchCall? then call.succeeded else call.answer == Answered(GwSucceeded)
  }

  ghost predicate Backed(trace: seq<GatewayCall>, key: Key) {
    exists i :: 0 <= i < |trace| && trace[i].key == key && Success(trace[i])
  }

  predicate OwnExecute(id: JourneyId, call: GatewayCall) {
    call.ExecuteCall? && call.key.ActionKey? && call.key.journey == id
  }

  /** An execute in the trace is the execution of the action whose key it carries. */
  predicate CallMatches(j: Journey, call: GatewayCall) {
    && call.ExecuteCall? && call.key.ActionKey?
    && call.key.sequence < |j.actions|
    && var a := j.actions[call.key.sequence];
       a.key == call.key && a.kind == call.ask.action && call.event == j.event
       && a.executedAt == Some(call.ask.now)
  }

  ghost predicate TraceOk(id: JourneyId, j: Journey, trace: seq<GatewayCall>) {
    && (forall i :: 0 <= i < |trace| && OwnExecute(id, trace[i]) ==> CallMatches(j, trace[i]))
    && (j.actions != [] && Last(j).status == Succeeded ==> Backed(trace, Last(j).key))
  }

  /** Only executed actions hold a reservation. */
  ghost predicate StoreOk(id: JourneyId, j: Journey, keys: Keys) {
    forall key :: IdemKey(key) in keys && key.ActionKey? && key.journey == id ==>
      key.sequence < |j.actions| && j.actions[key.sequence].key == key
      && j.actions[key.sequence].executedAt.Some?
  }

  ghost predicate Core(id: JourneyId, c: Cell) {
    && PlanOk(c.j.plan) && ActionsOk(id, c.j) && CountersOk(c.j) && MoneyOk(c.j, c.ev)
    && IsWalk(c.j.transitions, c.j.state)
    && TraceOk(id, c.j, c.trace) && StoreOk(id, c.j, c.keys)
    && c.gw.unresolved == {}
  }

  /** Journey, last action and event agree while the journey is open, and at its end. */
  predicate EventOk(j: Journey, ev: Event)
    requires j.actions != []
  {
    && ev.cohort == Treatment && ev.customer == j.customer
    && (Open(j) ==> ev.status == InRecovery && Last(j).status != Cancelled)
    && (!Open(j) ==> j.state == Closed && ev.status != AtRisk)
    && (Last(j).status == Succeeded <==> ev.status == Recovered)
  }

  predicate StateOk(j: Journey) {
    j.state in {JPlanned, JAwaitingApproval, JApproved, Verifying, Paused, Closed}
  }

  /** The states a journey rests in, and the last action each one goes with. */
  predicate Legal(j: Journey)
    requires j.actions != []
  {
    match j.state
    case JPlanned => Last(j).status == Planned || Last(j).status == Blocked
    case JAwaitingApproval => Last(j).status == AwaitingApproval
    case JApproved => Last(j).status == Approved
    case Verifying => Last(j).status == Executing
    case Closed => true
    case _ => false
  }

  ghost predicate CellOk(id: JourneyId, c: Cell) {
    Core(id, c) && EventOk(c.j, c.ev) && StateOk(c.j)
  }

  // ------------------------------------------------------------------ counting lemmas

  lemma CountSetLast(actions: seq<Action>, a: Action, meter: Meter)
    requires actions != [] && actions[|actions| - 1].kind == a.kind
    requires actions[|actions| - 1].executedAt.None?
    ensures Count(actions[|actions| - 1 := a], meter)
            == Count(actions, meter) + One(a.executedAt.Some? && Ticks(meter, a.kind))
  {
    var n := |actions| - 1;
    assert actions[n := a][..n] == actions[..n];
  }

  lemma CountSameLast(actions: seq<Action>, a: Action, meter: Meter)
    requires actions != [] && actions[|actions| - 1].kind == a.kind
    requires actions[|actions| - 1].executedAt.Some? == a.executedAt.Some?
    ensures Count(actions[|actions| - 1 := a], meter) == Count(actions, meter)
  {
    var n := |actions| - 1;
    assert actions[n := a][..n] == actions[..n];
  }

  lemma CountAppend(actions: seq<Action>, a: Action, meter: Meter)
    requires a.executedAt.None?
    ensures Count(actions + [a], meter) == Count(actions, meter)
  {
    assert (actions + [a])[..|actions|] == actions;
  }

  lemma CostSetLast(actions: seq<Action>, a: Action)
    requires actions != []
    ensures CostOf(actions[|actions| - 1 := a])
            == CostOf(actions)
               - (if actions[|actions| - 1].executedAt.Some? then actions[|actions| - 1].cost else 0)
               + (if a.executedAt.Some? then a.cost else 0)
  {
    var n := |actions| - 1;
    assert actions[n := a][..n] == actions[..n];
  }

  lemma CostAppend(actions: seq<Action>, a: Action)
    requires a.executedAt.None?
    ensures CostOf(actions + [a]) == CostOf(actions)
  {
    assert (actions + [a])[..|actions|] == actions;
  }

  lemma CountersSameLast(j: Journey, a: Action)
    requires j.actions != [] && CountersOk(j) && Last(j).kind == a.kind
    requires Last(j).executedAt.Some? == a.executedAt.Some?
    ensures CountersOk(WithLast(j, a))
  {
    CountSameLast(j.actions, a, ContactMeter);
    CountSameLast(j.actions, a, RetryMeter);
    CountSameLast(j.actions, a, OfferMeter);
    CountSameLast(j.actions, a, CallMeter);
  }

  // ---------------------------------------------------------------- pieces of a turn

  /** Everything that identifies a journey stays. */
  predicate SameJourney(j: Journey, k: Journey) {
    j.event == k.event && j.customer == k.customer && j.plan == k.plan && j.createdAt == k.createdAt
  }

  /** Rows that differ at most in state, log, times and the count of prevented retries. */
  predicate SameRecovery(j: Journey, k: Journey) {
    k == j.(state := k.state, transitions := k.transitions, closedAt := k.closedAt,
            nextActionAt := k.nextActionAt, futilePrevented := k.futilePrevented)
  }

  lemma RestateKeepsCore(id: JourneyId, c: Cell, j: Journey)
    requires Core(id, c) && SameRecovery(c.j, j) && IsWalk(j.transitions, j.state)
    ensures Core(id, c.(j := j)) && SameJourney(c.j, j) && j.actions == c.j.actions
  {
  }

  lemma MoveKeepsCore(id: JourneyId, c: Cell, target: JourneyState, now: Time)
    requires Core(id, c)
    requires Move(c.j, target, now).Some?
    ensures var j := Move(c.j, target, now).value;
            Core(id, c.(j := j)) && SameJourney(c.j, j) && j.actions == c.j.actions && j.state == target
  {
    MoveExtendsWalk(c.j, target, now);
    RestateKeepsCore(id, c, Move(c.j, target, now).value);
  }

  // A last action that is replaced by the same one in another status.

  predicate SameStep(a: Action, b: Action) {
    b.kind == a.kind && b.sequence == a.sequence && b.key == a.key && b.cost == a.cost && b.executedAt == a.executedAt
  }

  lemma ActionsReplaced(id: JourneyId, j: Journey, a: Action)
    requires ActionsOk(id, j) && SameStep(Last(j), a) && ExecutedOk(a)
    ensures ActionsOk(id, WithLast(j, a))
  {
    var n := |j.actions| - 1;
    assert ActionOk(id, j.plan, n, j.actions[n]);
    forall i | 0 <= i < n + 1 ensures ActionOk(id, j.plan, i, WithLast(j, a).actions[i]) {
      assert ActionOk(id, j.plan, i, j.actions[i]);
    }
  }

  lemma TraceReplaced(id: JourneyId, j: Journey, a: Action, trace: seq<GatewayCall>)
    requires j.actions != [] && TraceOk(id, j, trace) && SameStep(Last(j), a)
    requires a.status == Succeeded ==> Backed(trace, a.key)
    ensures TraceOk(id, WithLast(j, a), trace)
  {
    forall i | 0 <= i < |trace| && OwnExecute(id, trace[i]) ensures CallMatches(WithLast(j, a), trace[i]) {
      assert CallMatches(j, trace[i]);
    }
  }

  lemma StoreReplaced(id: JourneyId, j: Journey, a: Action, keys: Keys)
    requires j.actions != [] && StoreOk(id, j, keys) && SameStep(Last(j), a)
    ensures StoreOk(id, WithLast(j, a), keys)
  {
  }

  lemma ReplaceKeepsCore(id: JourneyId, c: Cell, a: Action)
    requires Core(id, c) && SameStep(Last(c.j), a) && ExecutedOk(a)
    requires a.status == Succeeded ==> Backed(c.trace, a.key)
    requires c.ev.status == Recovered ==> a.discountPct == Last(c.j).discountPct
    ensures Core(id, SetLast(c, a))
  {
    ActionsReplaced(id, c.j, a);
    TraceReplaced(id, c.j, a, c.trace);
    StoreReplaced(id, c.j, a, c.keys);
    CountersSameLast(c.j, a);
    CostSetLast(c.j.actions, a);
  }

  /** Replacing the last action by one in another status, without executing it. */
  lemma RestatusKeepsCore(id: JourneyId, c: Cell, status: ActionStatus, reasons: seq<PolicyRule>)
    requires Core(id, c)
    requires status in {Planned, AwaitingApproval, Approved, Blocked, Cancelled}
    requires Last(c.j).executedAt.None?
    ensures Core(id, SetLast(c, Last(c.j).(status := status, reasons := reasons)))
  {
    ReplaceKeepsCore(id, c, Last(c.j).(status := status, reasons := reasons));
  }

  lemma LastIsExecuted(id: JourneyId, j: Journey)
    requires ActionsOk(id, j)
    ensures ExecutedOk(Last(j))
  {
    assert ActionOk(id, j.plan, |j.actions| - 1, Last(j));
  }

  lemma FailKeepsCore(id: JourneyId, c: Cell)
    requires Core(id, c) && Last(c.j).status in {Executing, Failed}
    ensures Core(id, SetLast(c, Last(c.j).(status := Failed)))
  {
    LastIsExecuted(id, c.j);
    ReplaceKeepsCore(id, c, Last(c.j).(status := Failed));
  }

  lemma ScheduleKeepsCore(id: JourneyId, c: Cell, env: Env, budget: BudgetState, discountPct: real)
    requires Core(id, c) && env.id == id && c.j.state == JPlanned && c.ev.status != Recovered
    requires Finished(Last(c.j)) && |c.j.actions| < |c.j.plan|
    requires Schedule(c.j, c.ev, env, budget, |c.j.actions|, discountPct).Some?
    ensures var j := Schedule(c.j, c.ev, env, budget, |c.j.actions|, discountPct).value;
            && Core(id, c.(j := j)) && SameJourney(c.j, j) && Legal(j) && Open(j) && StateOk(j)
            && |j.actions| == |c.j.actions| + 1 && Last(j).executedAt.None? && Last(j).status != Succeeded
            && j.actions[..|c.j.actions|] == c.j.actions
  {
    var n := |c.j.actions|;
    ScheduleUnderKeepsCore(id, c, env, discountPct,
                           Gate(env.spec, AskAbout(env, budget, c.ev, c.j.plan[n].action, discountPct)));
  }

  lemma ScheduleUnderKeepsCore(id: JourneyId, c: Cell, env: Env, discountPct: real, verdict: GateVerdict)
    requires Core(id, c) && env.id == id && c.j.state == JPlanned && c.ev.status != Recovered
    requires Finished(Last(c.j)) && |c.j.actions| < |c.j.plan|
    requires ScheduleUnder(c.j, env, |c.j.actions|, discountPct, verdict).Some?
    ensures var j := ScheduleUnder(c.j, env, |c.j.actions|, discountPct, verdict).value;
            && Core(id, c.(j := j)) && SameJourney(c.j, j) && Legal(j) && Open(j) && StateOk(j)
            && |j.actions| == |c.j.actions| + 1 && Last(j).executedAt.None? && Last(j).status != Succeeded
            && j.actions[..|c.j.actions|] == c.j.actions
  {
    var n := |c.j.actions|;
    var a := ScheduledAction(env, c.j.plan[n], n, discountPct, verdict);
    var scheduled := c.j.(stepIndex := n, nextActionAt := Some(a.scheduledAt), actions := c.j.actions + [a]);
    AppendKeepsCore(id, c, a, Some(a.scheduledAt));
    if verdict.verdict == RequireApproval {
      MoveKeepsCore(id, c.(j := scheduled), JAwaitingApproval, env.now);
    }
  }

  lemma AppendKeepsCore(id: JourneyId, c: Cell, a: Action, next: Option<Time>)
    requires Core(id, c) && Finished(Last(c.j)) && |c.j.actions| < |c.j.plan| && c.ev.status != Recovered
    requires ActionOk(id, c.j.plan, |c.j.actions|, a) && a.executedAt.None?
    ensures Core(id, c.(j := c.j.(stepIndex := |c.j.actions|, nextActionAt := next, actions := c.j.actions + [a])))
  {
    CountAppend(c.j.actions, a, ContactMeter);
    CountAppend(c.j.actions, a, RetryMeter);
    CountAppend(c.j.actions, a, OfferMeter);
    CountAppend(c.j.actions, a, CallMeter);
    CostAppend(c.j.actions, a);
  }

  /** Moving on changes neither gateway, trace, ledger nor mandate, and the key store only by
      dropping the customer's lock when the journey closes. */
  ghost predicate Sidestep(c: Cell, c': Cell) {
    && c'.mandate == c.mandate && c'.gw == c.gw && c'.trace == c.trace && c'.ledger == c.ledger
    && c'.ev == c.ev.(status := c'.ev.status)
    && SameJourney(c.j, c'.j)
    && c'.keys == (if Open(c'.j) then c.keys else KeyStore.Delete(c.keys, CustomerLock(c.j.customer)))
  }

  /** A turn that is over leaves the journey at rest, with everything in order. */
  ghost predicate AtRest(id: JourneyId, c: Cell) {
    CellOk(id, c) && Legal(c.j)
  }

  lemma CloseKeepsCore(id: JourneyId, c: Cell, now: Time)
    requires Core(id, c) && Close(c, now).Some?
    ensures var c' := Close(c, now).value;
            && Core(id, c') && c'.j.state == Closed && c'.j.actions == c.j.actions && c'.ev == c.ev
            && SameJourney(c.j, c'.j)
            && c' == c.(j := c'.j, keys := KeyStore.Delete(c.keys, CustomerLock(c.j.customer)))
  {
    MoveKeepsCore(id, c, Closed, now);
  }

  lemma GiveUpRests(id: JourneyId, c: Cell, now: Time)
    requires Core(id, c) && Finished(Last(c.j)) && c.ev.cohort == Treatment && c.ev.customer == c.j.customer
    requires c.ev.status == InRecovery
    requires GiveUp(c, now).Some?
    ensures var c' := GiveUp(c, now).value;
            AtRest(id, c') && Sidestep(c, c') && c'.j.actions == c.j.actions && c'.j.state == Closed
            && c'.ev.status == Lost
  {
    MoveKeepsCore(id, c, JFailed, now);
    var failed := c.(j := Move(c.j, JFailed, now).value, ev := c.ev.(status := Lost));
    assert Core(id, failed);
    CloseKeepsCore(id, failed, now);
  }

  lemma ReplanRests(id: JourneyId, c: Cell, env: Env, budget: BudgetState)
    requires Core(id, c) && env.id == id && Finished(Last(c.j)) && c.j.stepIndex + 1 < |c.j.plan|
    requires c.ev.cohort == Treatment && c.ev.customer == c.j.customer && c.ev.status == InRecovery
    requires Replan(c, env, budget).Some?
    ensures var c' := Replan(c, env, budget).value;
            AtRest(id, c') && Sidestep(c, c') && Open(c'.j) && Last(c'.j).executedAt.None?
            && |c'.j.actions| == |c.j.actions| + 1 && c'.j.actions[..|c.j.actions|] == c.j.actions
  {
    MoveKeepsCore(id, c, JPlanned, env.now);
    var planned := c.(j := Move(c.j, JPlanned, env.now).value);
    ScheduleKeepsCore(id, planned, env, budget, 0.0);
  }

  /** The next step is scheduled or the journey is closed as lost. */
  lemma NextStepRests(id: JourneyId, c: Cell, env: Env, budget: BudgetState)
    requires Core(id, c) && env.id == id && Finished(Last(c.j))
    requires c.ev.cohort == Treatment && c.ev.customer == c.j.customer && c.ev.status == InRecovery
    requires NextStepOrClose(c, env, budget).Some?
    ensures var c' := NextStepOrClose(c, env, budget).value;
            && AtRest(id, c') && Sidestep(c, c')
            && c.j.actions <= c'.j.actions && |c'.j.actions| <= |c.j.actions| + 1
            && (|c'.j.actions| == |c.j.actions| + 1 ==> Last(c'.j).executedAt.None? && Open(c'.j))
            && (|c'.j.actions| == |c.j.actions| ==> c'.j.state == Closed)
  {
    if c.j.stepIndex + 1 < |c.j.plan| {
      ReplanRests(id, c, env, budget);
    } else {
      GiveUpRests(id, c, env.now);
    }
  }

  // --------------------------------------------------------------- executing an action

  /** The calls of one execution: an execute that was answered, or one that timed out and the
      state query that settles it. */
  predicate ExecuteCalls(calls: seq<GatewayCall>, key: Key, event: EventId, spec: PolicySpec, ask: Ask) {
    && calls != [] && calls[0].ExecuteCall?
    && calls[0] == ExecuteCall(key, event, spec, ask, calls[0].answer)
    && (if calls[0].answer == TimedOut
        then |calls| == 2 && calls[1].FetchCall? && calls[1].key == key && calls[1].event == event
        else |calls| == 1)
  }

  predicate LastCallSays(calls: seq<GatewayCall>, status: GatewayStatus)
    requires calls != []
  {
    var last := calls[|calls| - 1];
    (status == GwSucceeded <==> Success(last)) && (last.FetchCall? ==> status != GwPending)
  }

  lemma CallGatewayShape(c: Cell, env: Env, key: Key, ask: Ask) returns (calls: seq<GatewayCall>)
    requires c.gw.unresolved == {}
    ensures var (c', status) := CallGateway(c, env, key, ask);
            && c' == c.(gw := c'.gw, trace := c.trace + calls)
            && c'.gw.unresolved == {}
            && ExecuteCalls(calls, key, c.j.event, env.spec, ask)
            && LastCallSays(calls, status)
  {
    var (gw, answer) := ExecuteAt(c.gw, key, ask.action, env.paid);
    var call := ExecuteCall(key, c.j.event, env.spec, ask, answer);
    calls := [call];
    if answer == TimedOut {
      AskingResolves(c.gw, key, ask.action, env.paid, env.paid);
      var (gw', succeeded) := FetchAt(gw, key, env.paid);
      calls := [call, FetchCall(key, c.j.event, succeeded)];
      assert c.trace + [call] + [FetchCall(key, c.j.event, succeeded)] == c.trace + calls;
    }
  }

  /** A reservation: what the key store holds afterwards, and what survives the purge. */
  ghost predicate Reserved(keys: Keys, keys': Keys, key: Key, now: Time) {
    && (forall k :: k in keys' ==> k == IdemKey(key) || (k in keys && keys'[k] == keys[k]))
    && (forall k :: k in keys && keys[k].expiresAt > now ==> k in keys' && keys'[k] == keys[k])
  }

  lemma ReservationSucceeds(id: JourneyId, c: Cell, env: Env)
    requires Core(id, c) && env.id == id && Last(c.j).executedAt.None?
    ensures var a := Last(c.j);
            var r := KeyStore.SetIfAbsent(c.keys, IdemKey(a.key), ByAction(id, a.sequence), RESERVATION_TTL, env.now);
            r.1 && Reserved(c.keys, r.0, a.key, env.now)
  {
    var a := Last(c.j);
    assert IdemKey(a.key) !in c.keys;
  }

  /** The row after the execution of its last action. */
  function Performed(c: Cell, env: Env, keys: Keys, gw: Simulator, calls: seq<GatewayCall>, status: GatewayStatus): Cell
    requires c.j.actions != []
  {
    var a := Last(c.j);
    var executed := a.(status := StatusAfterCall(status), executedAt := Some(env.now),
                       resolveAfterSeconds := if status == GwPending then ResolveDelay(a.kind) else 0);
    SetLast(c.(keys := keys, gw := gw, trace := c.trace + calls), executed)
  }

  /** With a free key, executing reserves it and performs the calls; it never cancels. */
  lemma ExecuteShape(id: JourneyId, c: Cell, env: Env, ask: Ask)
    returns (keys: Keys, gw: Simulator, calls: seq<GatewayCall>)
    requires Core(id, c) && env.id == id && Last(c.j).executedAt.None?
    ensures var (c', status) := Execute(c, env, ask);
            && c' == Performed(c, env, keys, gw, calls, status)
            && gw.unresolved == {}
            && Reserved(c.keys, keys, Last(c.j).key, env.now)
            && ExecuteCalls(calls, Last(c.j).key, c.j.event, env.spec, ask)
            && LastCallSays(calls, status)
  {
    var a := Last(c.j);
    ReservationSucceeds(id, c, env);
    var r := KeyStore.SetIfAbsent(c.keys, IdemKey(a.key), ByAction(id, a.sequence), RESERVATION_TTL, env.now);
    keys := r.0;
    calls := CallGatewayShape(c.(keys := keys), env, a.key, ask);
    gw := CallGateway(c.(keys := keys), env, a.key, ask).0.gw;
  }

  lemma CountersPerformed(j: Journey, a: Action)
    requires j.actions != [] && CountersOk(j)
    requires Last(j).kind == a.kind && Last(j).executedAt.None? && a.executedAt.Some?
    ensures var k := WithLast(j, a);
            && Count(k.actions, ContactMeter) == j.contactsUsed + One(Catalog(a.kind).consumesContact)
            && Count(k.actions, RetryMeter) == j.retriesUsed + One(a.kind == RetryPayment)
            && Count(k.actions, OfferMeter) == j.discountsUsed + One(a.kind == Discount)
            && Count(k.actions, CallMeter) == j.voiceUsed + One(a.kind == Voice)
  {
    CountSetLast(j.actions, a, ContactMeter);
    CountSetLast(j.actions, a, RetryMeter);
    CountSetLast(j.actions, a, OfferMeter);
    CountSetLast(j.actions, a, CallMeter);
  }

  lemma TracePerformed(id: JourneyId, c: Cell, env: Env, c': Cell, calls: seq<GatewayCall>, status: GatewayStatus, ask: Ask)
    requires Core(id, c) && Last(c.j).executedAt.None? && ask.action == Last(c.j).kind && ask.now == env.now
    requires ExecuteCalls(calls, Last(c.j).key, c.j.event, env.spec, ask) && LastCallSays(calls, status)
    requires c' == Performed(c, env, c'.keys, c'.gw, calls, status)
    requires Reserved(c.keys, c'.keys, Last(c.j).key, env.now)
    ensures TraceOk(id, c'.j, c'.trace) && StoreOk(id, c'.j, c'.keys)
    ensures status == GwSucceeded ==> Backed(c'.trace, Last(c'.j).key)
  {
    CallsPerformed(id, c, env, c', calls, status, ask);
    StorePerformed(id, c, env, c', calls, status);
    if status == GwSucceeded {
      var k := |c'.trace| - 1;
      assert c'.trace[k] == calls[|calls| - 1];
    }
  }

  lemma CallsPerformed(id: JourneyId, c: Cell, env: Env, c': Cell, calls: seq<GatewayCall>, status: GatewayStatus, ask: Ask)
    requires c.j.actions != [] && ActionsOk(id, c.j) && TraceOk(id, c.j, c.trace) && Last(c.j).executedAt.None?
    requires ask.action == Last(c.j).kind && ask.now == env.now
    requires ExecuteCalls(calls, Last(c.j).key, c.j.event, env.spec, ask)
    requires c' == Performed(c, env, c'.keys, c'.gw, calls, status)
    ensures forall i :: 0 <= i < |c'.trace| && OwnExecute(id, c'.trace[i]) ==> CallMatches(c'.j, c'.trace[i])
  {
    forall i | 0 <= i < |c'.trace| && OwnExecute(id, c'.trace[i]) ensures CallMatches(c'.j, c'.trace[i]) {
      if i < |c.trace| {
        assert CallMatches(c.j, c.trace[i]);
      } else {
        assert c'.trace[i] == calls[i - |c.trace|];
      }
    }
  }

  lemma StorePerformed(id: JourneyId, c: Cell, env: Env, c': Cell, calls: seq<GatewayCall>, status: GatewayStatus)
    requires c.j.actions != [] && ActionsOk(id, c.j) && StoreOk(id, c.j, c.keys)
    requires c' == Performed(c, env, c'.keys, c'.gw, calls, status)
    requires Reserved(c.keys, c'.keys, Last(c.j).key, env.now)
    ensures StoreOk(id, c'.j, c'.keys)
  {
    var n := |c.j.actions| - 1;
    assert ActionOk(id, c.j.plan, n, c.j.actions[n]);
  }

  /** What executing the last action and charging its budgets makes of a cell. */
  ghost predicate ChargedCell(id: JourneyId, c: Cell, charged: Cell, env: Env, ask: Ask, keys: Keys,
                              calls: seq<GatewayCall>, status: GatewayStatus)
    requires c.j.actions != []
  {
    var n := |c.j.actions| - 1;
    && Core(id, charged)
    && charged.keys == keys && Reserved(c.keys, keys, Last(c.j).key, env.now)
    && charged.trace == c.trace + calls && ExecuteCalls(calls, Last(c.j).key, c.j.event, env.spec, ask)
    && charged.ledger == c.ledger && charged.mandate == BumpMandate(c.mandate, Last(c.j).kind, env.now)
    && SameJourney(c.j, charged.j) && charged.j.state == c.j.state && charged.j.stepIndex == c.j.stepIndex
    && EventStep(c.ev, charged.ev) && charged.ev.status == c.ev.status
    && |charged.j.actions| == |c.j.actions| && charged.j.actions[..n] == c.j.actions[..n]
    && Last(charged.j).executedAt == Some(env.now) && Last(charged.j).kind == Last(c.j).kind
    && Last(charged.j).status == StatusAfterCall(status)
  }

  /** Executing the last action and charging its budgets leaves everything in order. */
  lemma PerformKeepsCore(id: JourneyId, c: Cell, env: Env, ask: Ask)
    returns (keys: Keys, gw: Simulator, calls: seq<GatewayCall>)
    requires Core(id, c) && env.id == id && Last(c.j).executedAt.None? && c.ev.status == InRecovery
    requires ask.action == Last(c.j).kind && ask.now == env.now
    ensures ChargedCell(id, c, Charge(c, env, ask).0, env, ask, keys, calls, Charge(c, env, ask).1)
  {
    keys, gw, calls := ExecuteShape(id, c, env, ask);
    var (c1, status) := Execute(c, env, ask);
    PerformedIsCharged(id, c, env, ask, keys, gw, calls, c1, status);
  }

  lemma PerformedIsCharged(id: JourneyId, c: Cell, env: Env, ask: Ask, keys: Keys, gw: Simulator,
                           calls: seq<GatewayCall>, c1: Cell, status: GatewayStatus)
    requires Core(id, c) && env.id == id && Last(c.j).executedAt.None? && c.ev.status == InRecovery
    requires ask.action == Last(c.j).kind && ask.now == env.now
    requires c1 == Performed(c, env, keys, gw, calls, status) && gw.unresolved == {}
    requires Reserved(c.keys, keys, Last(c.j).key, env.now)
    requires ExecuteCalls(calls, Last(c.j).key, c.j.event, env.spec, ask) && LastCallSays(calls, status)
    ensures ChargedCell(id, c, Consume(c1, Last(c.j), env.now), env, ask, keys, calls, status)
  {
    var c2 := Consume(c1, Last(c.j), env.now);
    CountersPerformed(c.j, Last(c1.j));
    CostSetLast(c.j.actions, Last(c1.j));
    TracePerformed(id, c, env, c1, calls, status, ask);
    assert c2.j.actions == c1.j.actions && c2.trace == c1.trace && c2.keys == c1.keys;
    assert ActionsOk(id, c2.j);
    assert Core(id, c2);
  }

  // ------------------------------------------------------------- verifying an outcome

  lemma AscertainKeepsCore(id: JourneyId, c: Cell, env: Env) returns (calls: seq<GatewayCall>)
    requires Core(id, c) && Last(c.j).status in {Executing, Succeeded, Failed}
    ensures var (c1, status) := Ascertain(c, env);
            && c1 == c.(trace := c.trace + calls)
            && Core(id, c1)
            && (calls == [] || (|calls| == 1 && calls[0].FetchCall? && calls[0].key == Last(c.j).key
                                && calls[0].event == c.j.event && Last(c.j).status == Executing))
            && (status == GwSucceeded ==> Backed(c1.trace, Last(c.j).key) && Last(c.j).status in {Executing, Succeeded})
            && (status == GwFailed ==> Last(c.j).status in {Executing, Failed})
            && (status == GwPending ==> Last(c.j).status == Executing && calls == [])
  {
    var (c1, status) := Ascertain(c, env);
    var a := Last(c.j);
    if c1.trace == c.trace {
      calls := [];
      assert c.trace + calls == c.trace;
    } else {
      var (gw, succeeded) := FetchAt(c.gw, a.key, env.paid);
      var call := FetchCall(a.key, c.j.event, succeeded);
      calls := [call];
      assert c1.trace[|c.trace|] == call;
    }
  }

  /** A ledger entry for the recovery of this journey: gross is what the customer was asked to
      pay after the discount, and the parts add up. */
  predicate EntryFor(entry: LedgerEntry, id: JourneyId, event: EventId, a: Action, amount: nat) {
    && entry.event == event && entry.journey == id && entry.action == a.kind
    && entry.gross + DiscountPaise(amount, a.discountPct) == amount
    && entry.cost == BookingCost(a, amount)
    && entry.incremental == entry.gross - entry.organic - entry.cost
  }

  lemma BookKeepsCore(id: JourneyId, c: Cell, env: Env)
    requires Core(id, c) && env.id == id && c.ev.status == InRecovery
    requires Last(c.j).status in {Executing, Succeeded} && Backed(c.trace, Last(c.j).key)
    ensures var b := Book(c, env);
            && Core(id, b) && Last(b.j).status == Succeeded && SameJourney(c.j, b.j) && b.j.state == c.j.state
            && b == c.(j := b.j, ev := b.ev, ledger := b.ledger)
            && b.ev == c.ev.(status := Recovered, appliedAction := b.ev.appliedAction,
                             recoveredAmount := b.ev.recoveredAmount, recoveryCost := b.ev.recoveryCost)
            && b.j.actions == c.j.actions[|c.j.actions| - 1 := Last(c.j).(status := Succeeded)]
            && |b.ledger| == |c.ledger| + 1 && c.ledger <= b.ledger
            && EntryFor(b.ledger[|c.ledger|], id, c.j.event, Last(b.j), c.ev.amount)
  {
    var a := Last(c.j);
    BookKeepsRest(id, c, env);
    BookedIsCore(id, c, Book(c, env), a.(status := Succeeded), BookingCost(a, c.ev.amount));
  }

  lemma BookKeepsRest(id: JourneyId, c: Cell, env: Env)
    requires c.j.actions != [] && env.id == id
    ensures var b := Book(c, env);
            && b.j.actions == c.j.actions[|c.j.actions| - 1 := Last(c.j).(status := Succeeded)]
            && b.j == c.j.(actions := b.j.actions, recoveredAmount := b.j.recoveredAmount,
                           cost := c.j.cost + BookingCost(Last(c.j), c.ev.amount))
            && b == c.(j := b.j, ev := b.ev, ledger := b.ledger)
            && b.ev == c.ev.(status := Recovered, appliedAction := b.ev.appliedAction,
                             recoveredAmount := b.ev.recoveredAmount,
                             recoveryCost := c.ev.recoveryCost + BookingCost(Last(c.j), c.ev.amount))
            && |b.ledger| == |c.ledger| + 1 && c.ledger <= b.ledger
            && EntryFor(b.ledger[|c.ledger|], id, c.j.event, Last(b.j), c.ev.amount)
  {
  }

  lemma BookedIsCore(id: JourneyId, c: Cell, b: Cell, a: Action, cost: int)
    requires Core(id, c) && c.ev.status == InRecovery
    requires Last(c.j).status in {Executing, Succeeded} && Backed(c.trace, Last(c.j).key)
    requires a == Last(c.j).(status := Succeeded) && cost == BookingCost(a, c.ev.amount)
    requires b == c.(j := b.j, ev := b.ev, ledger := b.ledger)
    requires b.j == c.j.(actions := c.j.actions[|c.j.actions| - 1 := a], recoveredAmount := b.j.recoveredAmount,
                         cost := c.j.cost + cost)
    requires b.ev == c.ev.(status := Recovered, appliedAction := b.ev.appliedAction,
                           recoveredAmount := b.ev.recoveredAmount, recoveryCost := c.ev.recoveryCost + cost)
    ensures Core(id, b)
  {
    LastIsExecuted(id, c.j);
    ReplaceKeepsCore(id, c, a);
    var r := SetLast(c, a);
    assert Last(b.j) == a && b.j.actions == r.j.actions && b.j.transitions == r.j.transitions;
    CostSetLast(c.j.actions, a);
  }

  /** A confirmed recovery is booked once, and closes the journey. */
  lemma ConcludeRests(id: JourneyId, c: Cell, env: Env)
    requires Core(id, c) && env.id == id && c.ev.status == InRecovery && c.j.state == Verifying
    requires c.ev.cohort == Treatment && c.ev.customer == c.j.customer
    requires Last(c.j).status in {Executing, Succeeded} && Backed(c.trace, Last(c.j).key)
    ensures Conclude(c, env).Some?
    ensures var c' := Conclude(c, env).value;
            && AtRest(id, c') && c'.j.state == Closed && SameJourney(c.j, c'.j)
            && c' == c.(j := c'.j, ev := c'.ev, ledger := c'.ledger,
                        keys := KeyStore.Delete(c.keys, CustomerLock(c.j.customer)))
            && c'.ev == c.ev.(status := Recovered, appliedAction := c'.ev.appliedAction,
                              recoveredAmount := c'.ev.recoveredAmount, recoveryCost := c'.ev.recoveryCost)
            && c'.j.actions == c.j.actions[|c.j.actions| - 1 := Last(c.j).(status := Succeeded)]
            && |c'.ledger| == |c.ledger| + 1 && c.ledger <= c'.ledger
            && EntryFor(c'.ledger[|c.ledger|], id, c.j.event, Last(c'.j), c.ev.amount)
  {
    BookKeepsCore(id, c, env);
    CloseRecoveredRests(id, Book(c, env), env.now);
  }

  lemma CloseRecoveredRests(id: JourneyId, b: Cell, now: Time)
    requires Core(id, b) && b.j.state == Verifying && Last(b.j).status == Succeeded
    requires b.ev.status == Recovered && b.ev.cohort == Treatment && b.ev.customer == b.j.customer
    ensures CloseRecovered(b, now).Some?
    ensures var c' := CloseRecovered(b, now).value;
            && AtRest(id, c') && c'.j.state == Closed && SameJourney(b.j, c'.j) && c'.j.actions == b.j.actions
            && c' == b.(j := c'.j, keys := KeyStore.Delete(b.keys, CustomerLock(b.j.customer)))
  {
    MoveKeepsCore(id, b, JRecovered, now);
    var recovered := b.(j := Move(b.j, JRecovered, now).value);
    CloseKeepsCore(id, recovered, now);
  }

  // ------------------------------------------------------------- the footprint of a turn

  /** What happened to the ledger: nothing, or one entry for the journey that just closed. */
  ghost predicate LedgerStep(id: JourneyId, c: Cell, c': Cell)
    requires c'.j.actions != []
  {
    if c'.ledger == c.ledger then c'.ev.status != Recovered
    else
      && |c'.ledger| == |c.ledger| + 1 && c.ledger <= c'.ledger
      && c'.ev.status == Recovered && c'.j.state == Closed
      && EntryFor(c'.ledger[|c.ledger|], id, c.j.event, Last(c'.j), c.ev.amount)
  }

  /** What happened to the key store: at most the key of the last action was added; what has
      not expired stays, except the customer's lock, which goes exactly when the journey closes. */
  ghost predicate StoreStep(c: Cell, c': Cell, key: Key, now: Time) {
    && (forall k :: k in c'.keys ==> k == IdemKey(key) || (k in c.keys && c'.keys[k] == c.keys[k]))
    && (forall k :: k in c.keys && c.keys[k].expiresAt > now && k != CustomerLock(c.j.customer) ==>
          k in c'.keys && c'.keys[k] == c.keys[k])
    && (var lock := CustomerLock(c.j.customer);
        if Open(c'.j)
        then lock in c.keys && c.keys[lock].expiresAt > now ==> lock in c'.keys && c'.keys[lock] == c.keys[lock]
        else lock !in c'.keys)
  }

  /** What happened to the trace: nothing, a state query for an action executed before, or the
      one execution of an action, under an ALLOW given at this instant. */
  ghost predicate TraceStep(c: Cell, c': Cell, env: Env)
    requires c.j.actions != [] && c'.j.actions != []
  {
    var n, a := |c.j.actions| - 1, Last(c.j);
    && c.trace <= c'.trace && n < |c'.j.actions|
    && var calls := c'.trace[|c.trace|..];
       if a.executedAt.Some? then
         && c'.j.actions[n].executedAt == a.executedAt
         && (calls == [] || (|calls| == 1 && calls[0].FetchCall? && calls[0].key == a.key && calls[0].event == c.j.event))
       else if calls == [] then
         c'.j.actions[n].executedAt.None?
       else
         && c'.j.actions[n].executedAt == Some(env.now)
         && ExecuteCalls(calls, a.key, c.j.event, env.spec, AskNow(c, env))
         && Gate(env.spec, AskNow(c, env)).verdict == Allow
  }

  predicate MandateStep(c: Cell, c': Cell)
    requires c.j.actions != [] && |c.j.actions| <= |c'.j.actions|
  {
    var n, a := |c.j.actions| - 1, Last(c.j);
    var presented := a.kind == RetryPayment && a.executedAt.None? && c'.j.actions[n].executedAt.Some?;
    && c'.mandate.Some? == c.mandate.Some?
    && (c.mandate.Some? ==>
          && c'.mandate.value.customer == c.mandate.value.customer
          && c'.mandate.value.attemptsUsed == c.mandate.value.attemptsUsed + One(presented))
  }

  /** The actions only grow by the next step; earlier ones stay as they are. */
  predicate ActionsStep(c: Cell, c': Cell)
    requires c.j.actions != []
  {
    var n := |c.j.actions| - 1;
    && n < |c'.j.actions| <= n + 2
    && c'.j.actions[..n] == c.j.actions[..n]
    && (|c'.j.actions| == n + 2 ==> Last(c'.j).executedAt.None?)
  }

  predicate EventStep(ev: Event, ev': Event) {
    ev' == ev.(status := ev'.status, appliedAction := ev'.appliedAction, recoveredAmount := ev'.recoveredAmount,
               recoveryCost := ev'.recoveryCost, contactsUsed := ev'.contactsUsed)
  }

  ghost predicate Footprint(c: Cell, c': Cell, env: Env) {
    && c.j.actions != [] && c'.j.actions != []
    && SameJourney(c.j, c'.j) && EventStep(c.ev, c'.ev)
    && ActionsStep(c, c')
    && TraceStep(c, c', env)
    && LedgerStep(env.id, c, c')
    && StoreStep(c, c', Last(c.j).key, env.now)
    && MandateStep(c, c')
  }

  // ------------------------------------------------------------------- turns, by branch

  /** Turns that touch neither gateway nor ledger. */
  lemma QuietFootprint(c: Cell, c': Cell, env: Env)
    requires c.j.actions != [] && c'.j.actions != []
    requires SameJourney(c.j, c'.j) && ActionsStep(c, c') && EventStep(c.ev, c'.ev) && c'.ev.status != Recovered
    requires c'.j.actions[|c.j.actions| - 1].executedAt == Last(c.j).executedAt
    requires c'.trace == c.trace && c'.ledger == c.ledger && c'.mandate == c.mandate
    requires c'.keys == (if Open(c'.j) then c.keys else KeyStore.Delete(c.keys, CustomerLock(c.j.customer)))
    ensures Footprint(c, c', env)
  {
    assert c'.trace[|c.trace|..] == [];
  }

  lemma WaitRests(c: Cell, env: Env, next: Option<Time>)
    requires CellOk(env.id, c) && Open(c.j)
    ensures var c' := c.(j := c.j.(nextActionAt := next));
            CellOk(env.id, c') && Footprint(c, c', env) && (Legal(c.j) ==> Legal(c'.j))
  {
    QuietFootprint(c, c.(j := c.j.(nextActionAt := next)), env);
  }

  lemma HoldRests(c: Cell, env: Env, verdict: GateVerdict)
    requires CellOk(env.id, c) && Open(c.j) && Last(c.j).executedAt.None?
    requires Hold(c, env, verdict).Some?
    ensures var c' := Hold(c, env, verdict).value;
            AtRest(env.id, c') && Footprint(c, c', env) && Last(c'.j).status == AwaitingApproval
  {
    RestatusKeepsCore(env.id, c, AwaitingApproval, verdict.reasons);
    var held := SetLast(c, Last(c.j).(status := AwaitingApproval, reasons := verdict.reasons));
    MoveKeepsCore(env.id, held, JAwaitingApproval, env.now);
    QuietFootprint(c, Hold(c, env, verdict).value, env);
  }

  lemma MoveOnRests(c: Cell, blocked: Cell, env: Env, budget: BudgetState)
    requires CellOk(env.id, c) && Open(c.j) && Last(c.j).executedAt.None?
    requires Core(env.id, blocked) && Finished(Last(blocked.j)) && SameJourney(c.j, blocked.j)
    requires blocked == c.(j := blocked.j) && Last(blocked.j).executedAt.None?
    requires |blocked.j.actions| == |c.j.actions|
    requires blocked.j.actions[..|c.j.actions| - 1] == c.j.actions[..|c.j.actions| - 1]
    requires NextStepOrClose(blocked, env, budget).Some?
    ensures var c' := NextStepOrClose(blocked, env, budget).value;
            AtRest(env.id, c') && Footprint(c, c', env)
  {
    NextStepRests(env.id, blocked, env, budget);
    var c' := NextStepOrClose(blocked, env, budget).value;
    var n := |c.j.actions| - 1;
    assert c'.j.actions[..n] == blocked.j.actions[..n];
    QuietFootprint(c, c', env);
  }

  lemma CountFutileKeepsCore(id: JourneyId, c: Cell, reasons: seq<PolicyRule>)
    requires Core(id, c)
    ensures var c' := CountFutile(c, reasons);
            Core(id, c') && SameJourney(c.j, c'.j) && c'.j.actions == c.j.actions && c' == c.(j := c'.j)
  {
    RestateKeepsCore(id, c, CountFutile(c, reasons).j);
  }

  lemma RefusedKeepsCore(id: JourneyId, c: Cell, verdict: GateVerdict)
    requires Core(id, c) && Last(c.j).executedAt.None?
    ensures var r := Refused(c, verdict);
            && Core(id, r) && Finished(Last(r.j)) && SameJourney(c.j, r.j) && r == c.(j := r.j)
            && Last(r.j).executedAt.None? && |r.j.actions| == |c.j.actions|
            && r.j.actions[..|c.j.actions| - 1] == c.j.actions[..|c.j.actions| - 1]
  {
    RestatusKeepsCore(id, c, Blocked, verdict.reasons);
    CountFutileKeepsCore(id, SetLast(c, Last(c.j).(status := Blocked, reasons := verdict.reasons)), verdict.reasons);
  }

  lemma RefuseRests(c: Cell, env: Env, budget: BudgetState, verdict: GateVerdict)
    requires CellOk(env.id, c) && Open(c.j) && Last(c.j).executedAt.None?
    requires Refuse(c, env, budget, verdict).Some?
    ensures var c' := Refuse(c, env, budget, verdict).value;
            AtRest(env.id, c') && Footprint(c, c', env)
  {
    RefusedKeepsCore(env.id, c, verdict);
    MoveOnRests(c, Refused(c, verdict), env, budget);
  }

  lemma SkipRests(c: Cell, env: Env)
    requires CellOk(env.id, c) && Open(c.j) && Last(c.j).status == Blocked
    requires SkipBlocked(c, env).Some?
    ensures var c' := SkipBlocked(c, env).value;
            AtRest(env.id, c') && Footprint(c, c', env)
  {
    CountFutileKeepsCore(env.id, c, Last(c.j).reasons);
    MoveOnRests(c, CountFutile(c, Last(c.j).reasons), env, BudgetOf(c.j, c.ev, env.spec));
  }

  /** What verifying an executed action may touch: at most one state query, made only while the
      outcome is not known yet. */
  ghost predicate VerifyStep(c: Cell, c': Cell, env: Env) {
    && c.j.actions != [] && c'.j.actions != []
    && SameJourney(c.j, c'.j) && EventStep(c.ev, c'.ev) && ActionsStep(c, c')
    && c'.j.actions[|c.j.actions| - 1].executedAt == Last(c.j).executedAt
    && c'.mandate == c.mandate
    && c'.keys == (if Open(c'.j) then c.keys else KeyStore.Delete(c.keys, CustomerLock(c.j.customer)))
    && LedgerStep(env.id, c, c')
    && c.trace <= c'.trace
    && var calls := c'.trace[|c.trace|..];
       calls == [] || (|calls| == 1 && calls[0].FetchCall? && calls[0].key == Last(c.j).key
                       && calls[0].event == c.j.event && Last(c.j).status == Executing)
  }

  lemma FailedVerifyRests(c: Cell, c1: Cell, env: Env, budget: BudgetState)
    requires Core(env.id, c) && Core(env.id, c1) && c.ev.status == InRecovery
    requires c.ev.cohort == Treatment && c.ev.customer == c.j.customer
    requires c1 == c.(trace := c1.trace) && c.trace <= c1.trace
    requires var calls := c1.trace[|c.trace|..];
             calls == [] || (|calls| == 1 && calls[0].FetchCall? && calls[0].key == Last(c.j).key
                             && calls[0].event == c.j.event && Last(c.j).status == Executing)
    requires Last(c.j).status in {Executing, Failed}
    requires NextStepOrClose(SetLast(c1, Last(c1.j).(status := Failed)), env, budget).Some?
    ensures var c' := NextStepOrClose(SetLast(c1, Last(c1.j).(status := Failed)), env, budget).value;
            AtRest(env.id, c') && VerifyStep(c, c', env)
  {
    FailKeepsCore(env.id, c1);
    var failed := SetLast(c1, Last(c1.j).(status := Failed));
    NextStepRests(env.id, failed, env, budget);
    var c' := NextStepOrClose(failed, env, budget).value;
    var n := |c.j.actions| - 1;
    assert c'.j.actions[..n] == failed.j.actions[..n] == c.j.actions[..n];
    assert c'.trace == c1.trace;
  }

  lemma SucceededVerifyRests(c: Cell, c1: Cell, env: Env)
    requires Core(env.id, c) && Core(env.id, c1) && c.ev.status == InRecovery && c.j.state == Verifying
    requires c.ev.cohort == Treatment && c.ev.customer == c.j.customer
    requires c1 == c.(trace := c1.trace) && c.trace <= c1.trace
    requires var calls := c1.trace[|c.trace|..];
             calls == [] || (|calls| == 1 && calls[0].FetchCall? && calls[0].key == Last(c.j).key
                             && calls[0].event == c.j.event && Last(c.j).status == Executing)
    requires Last(c.j).status in {Executing, Succeeded} && Backed(c1.trace, Last(c.j).key)
    ensures Conclude(c1, env).Some?
    ensures var c' := Conclude(c1, env).value;
            AtRest(env.id, c') && VerifyStep(c, c', env)
  {
    ConcludeRests(env.id, c1, env);
    var c' := Conclude(c1, env).value;
    assert c'.trace == c1.trace;
  }

  lemma PendingVerifyRests(c: Cell, env: Env, next: Option<Time>)
    requires Core(env.id, c) && c.ev.status == InRecovery && c.j.state == Verifying
    requires c.ev.cohort == Treatment && c.ev.customer == c.j.customer
    requires Last(c.j).status == Executing
    ensures var c' := c.(j := c.j.(nextActionAt := next));
            AtRest(env.id, c') && VerifyStep(c, c', env)
  {
    var c' := c.(j := c.j.(nextActionAt := next));
    RestateKeepsCore(env.id, c, c'.j);
    assert c'.trace[|c.trace|..] == [];
  }

  lemma VerifyRests(c: Cell, env: Env, budget: BudgetState)
    requires Core(env.id, c) && c.j.state == Verifying && c.ev.status == InRecovery
    requires c.ev.cohort == Treatment && c.ev.customer == c.j.customer
    requires Last(c.j).status in {Executing, Succeeded, Failed}
    requires Verify(c, env, budget).Some?
    ensures var c' := Verify(c, env, budget).value;
            AtRest(env.id, c') && VerifyStep(c, c', env)
  {
    var calls := AscertainKeepsCore(env.id, c, env);
    var (c1, status) := Ascertain(c, env);
    assert c1.trace[|c.trace|..] == calls;
    match status
    case GwPending =>
      assert c.trace + calls == c.trace;
      assert c1 == c;
      PendingVerifyRests(c, env, Some(env.now + Scaled(600, env.speedup)));
    case GwSucceeded => SucceededVerifyRests(c, c1, env);
    case GwFailed => FailedVerifyRests(c, c1, env, budget);
  }

  lemma VerifiedFootprint(c: Cell, verifying: Cell, c': Cell, env: Env)
    requires verifying == c.(j := verifying.j) && Restated(c.j, verifying.j) && VerifyStep(verifying, c', env)
    requires c.j.actions != [] && Last(c.j).executedAt.Some?
    ensures Footprint(c, c', env)
  {
  }

  lemma VerifyingRests(c: Cell, verifying: Cell, env: Env, budget: BudgetState)
    requires verifying == c.(j := verifying.j) && Restated(c.j, verifying.j) && verifying.j.state == Verifying
    requires Core(env.id, verifying) && c.ev.status == InRecovery && c.ev.cohort == Treatment
    requires c.ev.customer == c.j.customer && Last(verifying.j).status in {Executing, Succeeded, Failed}
    requires Last(verifying.j).executedAt.Some? && Verify(verifying, env, budget).Some?
    ensures var c' := Verify(verifying, env, budget).value;
            AtRest(env.id, c') && Footprint(c, c', env)
  {
    VerifyRests(verifying, env, budget);
    VerifiedFootprint(c, verifying, Verify(verifying, env, budget).value, env);
  }

  lemma ResolveRests(c: Cell, env: Env)
    requires CellOk(env.id, c) && Open(c.j) && Last(c.j).status in {Executing, Succeeded, Failed}
    requires Resolve(c, env).Some?
    ensures var c' := Resolve(c, env).value;
            AtRest(env.id, c') && Footprint(c, c', env)
  {
    MoveKeepsCore(env.id, c, Verifying, env.now);
    LastIsExecuted(env.id, c.j);
    VerifyingRests(c, c.(j := Move(c.j, Verifying, env.now).value), env, BudgetOf(c.j, c.ev, env.spec));
  }

  lemma DispatchedRests(c: Cell, c3: Cell, env: Env, next: Option<Time>)
    requires Core(env.id, c3) && c3.j.state == Verifying && c3.ev.status == InRecovery
    requires c3.ev.cohort == Treatment && c3.ev.customer == c3.j.customer
    requires Last(c3.j).status == Executing && Footprint(c, c3, env)
    ensures var c' := c3.(j := c3.j.(nextActionAt := next));
            AtRest(env.id, c') && Footprint(c, c', env)
  {
    RestateKeepsCore(env.id, c3, c3.j.(nextActionAt := next));
  }

  lemma SettledRests(c: Cell, c3: Cell, env: Env, budget: BudgetState)
    requires Core(env.id, c3) && c3.j.state == Verifying && c3.ev.status == InRecovery
    requires c3.ev.cohort == Treatment && c3.ev.customer == c3.j.customer
    requires Last(c3.j).status in {Succeeded, Failed} && Footprint(c, c3, env)
    requires |c3.j.actions| == |c.j.actions| && c3.ledger == c.ledger
    requires Last(c.j).executedAt.None? && Last(c3.j).executedAt == Some(env.now)
    requires Verify(c3, env, budget).Some?
    ensures var c' := Verify(c3, env, budget).value;
            AtRest(env.id, c') && Footprint(c, c', env)
  {
    VerifyRests(c3, env, budget);
    JoinFootprint(c, c3, Verify(c3, env, budget).value, env);
  }

  /** What an executed action that is being verified comes to. */
  function AfterCharge(c3: Cell, env: Env, budget: BudgetState, status: GatewayStatus): Option<Cell>
    requires c3.j.actions != []
  {
    if status == GwPending then
      var wait := if Last(c3.j).resolveAfterSeconds == 0 then 900 else Last(c3.j).resolveAfterSeconds;
      Some(c3.(j := c3.j.(nextActionAt := Some(env.now + Scaled(wait, env.speedup)))))
    else Verify(c3, env, budget)
  }

  lemma AwaitIsAfterCharge(charged: Cell, env: Env, budget: BudgetState, status: GatewayStatus)
    requires charged.j.actions != [] && Move(charged.j, Verifying, env.now).Some?
    ensures var c3 := charged.(j := Move(charged.j, Verifying, env.now).value);
            c3.j.actions != [] && AwaitVerdict(charged, env, budget, status) == AfterCharge(c3, env, budget, status)
  {
  }

  /** The state of an allowed turn after its action was executed and charged. */
  lemma ExecutedTurn(c: Cell, env: Env, c0: Cell, charged: Cell, keys: Keys, calls: seq<GatewayCall>,
                     status: GatewayStatus) returns (c3: Cell)
    requires CellOk(env.id, c) && Open(c.j) && Last(c.j).executedAt.None?
    requires Gate(env.spec, AskNow(c, env)).verdict == Allow
    requires c0 == c.(j := c0.j) && Restated(c.j, c0.j) && c0.j.state == JExecuting
    requires ChargedCell(env.id, c0, charged, env, AskNow(c, env), keys, calls, status)
    ensures Move(charged.j, Verifying, env.now).Some? && c3 == charged.(j := Move(charged.j, Verifying, env.now).value)
    ensures ChargedTurn(c, c3, env, status)
  {
    MoveKeepsCore(env.id, charged, Verifying, env.now);
    MoveExtendsWalk(charged.j, Verifying, env.now);
    c3 := charged.(j := Move(charged.j, Verifying, env.now).value);
    PerformedFootprint(c, c3, env, keys, calls, AskNow(c, env));
  }

  /** The last action was executed once, charged, and awaits its outcome. */
  ghost predicate ChargedTurn(c: Cell, c3: Cell, env: Env, status: GatewayStatus) {
    && Core(env.id, c3) && c3.j.state == Verifying && c3.ev.status == InRecovery
    && c3.ev.cohort == Treatment && c3.ev.customer == c3.j.customer
    && Last(c3.j).status == StatusAfterCall(status) && Last(c3.j).executedAt == Some(env.now)
    && c.j.actions != [] && Last(c.j).executedAt.None?
    && |c3.j.actions| == |c.j.actions| && c3.ledger == c.ledger
    && c3.j.stepIndex == c.j.stepIndex
    && Footprint(c, c3, env)
  }

  lemma PerformedTurn(c: Cell, env: Env, budget: BudgetState, ask: Ask) returns (c3: Cell, status: GatewayStatus)
    requires CellOk(env.id, c) && Open(c.j) && Last(c.j).executedAt.None?
    requires ask == AskNow(c, env) && Gate(env.spec, ask).verdict == Allow
    requires Move(c.j, JExecuting, env.now).Some?
    ensures ChargedTurn(c, c3, env, status)
    ensures Perform(c, env, budget, ask) == AfterCharge(c3, env, budget, status)
    ensures var charged := Charge(c.(j := Move(c.j, JExecuting, env.now).value), env, ask);
            c3.gw == charged.0.gw && status == charged.1
  {
    MoveKeepsCore(env.id, c, JExecuting, env.now);
    MoveExtendsWalk(c.j, JExecuting, env.now);
    var c0 := c.(j := Move(c.j, JExecuting, env.now).value);
    var keys, gw, calls := PerformKeepsCore(env.id, c0, env, ask);
    var (charged, s) := Charge(c0, env, ask);
    status := s;
    c3 := ExecutedTurn(c, env, c0, charged, keys, calls, status);
    AwaitIsAfterCharge(charged, env, budget, status);
  }

  lemma AfterChargeRests(c: Cell, c3: Cell, env: Env, budget: BudgetState, status: GatewayStatus)
    requires ChargedTurn(c, c3, env, status) && AfterCharge(c3, env, budget, status).Some?
    ensures var c' := AfterCharge(c3, env, budget, status).value;
            AtRest(env.id, c') && Footprint(c, c', env)
  {
    if status == GwPending {
      DispatchedRests(c, c3, env, AfterCharge(c3, env, budget, status).value.j.nextActionAt);
    } else {
      SettledRests(c, c3, env, budget);
    }
  }

  /** An allowed action is executed exactly once and, if its outcome is known, verified. */
  lemma PerformRests(c: Cell, env: Env, budget: BudgetState, ask: Ask)
    requires CellOk(env.id, c) && Open(c.j) && Last(c.j).executedAt.None?
    requires ask == AskNow(c, env) && Gate(env.spec, ask).verdict == Allow
    requires Perform(c, env, budget, ask).Some?
    ensures var c' := Perform(c, env, budget, ask).value;
            AtRest(env.id, c') && Footprint(c, c', env)
  {
    var c3, status := PerformedTurn(c, env, budget, ask);
    AfterChargeRests(c, c3, env, budget, status);
  }

  lemma PerformedFootprint(c: Cell, c3: Cell, env: Env, keys: Keys, calls: seq<GatewayCall>, ask: Ask)
    requires CellOk(env.id, c) && Open(c.j) && Last(c.j).executedAt.None?
    requires ask == AskNow(c, env) && Gate(env.spec, ask).verdict == Allow
    requires ExecuteCalls(calls, Last(c.j).key, c.j.event, env.spec, ask)
    requires Reserved(c.keys, keys, Last(c.j).key, env.now)
    requires SameJourney(c.j, c3.j) && Open(c3.j) && EventStep(c.ev, c3.ev) && c3.ev.status == c.ev.status
    requires |c3.j.actions| == |c.j.actions|
    requires c3.j.actions[..|c.j.actions| - 1] == c.j.actions[..|c.j.actions| - 1]
    requires Last(c3.j).executedAt == Some(env.now) && Last(c3.j).kind == Last(c.j).kind
    requires c3.trace == c.trace + calls && c3.ledger == c.ledger && c3.keys == keys
    requires c3.mandate == BumpMandate(c.mandate, Last(c.j).kind, env.now)
    ensures Footprint(c, c3, env)
  {
    assert c3.trace[|c.trace|..] == calls;
  }

  /** An execution followed by a verification that needed no query is one footprint. */
  lemma JoinFootprint(c: Cell, c3: Cell, c': Cell, env: Env)
    requires Footprint(c, c3, env) && VerifyStep(c3, c', env)
    requires |c3.j.actions| == |c.j.actions| && c3.ledger == c.ledger && c3.ev.amount == c.ev.amount
    requires Last(c.j).executedAt.None? && Last(c3.j).executedAt == Some(env.now)
    requires Last(c3.j).status != Executing && Open(c3.j)
    ensures Footprint(c, c', env)
  {
    var n := |c.j.actions| - 1;
    assert c'.trace == c3.trace;
    assert c'.j.actions[..n] == c3.j.actions[..n];
    assert c'.j.actions[n].executedAt == Some(env.now);
  }

  /** Every turn that does not raise leaves the cell in order and within its footprint; a
      journey at rest comes to rest again. */
  lemma AdvanceRests(c: Cell, env: Env)
    requires CellOk(env.id, c) && Open(c.j)
    requires Advance(c, env).Some?
    ensures var c' := Advance(c, env).value;
            CellOk(env.id, c') && Footprint(c, c', env) && (Legal(c.j) ==> Legal(c'.j))
  {
    var a := Last(c.j);
    match a.status
    case AwaitingApproval => WaitRests(c, env, None);
    case Blocked => SkipRests(c, env);
    case Planned | Approved =>
      if a.scheduledAt > env.now {
        WaitRests(c, env, Some(a.scheduledAt));
      } else {
        var ask := AskNow(c, env);
        var verdict := Gate(env.spec, ask);
        match verdict.verdict {
          case RequireApproval => HoldRests(c, env, verdict);
          case Block => RefuseRests(c, env, ask.budget, verdict);
          case Allow => PerformRests(c, env, ask.budget, ask);
        }
      }
    case Executing | Succeeded | Failed => ResolveRests(c, env);
    case Cancelled | Skipped =>
  }
}
