/** What can be told of a turn from the rows alone, whatever else holds of the book: where it sends
    its journey, when it raises, what it may touch, and when it charges. */
module TurnShape {
  import opened Domain
  import opened Rows
  import opened Policy
  import opened Decision
  import opened Journey
  import opened Gateway
  import opened Ledger
  import opened Recovery
  import opened RecoveryProofs
  import KeyStore

  // ------------------------------------------------------------------- when a turn raises

  /** Where a journey goes when its last action has come to nothing. */
  function NextState(j: Journey): JourneyState {
    if j.stepIndex + 1 < |j.plan| then JPlanned else JFailed
  }

  /** The state a turn has to move its journey to before it does anything else; none if the turn
      only waits. */
  function Target(c: Cell, env: Env): Option<JourneyState>
    requires c.j.actions != []
  {
    var a := Last(c.j);
    match a.status
    case AwaitingApproval => None
    case Blocked => Some(NextState(c.j))
    case Planned | Approved =>
      if a.scheduledAt > env.now then None
      else (match Gate(env.spec, AskNow(c, env)).verdict
            case RequireApproval => Some(JAwaitingApproval)
            case Block => Some(NextState(c.j))
            case Allow => Some(JExecuting))
    case Executing | Succeeded | Failed | Cancelled | Skipped => Some(Verifying)
  }

  predicate MayMove(s: JourneyState, target: JourneyState) {
    s == target || target in AllowedTransitions(s)
  }

  /** The transition table does not let the turn begin. */
  predicate Stuck(c: Cell, env: Env) {
    c.j.actions != [] && Target(c, env).Some? && !MayMove(c.j.state, Target(c, env).value)
  }

  /** The turn will execute its action: due, allowed, and in a state that can execute. */
  predicate Charging(c: Cell, env: Env) {
    c.j.actions != [] && Target(c, env) == Some(JExecuting) && !Stuck(c, env)
  }

  /** Where a turn goes depends on the rows of its journey, the customer, the policy and the clock. */
  lemma SameTarget(c: Cell, c': Cell, env: Env, env': Env)
    requires c'.j == c.j && c'.ev == c.ev && c.j.actions != []
    requires env' == env.(id := env'.id, paid := env'.paid, speedup := env'.speedup, rates := env'.rates)
    ensures Target(c', env') == Target(c, env)
  {
    assert AskNow(c', env') == AskNow(c, env);
  }

  lemma NextStepRaisesIff(c: Cell, env: Env, budget: BudgetState)
    ensures NextStepOrClose(c, env, budget).None? <==> !MayMove(c.j.state, NextState(c.j))
    ensures NextStepOrClose(c, env, budget).Some? ==>
              NextStepOrClose(c, env, budget).value.j.state in {JPlanned, JAwaitingApproval, Closed}
  {
    if c.j.stepIndex + 1 < |c.j.plan| {
      ReplanRaisesIff(c, env, budget);
    }
  }

  predicate FreshlyScheduled(j: Journey) {
    j.actions != [] && Last(j).status in {Planned, Blocked, AwaitingApproval}
  }

  lemma ScheduleUnderNeverRaises(j: Journey, env: Env, index: nat, discountPct: real, verdict: GateVerdict)
    requires j.state == JPlanned && index < |j.plan|
    ensures ScheduleUnder(j, env, index, discountPct, verdict).Some?
    ensures Follows(j, ScheduleUnder(j, env, index, discountPct, verdict).value)
  {
  }

  /** The row of a planned journey once its next step is scheduled, whatever the gate answers. */
  predicate Follows(j: Journey, k: Journey) {
    SameJourney(j, k) && k.state in {JPlanned, JAwaitingApproval} && FreshlyScheduled(k)
  }

  lemma ScheduleNeverRaises(j: Journey, ev: Event, env: Env, budget: BudgetState, index: nat, discountPct: real)
    requires j.state == JPlanned && index < |j.plan|
    ensures Schedule(j, ev, env, budget, index, discountPct).Some?
    ensures Follows(j, Schedule(j, ev, env, budget, index, discountPct).value)
  {
    ScheduleUnderNeverRaises(j, env, index, discountPct,
                             Gate(env.spec, AskAbout(env, budget, ev, j.plan[index].action, discountPct)));
  }

  lemma MayMoveMoves(j: Journey, target: JourneyState, now: Time) returns (moved: Journey)
    requires MayMove(j.state, target)
    ensures Move(j, target, now) == Some(moved) && moved.state == target && SameJourney(j, moved)
  {
    moved := Move(j, target, now).value;
  }

  lemma ReplanFollows(c: Cell, env: Env, budget: BudgetState) returns (planned: Journey, scheduled: Journey)
    requires c.j.stepIndex + 1 < |c.j.plan| && MayMove(c.j.state, JPlanned)
    ensures Replan(c, env, budget) == Some(c.(j := scheduled))
    ensures SameJourney(c.j, planned) && Follows(planned, scheduled)
  {
    planned := MayMoveMoves(c.j, JPlanned, env.now);
    ScheduleNeverRaises(planned, c.ev, env, budget, c.j.stepIndex + 1, 0.0);
    scheduled := Schedule(planned, c.ev, env, budget, c.j.stepIndex + 1, 0.0).value;
  }

  lemma ReplanRaisesIff(c: Cell, env: Env, budget: BudgetState)
    requires c.j.stepIndex + 1 < |c.j.plan|
    ensures Replan(c, env, budget).None? <==> !MayMove(c.j.state, JPlanned)
    ensures Replan(c, env, budget).Some? ==> Replan(c, env, budget).value.j.state in {JPlanned, JAwaitingApproval}
    ensures Replan(c, env, budget).Some? ==> FreshlyScheduled(Replan(c, env, budget).value.j)
  {
    if MayMove(c.j.state, JPlanned) {
      var planned, scheduled := ReplanFollows(c, env, budget);
    }
  }

  lemma VerifyNeverRaises(c: Cell, env: Env, budget: BudgetState)
    requires c.j.actions != [] && c.j.state == Verifying
    ensures Verify(c, env, budget).Some?
    ensures Verify(c, env, budget).value.j.state in {Verifying, JPlanned, JAwaitingApproval, Closed}
  {
    var (c1, status) := Ascertain(c, env);
    assert c1.j == c.j;
    if status == GwFailed { NextStepRaisesIff(SetLast(c1, Last(c1.j).(status := Failed)), env, budget); }
  }

  lemma ChargeKeepsState(c: Cell, env: Env, ask: Ask)
    requires c.j.actions != []
    ensures var c' := Charge(c, env, ask).0; c'.j.actions != [] && c'.j.state == c.j.state
  {
  }

  lemma AwaitNeverRaises(c: Cell, env: Env, budget: BudgetState, status: GatewayStatus)
    requires c.j.actions != [] && c.j.state == JExecuting
    ensures AwaitVerdict(c, env, budget, status).Some?
    ensures AwaitVerdict(c, env, budget, status).value.j.state in {Verifying, JPlanned, JAwaitingApproval, Closed}
  {
    if status != GwPending { VerifyNeverRaises(c.(j := Move(c.j, Verifying, env.now).value), env, budget); }
  }

  lemma PerformIsAwait(c: Cell, executing: Cell, env: Env, budget: BudgetState, ask: Ask)
    requires c.j.actions != [] && Move(c.j, JExecuting, env.now) == Some(executing.j) && executing == c.(j := executing.j)
    ensures executing.j.actions == c.j.actions && SameJourney(c.j, executing.j) && executing.j.state == JExecuting
    ensures var r := Charge(executing, env, ask);
            r.0.j.actions != [] && Perform(c, env, budget, ask) == AwaitVerdict(r.0, env, budget, r.1)
  {
  }

  lemma PerformRaisesIff(c: Cell, env: Env, budget: BudgetState, ask: Ask)
    requires c.j.actions != []
    ensures Perform(c, env, budget, ask).None? <==> !MayMove(c.j.state, JExecuting)
    ensures Perform(c, env, budget, ask).Some? ==>
              Perform(c, env, budget, ask).value.j.state in {Verifying, JPlanned, JAwaitingApproval, Closed}
  {
    if MayMove(c.j.state, JExecuting) {
      var executing := c.(j := Move(c.j, JExecuting, env.now).value);
      PerformIsAwait(c, executing, env, budget, ask);
      ChargeKeepsState(executing, env, ask);
      AwaitNeverRaises(Charge(executing, env, ask).0, env, budget, Charge(executing, env, ask).1);
    }
  }

  /** Where the gate's answer sends an action that is due. */
  lemma DueTarget(c: Cell, env: Env)
    requires c.j.actions != [] && Last(c.j).status in {Planned, Approved} && Last(c.j).scheduledAt <= env.now
    ensures var target := match Gate(env.spec, AskNow(c, env)).verdict
                          case RequireApproval => JAwaitingApproval
                          case Block => NextState(c.j)
                          case Allow => JExecuting;
            && Target(c, env) == Some(target) && (Stuck(c, env) <==> !MayMove(c.j.state, target))
            && (Charging(c, env) <==> target == JExecuting && MayMove(c.j.state, target))
  {
  }

  /** A turn raises exactly when the table does not let it begin. One that waits leaves the state
      alone, and no other turn leaves a journey approved. */
  lemma AnyTurnRaisesIff(c: Cell, env: Env)
    ensures Advance(c, env).None? <==> Stuck(c, env)
    ensures Advance(c, env).Some? && c.j.actions != [] ==>
              var c' := Advance(c, env).value;
              if Target(c, env).None? then c' == c.(j := c.j.(nextActionAt := c'.j.nextActionAt))
              else c'.j.state in {Verifying, JPlanned, JAwaitingApproval, Closed}
  {
    if c.j.actions != [] {
      var a := Last(c.j);
      match a.status
      case AwaitingApproval =>
      case Blocked => NextStepRaisesIff(CountFutile(c, a.reasons), env, BudgetOf(c.j, c.ev, env.spec));
      case Planned | Approved => if a.scheduledAt <= env.now { DueRaisesIff(c, env); }
      case Executing | Succeeded | Failed | Cancelled | Skipped =>
        if MayMove(c.j.state, Verifying) {
          VerifyNeverRaises(c.(j := Move(c.j, Verifying, env.now).value), env, BudgetOf(c.j, c.ev, env.spec));
        }
    }
  }

  lemma DueRaisesIff(c: Cell, env: Env)
    requires c.j.actions != [] && Last(c.j).status in {Planned, Approved} && Last(c.j).scheduledAt <= env.now
    ensures Due(c, env).None? <==> Stuck(c, env)
    ensures Due(c, env).Some? ==> Due(c, env).value.j.state in {Verifying, JPlanned, JAwaitingApproval, Closed}
  {
    var ask := AskNow(c, env);
    var verdict := Gate(env.spec, ask);
    match verdict.verdict
    case RequireApproval =>
    case Block => NextStepRaisesIff(Refused(c, verdict), env, ask.budget);
    case Allow => PerformRaisesIff(c, env, ask.budget, ask);
  }

  // --------------------------------------------------------------- what a turn may touch

  /** The turn of any row, in order or not: which journey it is stays, calls are only added, the
      only reservation it can add is its action's own, and a customer's lock goes with its journey. */
  ghost predicate Within(c: Cell, c': Cell, key: Key, owner: Owner) {
    && SameJourney(c.j, c'.j) && c'.ev.customer == c.ev.customer
    && c.trace <= c'.trace
    && (forall k :: k in c'.keys ==> (k in c.keys && c'.keys[k] == c.keys[k])
                                     || (k == IdemKey(key) && c'.keys[k].value == owner))
    && (c'.j.state == Closed ==> c.j.state == Closed || CustomerLock(c.j.customer) !in c'.keys)
  }

  /** No execute was added. */
  predicate NoExecute(trace: seq<GatewayCall>, trace': seq<GatewayCall>) {
    forall i :: |trace| <= i < |trace'| ==> !trace'[i].ExecuteCall?
  }

  lemma RowStaysWithin(c: Cell, j: Journey, key: Key, owner: Owner)
    requires SameJourney(c.j, j) && j.state != Closed
    ensures Within(c, c.(j := j), key, owner)
  {
  }

  lemma ReplanStaysWithin(c: Cell, env: Env, budget: BudgetState, key: Key, owner: Owner)
    requires c.j.stepIndex + 1 < |c.j.plan| && Replan(c, env, budget).Some?
    ensures var c' := Replan(c, env, budget).value;
            Within(c, c', key, owner) && c'.trace == c.trace && c'.gw == c.gw
  {
    ReplanRaisesIff(c, env, budget);
    var planned, scheduled := ReplanFollows(c, env, budget);
    RowStaysWithin(c, scheduled, key, owner);
  }

  lemma GiveUpStaysWithin(c: Cell, now: Time, key: Key, owner: Owner)
    requires GiveUp(c, now).Some?
    ensures var c' := GiveUp(c, now).value;
            Within(c, c', key, owner) && c'.trace == c.trace && c'.gw == c.gw
  {
  }

  lemma NextStepStaysWithin(c: Cell, env: Env, budget: BudgetState, key: Key, owner: Owner)
    requires NextStepOrClose(c, env, budget).Some?
    ensures var c' := NextStepOrClose(c, env, budget).value;
            Within(c, c', key, owner) && c'.trace == c.trace && c'.gw == c.gw
  {
    if c.j.stepIndex + 1 < |c.j.plan| {
      ReplanStaysWithin(c, env, budget, key, owner);
    } else {
      GiveUpStaysWithin(c, env.now, key, owner);
    }
  }

  lemma AskStaysWithin(c: Cell, env: Env, key: Key, owner: Owner)
    requires c.j.actions != []
    ensures var c1 := Ascertain(c, env).0;
            Within(c, c1, key, owner) && NoExecute(c.trace, c1.trace) && c1.j == c.j
  {
  }

  lemma ConcludeStaysWithin(c: Cell, env: Env, key: Key, owner: Owner)
    requires c.j.actions != [] && Conclude(c, env).Some?
    ensures var c' := Conclude(c, env).value;
            Within(c, c', key, owner) && c'.trace == c.trace
  {
  }

  lemma WithinJoins(c: Cell, c1: Cell, c2: Cell, key: Key, owner: Owner)
    requires Within(c, c1, key, owner) && Within(c1, c2, key, owner) && c1.j.state != Closed
    ensures Within(c, c2, key, owner)
    ensures NoExecute(c1.trace, c2.trace) ==>
              forall i :: |c.trace| <= i < |c2.trace| && c2.trace[i].ExecuteCall? ==>
                i < |c1.trace| && c1.trace[i] == c2.trace[i]
  {
    forall i | |c.trace| <= i < |c2.trace| && c2.trace[i].ExecuteCall? && NoExecute(c1.trace, c2.trace)
      ensures i < |c1.trace| && c1.trace[i] == c2.trace[i]
    {
    }
  }

  lemma VerifyStaysWithin(c: Cell, env: Env, budget: BudgetState, key: Key, owner: Owner)
    requires c.j.actions != [] && c.j.state == Verifying && Verify(c, env, budget).Some?
    ensures var c' := Verify(c, env, budget).value;
            Within(c, c', key, owner) && NoExecute(c.trace, c'.trace)
  {
    AskStaysWithin(c, env, key, owner);
    var (c1, status) := Ascertain(c, env);
    var c' := Verify(c, env, budget).value;
    match status
    case GwPending =>
    case GwSucceeded =>
      ConcludeStaysWithin(c1, env, key, owner);
      WithinJoins(c, c1, c', key, owner);
    case GwFailed =>
      NextStepStaysWithin(SetLast(c1, Last(c1.j).(status := Failed)), env, budget, key, owner);
      WithinJoins(c, c1, c', key, owner);
  }

  // ------------------------------------------------------------------- when a turn charges

  /** Who holds the action's key at this instant. */
  function Holder(keys: Keys, key: Key, now: Time): Option<Owner> {
    var k := IdemKey(key);
    if k in keys && keys[k].expiresAt > now then Some(keys[k].value) else None
  }

  predicate OwnOrFree(keys: Keys, key: Key, owner: Owner) {
    IdemKey(key) in keys ==> keys[IdemKey(key)].value == owner
  }

  /** Every execute that was added carries this key. */
  predicate ExecutesOnly(trace: seq<GatewayCall>, trace': seq<GatewayCall>, key: Key) {
    forall i :: |trace| <= i < |trace'| && trace'[i].ExecuteCall? ==> trace'[i].key == key
  }

  predicate Sends(trace: seq<GatewayCall>, trace': seq<GatewayCall>, key: Key) {
    exists i :: |trace| <= i < |trace'| && trace'[i].ExecuteCall? && trace'[i].key == key
  }

  /** At most the one key is reserved and sent, and it is sent for certain if nobody else holds it. */
  ghost predicate ChargesOwn(c: Cell, c': Cell, key: Key, owner: Owner) {
    && Within(c, c', key, owner) && ExecutesOnly(c.trace, c'.trace, key)
    && (OwnOrFree(c.keys, key, owner) ==> Sends(c.trace, c'.trace, key))
  }

  lemma ChargeStaysWithin(c: Cell, env: Env, ask: Ask)
    requires c.j.actions != [] && c.j.state == JExecuting
    ensures ChargesOwn(c, Charge(c, env, ask).0, Last(c.j).key, ByAction(env.id, Last(c.j).sequence))
  {
    var a, c' := Last(c.j), Charge(c, env, ask).0;
    if OwnOrFree(c.keys, a.key, ByAction(env.id, a.sequence)) {
      assert c'.trace[|c.trace|].ExecuteCall?;
    }
  }

  lemma AwaitStaysWithin(charged: Cell, env: Env, budget: BudgetState, status: GatewayStatus, key: Key, owner: Owner)
    requires charged.j.actions != [] && charged.j.state == JExecuting
    requires AwaitVerdict(charged, env, budget, status).Some?
    ensures var c' := AwaitVerdict(charged, env, budget, status).value;
            Within(charged, c', key, owner) && NoExecute(charged.trace, c'.trace)
  {
    var verifying := charged.(j := Move(charged.j, Verifying, env.now).value);
    if status != GwPending { VerifyStaysWithin(verifying, env, budget, key, owner); }
  }

  lemma ChargeJoins(c: Cell, charged: Cell, c': Cell, key: Key, owner: Owner)
    requires ChargesOwn(c, charged, key, owner) && charged.j.state != Closed
    requires Within(charged, c', key, owner) && NoExecute(charged.trace, c'.trace)
    ensures ChargesOwn(c, c', key, owner)
  {
    WithinJoins(c, charged, c', key, owner);
    if OwnOrFree(c.keys, key, owner) {
      var i :| |c.trace| <= i < |charged.trace| && charged.trace[i].ExecuteCall? && charged.trace[i].key == key;
      assert c'.trace[i] == charged.trace[i];
    }
  }

  lemma AwaitedStaysWithin(c: Cell, executing: Cell, charged: Cell, env: Env, budget: BudgetState,
                           status: GatewayStatus, key: Key, owner: Owner)
    requires executing == c.(j := executing.j) && SameJourney(c.j, executing.j) && executing.j.state == JExecuting
    requires ChargesOwn(executing, charged, key, owner)
    requires charged.j.actions != [] && charged.j.state == JExecuting
    requires AwaitVerdict(charged, env, budget, status).Some?
    ensures ChargesOwn(c, AwaitVerdict(charged, env, budget, status).value, key, owner)
  {
    var c' := AwaitVerdict(charged, env, budget, status).value;
    AwaitStaysWithin(charged, env, budget, status, key, owner);
    ChargeJoins(executing, charged, c', key, owner);
    SameStart(c, executing, c', key, owner);
  }

  lemma ChargedStaysWithin(c: Cell, executing: Cell, env: Env, budget: BudgetState, ask: Ask)
    requires executing == c.(j := executing.j) && SameJourney(c.j, executing.j) && executing.j.state == JExecuting
    requires executing.j.actions != [] && Charge(executing, env, ask).0.j.actions != []
    requires AwaitVerdict(Charge(executing, env, ask).0, env, budget, Charge(executing, env, ask).1).Some?
    ensures ChargesOwn(c, AwaitVerdict(Charge(executing, env, ask).0, env, budget, Charge(executing, env, ask).1).value,
                       Last(executing.j).key, ByAction(env.id, Last(executing.j).sequence))
  {
    ChargeStaysWithin(executing, env, ask);
    ChargeKeepsState(executing, env, ask);
    AwaitedStaysWithin(c, executing, Charge(executing, env, ask).0, env, budget, Charge(executing, env, ask).1,
                       Last(executing.j).key, ByAction(env.id, Last(executing.j).sequence));
  }

  lemma PerformStaysWithin(c: Cell, env: Env, budget: BudgetState, ask: Ask)
    requires c.j.actions != [] && c.j.state != Closed && Perform(c, env, budget, ask).Some?
    ensures ChargesOwn(c, Perform(c, env, budget, ask).value, Last(c.j).key, ByAction(env.id, Last(c.j).sequence))
  {
    var executing := c.(j := Move(c.j, JExecuting, env.now).value);
    PerformIsAwait(c, executing, env, budget, ask);
    ChargedStaysWithin(c, executing, env, budget, ask);
  }

  lemma SameStart(c: Cell, c0: Cell, c': Cell, key: Key, owner: Owner)
    requires ChargesOwn(c0, c', key, owner) && c0 == c.(j := c0.j) && SameJourney(c.j, c0.j)
    requires c0.j.state != Closed
    ensures ChargesOwn(c, c', key, owner)
  {
  }

  /** What any turn that does not raise keeps. Only a charging turn executes, only its own action,
      and it does so for certain if nobody else holds the key. */
  ghost predicate TurnKeeps(c: Cell, c': Cell, env: Env)
    requires c.j.actions != []
  {
    var a := Last(c.j);
    var owner := ByAction(env.id, a.sequence);
    if Charging(c, env) then ChargesOwn(c, c', a.key, owner)
    else Within(c, c', a.key, owner) && NoExecute(c.trace, c'.trace)
  }

  lemma AnyTurnKeeps(c: Cell, env: Env)
    requires c.j.actions != [] && c.j.state != Closed && Advance(c, env).Some?
    ensures TurnKeeps(c, Advance(c, env).value, env)
  {
    AnyTurnRaisesIff(c, env);
    var a := Last(c.j);
    var owner := ByAction(env.id, a.sequence);
    match a.status
    case AwaitingApproval =>
    case Blocked =>
      var counted := CountFutile(c, a.reasons);
      NextStepStaysWithin(counted, env, BudgetOf(c.j, c.ev, env.spec), a.key, owner);
    case Planned | Approved => if a.scheduledAt <= env.now { AnyDueKeeps(c, env); }
    case Executing | Succeeded | Failed | Cancelled | Skipped =>
      var verifying := c.(j := Move(c.j, Verifying, env.now).value);
      VerifyStaysWithin(verifying, env, BudgetOf(c.j, c.ev, env.spec), a.key, owner);
  }

  lemma HoldStaysWithin(c: Cell, env: Env, verdict: GateVerdict, key: Key, owner: Owner)
    requires c.j.actions != [] && Hold(c, env, verdict).Some?
    ensures var c' := Hold(c, env, verdict).value;
            Within(c, c', key, owner) && c'.trace == c.trace
  {
  }

  lemma RefuseStaysWithin(c: Cell, env: Env, budget: BudgetState, verdict: GateVerdict, key: Key, owner: Owner)
    requires c.j.actions != [] && Refuse(c, env, budget, verdict).Some?
    ensures var c' := Refuse(c, env, budget, verdict).value;
            Within(c, c', key, owner) && c'.trace == c.trace
  {
    NextStepStaysWithin(Refused(c, verdict), env, budget, key, owner);
  }

  lemma AnyDueKeeps(c: Cell, env: Env)
    requires c.j.actions != [] && c.j.state != Closed && Due(c, env).Some?
    requires Last(c.j).status in {Planned, Approved} && Last(c.j).scheduledAt <= env.now
    ensures TurnKeeps(c, Due(c, env).value, env)
  {
    DueRaisesIff(c, env);
    DueTarget(c, env);
    var ask := AskNow(c, env);
    var verdict := Gate(env.spec, ask);
    var key, owner := Last(c.j).key, ByAction(env.id, Last(c.j).sequence);
    match verdict.verdict
    case RequireApproval => HoldStaysWithin(c, env, verdict, key, owner);
    case Block => RefuseStaysWithin(c, env, ask.budget, verdict, key, owner);
    case Allow => PerformStaysWithin(c, env, ask.budget, ask);
  }

  // ------------------------------------------------------------------- when a turn closes

  /** What the gateway answers to an execute, and the state query that follows a timeout. */
  function ChargeAnswer(c: Cell, env: Env): GatewayStatus
    requires c.j.actions != []
  {
    if c.gw.timeouts > 0 then Settled(c.gw.succeedAfterTimeout)
    else if Last(c.j).kind == RetryPayment then Settled(Last(c.j).key in env.paid)
    else GwPending
  }

  /** What a turn that executes or asks finds out, from the rows, the gateway and what the outside
      world has paid. */
  function Learns(c: Cell, env: Env): GatewayStatus
    requires c.j.actions != []
  {
    if Charging(c, env) then ChargeAnswer(c, env) else Ascertain(c, env).1
  }

  /** The turn ends the journey: the money came, or the last step of the plan has come to nothing. */
  predicate Closes(c: Cell, env: Env) {
    && c.j.actions != [] && Target(c, env).Some? && !Stuck(c, env)
    && match Target(c, env).value
       case JFailed => true
       case JExecuting | Verifying =>
         Learns(c, env) == GwSucceeded || (Learns(c, env) == GwFailed && NextState(c.j) == JFailed)
       case _ => false
  }

  /** A gateway whose faults are used up by the turns that charge. */
  function GatewayAfter(c: Cell, env: Env): Simulator {
    if Charging(c, env) then TakeTimeout(c.gw).0 else c.gw
  }

  lemma NextStepClosesIff(c: Cell, env: Env, budget: BudgetState)
    requires NextStepOrClose(c, env, budget).Some?
    ensures var c' := NextStepOrClose(c, env, budget).value;
            (c'.j.state == Closed <==> NextState(c.j) == JFailed) && c'.gw == c.gw
  {
    if c.j.stepIndex + 1 < |c.j.plan| { ReplanRaisesIff(c, env, budget); }
  }

  lemma VerifyClosesIff(c: Cell, env: Env, budget: BudgetState)
    requires c.j.actions != [] && c.j.state == Verifying && c.gw.unresolved == {} && Verify(c, env, budget).Some?
    ensures var c', s := Verify(c, env, budget).value, Ascertain(c, env).1;
            && (c'.j.state == Closed <==> s == GwSucceeded || (s == GwFailed && NextState(c.j) == JFailed))
            && c'.gw == c.gw
  {
    var (c1, status) := Ascertain(c, env);
    if status == GwFailed { NextStepClosesIff(SetLast(c1, Last(c1.j).(status := Failed)), env, budget); }
  }

  lemma ChargeLearns(c: Cell, env: Env, ask: Ask)
    requires Core(env.id, c) && Last(c.j).executedAt.None? && ask.action == Last(c.j).kind
    ensures var r := Charge(c, env, ask);
            && r.0.gw == TakeTimeout(c.gw).0
            && r.1 == ChargeAnswer(c, env)
  {
    ReservationSucceeds(env.id, c, env);
    assert c.gw.unresolved + {Last(c.j).key} - {Last(c.j).key} == c.gw.unresolved;
  }

  lemma AfterChargeClosesIff(c3: Cell, env: Env, budget: BudgetState, status: GatewayStatus)
    requires c3.j.actions != [] && c3.j.state == Verifying && c3.gw.unresolved == {}
    requires Last(c3.j).status == StatusAfterCall(status)
    requires AfterCharge(c3, env, budget, status).Some?
    ensures var c' := AfterCharge(c3, env, budget, status).value;
            && (c'.j.state == Closed <==> status == GwSucceeded || (status == GwFailed && NextState(c3.j) == JFailed))
            && c'.gw == c3.gw
  {
    if status != GwPending { VerifyClosesIff(c3, env, budget); }
  }

  lemma ChargedLearns(c: Cell, env: Env, ask: Ask)
    requires Core(env.id, c) && Last(c.j).executedAt.None? && ask.action == Last(c.j).kind
    requires MayMove(c.j.state, JExecuting)
    ensures var r := Charge(c.(j := Move(c.j, JExecuting, env.now).value), env, ask);
            r.0.gw == TakeTimeout(c.gw).0 && r.1 == ChargeAnswer(c, env)
  {
    MoveKeepsCore(env.id, c, JExecuting, env.now);
    ChargeLearns(c.(j := Move(c.j, JExecuting, env.now).value), env, ask);
  }

  lemma PerformClosesIff(c: Cell, env: Env, ask: Ask)
    requires CellOk(env.id, c) && Open(c.j) && Last(c.j).executedAt.None? && MayMove(c.j.state, JExecuting)
    requires ask == AskNow(c, env) && Gate(env.spec, ask).verdict == Allow && Perform(c, env, ask.budget, ask).Some?
    ensures var c', s := Perform(c, env, ask.budget, ask).value, ChargeAnswer(c, env);
            && (c'.j.state == Closed <==> s == GwSucceeded || (s == GwFailed && NextState(c.j) == JFailed))
            && c'.gw == TakeTimeout(c.gw).0
  {
    ChargedLearns(c, env, ask);
    var c3, status := PerformedTurn(c, env, ask.budget, ask);
    AfterChargeClosesIff(c3, env, ask.budget, status);
  }

  /** Nobody's turn but a charging one changes what the gateway has in store. */
  ghost predicate EndsAs(c: Cell, c': Cell, env: Env) {
    (c'.j.state == Closed <==> Closes(c, env)) && c'.gw == GatewayAfter(c, env)
  }

  lemma SkipClosesIff(c: Cell, env: Env)
    requires c.j.actions != [] && Last(c.j).status == Blocked && SkipBlocked(c, env).Some?
    ensures EndsAs(c, SkipBlocked(c, env).value, env)
  {
    NextStepRaisesIff(CountFutile(c, Last(c.j).reasons), env, BudgetOf(c.j, c.ev, env.spec));
    NextStepClosesIff(CountFutile(c, Last(c.j).reasons), env, BudgetOf(c.j, c.ev, env.spec));
  }

  lemma SameAnswer(c: Cell, j: Journey, env: Env)
    requires c.j.actions != [] && Restated(c.j, j)
    ensures Ascertain(c.(j := j), env).1 == Ascertain(c, env).1 && NextState(j) == NextState(c.j)
  {
  }

  /** What makes a turn close that asks for the outcome. */
  lemma AskingCloses(c: Cell, env: Env)
    requires c.j.actions != [] && Last(c.j).status in {Executing, Succeeded, Failed, Cancelled, Skipped}
    requires MayMove(c.j.state, Verifying)
    ensures var s := Ascertain(c, env).1;
            Closes(c, env) <==> s == GwSucceeded || (s == GwFailed && NextState(c.j) == JFailed)
    ensures GatewayAfter(c, env) == c.gw
  {
  }

  lemma ResolveClosesIff(c: Cell, env: Env)
    requires c.j.actions != [] && Last(c.j).status in {Executing, Succeeded, Failed, Cancelled, Skipped}
    requires c.gw.unresolved == {} && Resolve(c, env).Some?
    ensures EndsAs(c, Resolve(c, env).value, env)
  {
    if MayMove(c.j.state, Verifying) {
      var j := Move(c.j, Verifying, env.now).value;
      SameAnswer(c, j, env);
      AskingCloses(c, env);
      VerifyClosesIff(c.(j := j), env, BudgetOf(c.j, c.ev, env.spec));
    }
  }

  /** What makes a turn close whose action is due. */
  lemma DueCloses(c: Cell, env: Env)
    requires c.j.actions != [] && Last(c.j).status in {Planned, Approved} && Last(c.j).scheduledAt <= env.now
    requires !Stuck(c, env)
    ensures match Gate(env.spec, AskNow(c, env)).verdict
            case RequireApproval => !Closes(c, env) && GatewayAfter(c, env) == c.gw
            case Block => (Closes(c, env) <==> NextState(c.j) == JFailed) && GatewayAfter(c, env) == c.gw
            case Allow =>
              && (Closes(c, env) <==>
                    ChargeAnswer(c, env) == GwSucceeded || (ChargeAnswer(c, env) == GwFailed && NextState(c.j) == JFailed))
              && GatewayAfter(c, env) == TakeTimeout(c.gw).0
  {
    DueTarget(c, env);
  }

  lemma HoldClosesNever(c: Cell, env: Env, verdict: GateVerdict)
    requires c.j.actions != [] && Hold(c, env, verdict).Some?
    ensures var c' := Hold(c, env, verdict).value; c'.j.state == JAwaitingApproval && c'.gw == c.gw
  {
  }

  lemma RefuseClosesIff(c: Cell, env: Env, budget: BudgetState, verdict: GateVerdict)
    requires c.j.actions != [] && Refuse(c, env, budget, verdict).Some?
    ensures var c' := Refuse(c, env, budget, verdict).value;
            (c'.j.state == Closed <==> NextState(c.j) == JFailed) && c'.gw == c.gw
  {
    NextStepClosesIff(Refused(c, verdict), env, budget);
  }

  lemma DueClosesIff(c: Cell, env: Env)
    requires CellOk(env.id, c) && Open(c.j) && Due(c, env).Some?
    requires Last(c.j).status in {Planned, Approved} && Last(c.j).scheduledAt <= env.now
    ensures EndsAs(c, Due(c, env).value, env)
  {
    DueRaisesIff(c, env);
    DueTarget(c, env);
    DueCloses(c, env);
    var ask := AskNow(c, env);
    var verdict := Gate(env.spec, ask);
    match verdict.verdict
    case RequireApproval => HoldClosesNever(c, env, verdict);
    case Block => RefuseClosesIff(c, env, ask.budget, verdict);
    case Allow =>
      LastIsExecuted(env.id, c.j);
      PerformClosesIff(c, env, ask);
  }

  /** The turn of a row in order closes the journey exactly when what it learns says so. */
  lemma ClosesIff(c: Cell, env: Env)
    requires CellOk(env.id, c) && Open(c.j) && Advance(c, env).Some?
    ensures EndsAs(c, Advance(c, env).value, env)
  {
    var a := Last(c.j);
    match a.status
    case AwaitingApproval =>
    case Blocked => SkipClosesIff(c, env);
    case Planned | Approved => if a.scheduledAt <= env.now { DueClosesIff(c, env); }
    case Executing | Succeeded | Failed | Cancelled | Skipped => ResolveClosesIff(c, env);
  }
}
