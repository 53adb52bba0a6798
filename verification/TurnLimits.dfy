/** Limits on a single turn: when it raises, why turns cannot go on forever, and how the budgets
    hold although only the gate checks them. */
module TurnLimits {
  import opened Domain
  import opened Rows
  import opened Policy
  import opened Decision
  import opened Journey
  import opened Gateway
  import opened Ledger
  import opened Recovery
  import opened RecoveryProofs
  import opened TurnShape

  // ------------------------------------------------------------------- when a turn raises

  /** The re-check before execution turns an approved action down while the plan has a step
      left: the one situation the transition table does not provide for. */
  predicate ApprovedThenBlocked(c: Cell, env: Env)
    requires c.j.actions != []
  {
    && c.j.state == JApproved
    && Last(c.j).scheduledAt <= env.now
    && Gate(env.spec, AskNow(c, env)).verdict == Block
    && c.j.stepIndex + 1 < |c.j.plan|
  }

  /** A turn of a journey at rest raises exactly when an approved action is blocked on the
      re-check with a step of the plan left. */
  lemma TurnRaisesIff(c: Cell, env: Env)
    requires CellOk(env.id, c) && Open(c.j) && Legal(c.j)
    ensures Advance(c, env).None? <==> ApprovedThenBlocked(c, env)
  {
    AnyTurnRaisesIff(c, env);
    StuckIffTurnedDown(c, env);
  }

  /** The table provides for every other turn of a journey at rest. */
  lemma StuckIffTurnedDown(c: Cell, env: Env)
    requires CellOk(env.id, c) && Open(c.j) && Legal(c.j)
    ensures Stuck(c, env) <==> ApprovedThenBlocked(c, env)
  {
    if Last(c.j).status in {Planned, Approved} && Last(c.j).scheduledAt <= env.now { DueTarget(c, env); }
  }

  // ----------------------------------------------------------------------- termination

  function Phase(s: ActionStatus): nat {
    match s
    case Planned | Approved => 3
    case AwaitingApproval => 2
    case _ => 1
  }

  /** Steps of the plan not reached yet, then how far the current one has come. */
  function Remaining(j: Journey): nat
    requires j.actions != [] && j.stepIndex < |j.plan|
  {
    if !Open(j) then 0 else 4 * (|j.plan| - 1 - j.stepIndex) + Phase(Last(j).status)
  }

  /** The turn can do nothing yet: a human has to decide, the step is not due, or the outcome
      cannot be asked for yet. */
  predicate Waiting(c: Cell, env: Env)
    requires c.j.actions != []
  {
    var a := Last(c.j);
    match a.status
    case AwaitingApproval => true
    case Planned | Approved => a.scheduledAt > env.now
    case Executing => a.executedAt.Some? && env.now < a.executedAt.value + Scaled(a.resolveAfterSeconds, env.speedup)
    case _ => false
  }

  lemma RestedMeasure(id: JourneyId, c: Cell)
    requires AtRest(id, c)
    ensures Remaining(c.j) <= 4 * (|c.j.plan| - 1 - c.j.stepIndex) + 3
  {
  }

  lemma NextStepShrinks(id: JourneyId, c: Cell, env: Env, budget: BudgetState)
    requires Core(id, c) && env.id == id && Finished(Last(c.j))
    requires c.ev.cohort == Treatment && c.ev.customer == c.j.customer && c.ev.status == InRecovery
    requires NextStepOrClose(c, env, budget).Some?
    ensures var j := NextStepOrClose(c, env, budget).value.j;
            j.actions != [] && j.stepIndex < |j.plan|
            && Remaining(j) < 4 * (|c.j.plan| - 1 - c.j.stepIndex) + 1
  {
    NextStepRests(id, c, env, budget);
    RestedMeasure(id, NextStepOrClose(c, env, budget).value);
  }

  lemma VerifyShrinks(c: Cell, env: Env, budget: BudgetState)
    requires Core(env.id, c) && c.j.state == Verifying && c.ev.status == InRecovery
    requires c.ev.cohort == Treatment && c.ev.customer == c.j.customer
    requires Last(c.j).status in {Executing, Succeeded, Failed} && !Waiting(c, env)
    requires Verify(c, env, budget).Some?
    ensures var j := Verify(c, env, budget).value.j;
            j.actions != [] && j.stepIndex < |j.plan|
            && Remaining(j) < 4 * (|c.j.plan| - 1 - c.j.stepIndex) + 1
  {
    var calls := AscertainKeepsCore(env.id, c, env);
    var (c1, status) := Ascertain(c, env);
    if status == GwSucceeded {
      ConcludeRests(env.id, c1, env);
    } else {
      FailKeepsCore(env.id, c1);
      NextStepShrinks(env.id, SetLast(c1, Last(c1.j).(status := Failed)), env, budget);
    }
  }

  lemma AfterChargeShrinks(c: Cell, c3: Cell, env: Env, budget: BudgetState, status: GatewayStatus)
    requires ChargedTurn(c, c3, env, status) && AfterCharge(c3, env, budget, status).Some?
    ensures var j := AfterCharge(c3, env, budget, status).value.j;
            j.actions != [] && j.stepIndex < |j.plan|
            && Remaining(j) <= 4 * (|c.j.plan| - 1 - c.j.stepIndex) + 1
  {
    if status == GwPending {
      var j := AfterCharge(c3, env, budget, status).value.j;
      assert Last(j) == Last(c3.j) && j.state == Verifying;
    } else {
      VerifyShrinks(c3, env, budget);
    }
  }

  lemma PerformShrinks(c: Cell, env: Env, budget: BudgetState, ask: Ask)
    requires CellOk(env.id, c) && Open(c.j) && Last(c.j).executedAt.None?
    requires ask == AskNow(c, env) && Gate(env.spec, ask).verdict == Allow
    requires Perform(c, env, budget, ask).Some?
    ensures var j := Perform(c, env, budget, ask).value.j;
            j.actions != [] && j.stepIndex < |j.plan|
            && Remaining(j) <= 4 * (|c.j.plan| - 1 - c.j.stepIndex) + 1
  {
    var c3, status := PerformedTurn(c, env, budget, ask);
    AfterChargeShrinks(c, c3, env, budget, status);
  }

  lemma DueShrinks(c: Cell, env: Env)
    requires CellOk(env.id, c) && Open(c.j) && Last(c.j).status in {Planned, Approved}
    requires Due(c, env).Some?
    ensures var j := Due(c, env).value.j;
            j.actions != [] && j.stepIndex < |j.plan|
            && Remaining(j) < 4 * (|c.j.plan| - 1 - c.j.stepIndex) + 3
  {
    var ask := AskNow(c, env);
    var verdict := Gate(env.spec, ask);
    match verdict.verdict
    case RequireApproval =>
      HoldRests(c, env, verdict);
      assert Last(Hold(c, env, verdict).value.j).status == AwaitingApproval;
    case Block =>
      RefusedKeepsCore(env.id, c, verdict);
      NextStepShrinks(env.id, Refused(c, verdict), env, ask.budget);
    case Allow => PerformShrinks(c, env, ask.budget, ask);
  }

  lemma SkipShrinks(c: Cell, env: Env)
    requires CellOk(env.id, c) && Open(c.j) && Last(c.j).status == Blocked
    requires SkipBlocked(c, env).Some?
    ensures var j := SkipBlocked(c, env).value.j;
            j.actions != [] && j.stepIndex < |j.plan|
            && Remaining(j) < 4 * (|c.j.plan| - 1 - c.j.stepIndex) + 1
  {
    CountFutileKeepsCore(env.id, c, Last(c.j).reasons);
    NextStepShrinks(env.id, CountFutile(c, Last(c.j).reasons), env, BudgetOf(c.j, c.ev, env.spec));
  }

  lemma ResolveShrinks(c: Cell, env: Env)
    requires CellOk(env.id, c) && Open(c.j) && c.j.state == Verifying && Last(c.j).status == Executing
    requires !Waiting(c, env) && Resolve(c, env).Some?
    ensures var j := Resolve(c, env).value.j;
            j.actions != [] && j.stepIndex < |j.plan|
            && Remaining(j) < 4 * (|c.j.plan| - 1 - c.j.stepIndex) + 1
  {
    VerifyShrinks(c, env, BudgetOf(c.j, c.ev, env.spec));
  }

  /** Between two human decisions every turn that is not waiting brings the journey closer to
      its end: a later step, or the same step further along, or closed. */
  lemma TurnsTerminate(c: Cell, env: Env)
    requires CellOk(env.id, c) && Open(c.j) && Legal(c.j) && !Waiting(c, env)
    requires Advance(c, env).Some?
    ensures var j := Advance(c, env).value.j;
            j.actions != [] && j.stepIndex < |j.plan| && Remaining(j) < Remaining(c.j)
  {
    match Last(c.j).status
    case Blocked => SkipShrinks(c, env);
    case Planned | Approved => DueShrinks(c, env);
    case Executing => ResolveShrinks(c, env);
    case _ =>
  }

  /** The turn is held up by the clock, not by a human. */
  predicate WaitsForClock(c: Cell, env: Env)
    requires c.j.actions != []
  {
    Last(c.j).status != AwaitingApproval && Waiting(c, env)
  }

  /** The journey is closed or in a human's hands. */
  predicate Handled(j: Journey) {
    j.state == Closed || (j.actions != [] && Last(j).status == AwaitingApproval)
  }

  /** A turn and the rows it found. */
  datatype Turning = Turning(c: Cell, env: Env)

  /** The journey row a turn leaves; a closed journey gets no turn. */
  function RowAfter(t: Turning): Option<Journey> {
    if !Open(t.c.j) then Some(t.c.j)
    else
      var c' :- Advance(t.c, t.env);
      Some(c'.j)
  }

  function RowBefore(turns: seq<Turning>, end: Journey, i: nat): Journey
    requires i <= |turns|
  {
    if i < |turns| then turns[i].c.j else end
  }

  ghost predicate TurnAt(id: JourneyId, turns: seq<Turning>, end: Journey, i: nat)
    requires i < |turns|
  {
    var t := turns[i];
    && t.env.id == id && CellOk(id, t.c) && Legal(t.c.j)
    && (Open(t.c.j) ==> !WaitsForClock(t.c, t.env))
    && RowAfter(t) == Some(RowBefore(turns, end, i + 1))
  }

  /** One journey's turns in order, none held up by the clock and none raising. Each finds the row
      the one before has left; whatever other journeys did in between to the key store, the gateway
      and the ledger is not restricted. */
  ghost predicate TurnsInOrder(id: JourneyId, turns: seq<Turning>, end: Journey) {
    forall i :: 0 <= i < |turns| ==> TurnAt(id, turns, end, i)
  }

  lemma HandledStays(id: JourneyId, t: Turning)
    requires t.env.id == id && CellOk(id, t.c) && RowAfter(t).Some? && Handled(t.c.j)
    ensures Handled(RowAfter(t).value)
  {
  }

  lemma TurnNears(id: JourneyId, t: Turning)
    requires t.env.id == id && CellOk(id, t.c) && Legal(t.c.j) && RowAfter(t).Some? && !Handled(t.c.j)
    requires Open(t.c.j) ==> !WaitsForClock(t.c, t.env)
    ensures var j := RowAfter(t).value;
            j.actions != [] && j.stepIndex < |j.plan| && Remaining(j) < Remaining(t.c.j)
            && (Remaining(j) == 0 ==> j.state == Closed)
  {
    TurnsTerminate(t.c, t.env);
    AdvanceRests(t.c, t.env);
  }

  /** The next turn of a journey that nobody handles yet brings it closer to its end. */
  ghost predicate Nearer(j: Journey, j': Journey) {
    && j.actions != [] && j.stepIndex < |j.plan| && j'.actions != [] && j'.stepIndex < |j'.plan|
    && Remaining(j') < Remaining(j) && (Remaining(j') == 0 ==> j'.state == Closed)
  }

  lemma FirstTurn(id: JourneyId, turns: seq<Turning>, end: Journey)
    requires turns != [] && TurnsInOrder(id, turns, end)
    ensures var j, j' := turns[0].c.j, RowBefore(turns, end, 1);
            if Handled(j) then Handled(j') else Nearer(j, j')
  {
    assert TurnAt(id, turns, end, 0);
    if Handled(turns[0].c.j) { HandledStays(id, turns[0]); } else { TurnNears(id, turns[0]); }
  }

  /** However its turns come, a journey ends closed or waiting for a human: after as many turns as
      its measure, which is at most four for each step of its plan, it is one or the other. */
  lemma TurnsEnd(id: JourneyId, turns: seq<Turning>, end: Journey)
    requires turns != [] && TurnsInOrder(id, turns, end)
    requires CellOk(id, turns[0].c) && |turns| >= Remaining(turns[0].c.j)
    ensures Handled(end)
    ensures Remaining(turns[0].c.j) <= 4 * |turns[0].c.j.plan|
  {
    TurnsRunDown(id, turns, end, Remaining(turns[0].c.j));
  }

  predicate AtMost(j: Journey, n: nat) {
    j.actions != [] && j.stepIndex < |j.plan| && Remaining(j) <= n
  }

  lemma {:induction false} TurnsRunDown(id: JourneyId, turns: seq<Turning>, end: Journey, n: nat)
    requires turns != [] && TurnsInOrder(id, turns, end) && n <= |turns|
    requires Handled(turns[0].c.j) || AtMost(turns[0].c.j, n)
    ensures Handled(end)
    decreases |turns|
  {
    FirstTurn(id, turns, end);
    var rest := turns[1..];
    assert RowBefore(turns, end, 1) == RowBefore(rest, end, 0);
    if rest != [] {
      RestInOrder(id, turns, end);
      TurnsRunDown(id, rest, end, if n > 0 then n - 1 else 0);
    }
  }

  lemma RestInOrder(id: JourneyId, turns: seq<Turning>, end: Journey)
    requires turns != [] && TurnsInOrder(id, turns, end)
    ensures TurnsInOrder(id, turns[1..], end)
  {
    var rest := turns[1..];
    forall i | 0 <= i < |rest| ensures TurnAt(id, rest, end, i) {
      assert TurnAt(id, turns, end, i + 1);
      assert RowBefore(rest, end, i + 1) == RowBefore(turns, end, i + 2);
    }
  }

  // --------------------------------------------------------------------------- budgets

  /** Contacts of one journey keep their distance. */
  predicate Spaced(actions: seq<Action>, cooldown: int) {
    forall i, k :: 0 <= i < k < |actions| && IsContact(actions[i]) && IsContact(actions[k]) ==>
      actions[k].executedAt.value >= actions[i].executedAt.value + cooldown
  }

  predicate IsContact(a: Action) {
    a.executedAt.Some? && Catalog(a.kind).consumesContact
  }

  /** What the merchant was promised about one journey. */
  predicate WithinBudget(spec: PolicySpec, j: Journey, ev: Event) {
    && j.contactsUsed <= MaxInt(0, spec.maxContacts - ev.priorContacts)
    && j.retriesUsed <= MaxInt(0, spec.maxRetries - ev.retryCount)
    && j.discountsUsed <= MaxInt(0, spec.maxDiscountOffers)
    && j.voiceUsed <= MaxInt(0, spec.maxVoiceAttempts)
    && Spaced(j.actions, spec.contactCooldownMinutes * MINUTE)
  }

  lemma {:induction false} LastContactIsLatest(actions: seq<Action>, i: nat)
    requires i < |actions| && IsContact(actions[i])
    ensures LastContact(actions).Some? && LastContact(actions).value >= actions[i].executedAt.value
  {
    var n := |actions| - 1;
    if i < n {
      assert actions[..n][i] == actions[i];
      LastContactIsLatest(actions[..n], i);
    }
  }

  predicate NewlyExecuted(c: Cell, c': Cell)
    requires c.j.actions != [] && |c.j.actions| <= |c'.j.actions|
  {
    Last(c.j).executedAt.None? && c'.j.actions[|c.j.actions| - 1].executedAt.Some?
  }

  /** A turn moves a meter by at most one, and only by executing. */
  lemma CountStep(c: Cell, c': Cell, env: Env, meter: Meter)
    requires CellOk(env.id, c) && CellOk(env.id, c') && Footprint(c, c', env)
    ensures Count(c'.j.actions, meter)
            == Count(c.j.actions, meter) + One(NewlyExecuted(c, c') && Ticks(meter, Last(c.j).kind))
  {
    FootprintActions(c, c', env);
    CountActionsStep(c, c', env.now, meter);
  }

  lemma CountActionsStep(c: Cell, c': Cell, now: Time, meter: Meter)
    requires c.j.actions != [] && ActionsStep(c, c') && ExecutionStep(c, c', now)
    requires c'.j.actions[|c.j.actions| - 1].kind == Last(c.j).kind
    ensures Count(c'.j.actions, meter)
            == Count(c.j.actions, meter) + One(NewlyExecuted(c, c') && Ticks(meter, Last(c.j).kind))
  {
    var n := |c.j.actions| - 1;
    var upto := c'.j.actions[..n + 1];
    assert upto[..n] == c.j.actions[..n];
    if |c'.j.actions| == n + 2 {
      assert c'.j.actions[..n + 1] == upto;
    } else {
      assert c'.j.actions == upto;
    }
  }

  lemma ExecutionWasAllowed(c: Cell, c': Cell, env: Env)
    requires CellOk(env.id, c) && Footprint(c, c', env) && NewlyExecuted(c, c')
    ensures Gate(env.spec, AskNow(c, env)).verdict == Allow && WithinLimits(env.spec, AskNow(c, env))
    ensures c'.j.actions[|c.j.actions| - 1].executedAt == Some(env.now)
  {
    var n := |c.j.actions| - 1;
    assert ActionOk(env.id, c.j.plan, n, c.j.actions[n]);
    BlockedIffBeyondLimits(env.spec, AskNow(c, env));
  }

  predicate ExecutionStep(c: Cell, c': Cell, now: Time)
    requires c.j.actions != [] && |c.j.actions| <= |c'.j.actions|
  {
    var before, after := Last(c.j).executedAt, c'.j.actions[|c.j.actions| - 1].executedAt;
    if before.Some? then after == before else after.None? || after == Some(now)
  }

  /** An action that has been executed is the same contact before and after a turn, and only the
      last one can have become one. */
  lemma ContactsStep(c: Cell, c': Cell, now: Time, i: nat)
    requires c.j.actions != [] && ActionsStep(c, c') && ExecutionStep(c, c', now)
    requires c'.j.actions[|c.j.actions| - 1].kind == Last(c.j).kind
    requires i < |c'.j.actions| && IsContact(c'.j.actions[i])
    ensures i < |c.j.actions|
    ensures if IsContact(c.j.actions[i]) then c'.j.actions[i].executedAt == c.j.actions[i].executedAt
            else i == |c.j.actions| - 1 && NewlyExecuted(c, c') && c'.j.actions[i].executedAt == Some(now)
                 && Catalog(c.j.actions[i].kind).consumesContact
  {
    var n := |c.j.actions| - 1;
    assert i <= n;
    if i < n { assert c'.j.actions[i] == c'.j.actions[..n][i] == c.j.actions[i]; }
  }

  lemma FootprintActions(c: Cell, c': Cell, env: Env)
    requires CellOk(env.id, c) && CellOk(env.id, c') && Footprint(c, c', env)
    ensures ActionsStep(c, c') && ExecutionStep(c, c', env.now)
    ensures c'.j.actions[|c.j.actions| - 1].kind == Last(c.j).kind
  {
    var n := |c.j.actions| - 1;
    assert ActionOk(env.id, c.j.plan, n, c.j.actions[n]) && ActionOk(env.id, c'.j.plan, n, c'.j.actions[n]);
  }

  /** Actions only become executed, and the plan stays. */
  predicate OnlyExecutes(j: Journey, j': Journey) {
    && j'.plan == j.plan && |j.actions| <= |j'.actions|
    && forall i :: 0 <= i < |j.actions| && j.actions[i].executedAt.Some? ==> j'.actions[i].executedAt.Some?
  }

  lemma TurnOnlyExecutes(c: Cell, c': Cell, now: Time)
    requires c.j.actions != [] && c'.j.plan == c.j.plan && ActionsStep(c, c') && ExecutionStep(c, c', now)
    ensures OnlyExecutes(c.j, c'.j)
  {
    var n := |c.j.actions| - 1;
    forall i | 0 <= i < |c.j.actions| && c.j.actions[i].executedAt.Some? ensures c'.j.actions[i].executedAt.Some? {
      if i < n { assert c'.j.actions[i] == c'.j.actions[..n][i] == c.j.actions[..n][i]; }
    }
  }

  /** A contact made in this turn comes a full cooldown after every earlier one. */
  lemma NewContactIsSpaced(c: Cell, c': Cell, env: Env)
    requires CellOk(env.id, c) && Footprint(c, c', env)
    requires NewlyExecuted(c, c') && Catalog(Last(c.j).kind).consumesContact
    ensures forall i :: 0 <= i < |c.j.actions| && IsContact(c.j.actions[i]) ==>
              env.now >= c.j.actions[i].executedAt.value + env.spec.contactCooldownMinutes * MINUTE
  {
    ExecutionWasAllowed(c, c', env);
    forall i | 0 <= i < |c.j.actions| && IsContact(c.j.actions[i])
      ensures env.now >= c.j.actions[i].executedAt.value + env.spec.contactCooldownMinutes * MINUTE
    {
      LastContactIsLatest(c.j.actions, i);
    }
  }

  lemma SpacedExtends(c: Cell, c': Cell, now: Time, cooldown: int)
    requires c.j.actions != [] && ActionsStep(c, c') && ExecutionStep(c, c', now)
    requires c'.j.actions[|c.j.actions| - 1].kind == Last(c.j).kind
    requires Spaced(c.j.actions, cooldown)
    requires NewlyExecuted(c, c') && Catalog(Last(c.j).kind).consumesContact ==>
               forall i :: 0 <= i < |c.j.actions| && IsContact(c.j.actions[i]) ==>
                 now >= c.j.actions[i].executedAt.value + cooldown
    ensures Spaced(c'.j.actions, cooldown)
  {
    forall i, k | 0 <= i < k < |c'.j.actions| && IsContact(c'.j.actions[i]) && IsContact(c'.j.actions[k])
      ensures c'.j.actions[k].executedAt.value >= c'.j.actions[i].executedAt.value + cooldown
    {
      ContactsStep(c, c', now, i);
      ContactsStep(c, c', now, k);
    }
  }

  lemma SpacedStep(c: Cell, c': Cell, env: Env)
    requires CellOk(env.id, c) && CellOk(env.id, c') && Footprint(c, c', env)
    requires Spaced(c.j.actions, env.spec.contactCooldownMinutes * MINUTE)
    ensures Spaced(c'.j.actions, env.spec.contactCooldownMinutes * MINUTE)
  {
    FootprintActions(c, c', env);
    if NewlyExecuted(c, c') && Catalog(Last(c.j).kind).consumesContact { NewContactIsSpaced(c, c', env); }
    SpacedExtends(c, c', env.now, env.spec.contactCooldownMinutes * MINUTE);
  }

  /** Under one policy no turn takes a journey beyond a budget, whatever it started with. */
  lemma BudgetsHold(c: Cell, c': Cell, env: Env)
    requires CellOk(env.id, c) && CellOk(env.id, c') && Footprint(c, c', env)
    requires WithinBudget(env.spec, c.j, c.ev)
    ensures WithinBudget(env.spec, c'.j, c'.ev)
  {
    CountStep(c, c', env, ContactMeter);
    CountStep(c, c', env, RetryMeter);
    CountStep(c, c', env, OfferMeter);
    CountStep(c, c', env, CallMeter);
    SpacedStep(c, c', env);
    if NewlyExecuted(c, c') { ExecutionWasAllowed(c, c', env); }
  }
}
