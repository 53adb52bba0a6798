/** One journey's turn as the services carry it out: executor, verifier and orchestrator update
    the loaded rows, the key store and the gateway step by step. */
module Turns {
  import opened Domain
  import opened Rows
  import opened Policy
  import opened Decision
  import opened Journey
  import opened Gateway
  import opened Ledger
  import opened Recovery
  import opened RecoveryProofs
  import TurnShape
  import KeyStore

  lemma Replanned(c: Cell, env: Env, budget: BudgetState, planned: Journey, scheduled: Option<Journey>)
    requires c.j.stepIndex + 1 < |c.j.plan| && Move(c.j, JPlanned, env.now) == Some(planned)
    requires planned.plan == c.j.plan
    requires Schedule(planned, c.ev, env, budget, c.j.stepIndex + 1, 0.0) == scheduled
    ensures Replan(c, env, budget) == if scheduled.Some? then Some(c.(j := scheduled.value)) else None
  {
  }

  /** Journey, event and mandate are charged in step: contacts, money and presentations of the one
      never drift from those of the other. */
  ghost predicate InStep(c: Cell, c': Cell) {
    && c'.j.contactsUsed - c.j.contactsUsed == c'.ev.contactsUsed - c.ev.contactsUsed
    && c'.j.cost - c.j.cost == c'.ev.recoveryCost - c.ev.recoveryCost
    && c'.j.npciAttemptsUsed - c.j.npciAttemptsUsed == c'.j.retriesUsed - c.j.retriesUsed
    && c'.mandate.Some? == c.mandate.Some?
    && (c.mandate.Some? ==>
          c'.mandate.value.attemptsUsed - c.mandate.value.attemptsUsed == c'.j.retriesUsed - c.j.retriesUsed)
  }

  lemma ConsumedInStep(c: Cell, a: Action, now: Time)
    ensures InStep(c, Consume(c, a, now))
  {
  }

  class Turn {
    const env: Env
    const policy: PolicyEngine
    const keys: KeyStore.MemoryKeyStore<StoreKey, Owner>
    const gateway: RazorpaySimulator
    var journey: Journey
    var event: Event
    var mandate: Option<Mandate>
    var ledger: seq<LedgerEntry>
    ghost var trace: seq<GatewayCall>

    ghost predicate Valid() { policy.spec == env.spec }

    ghost function State(): Cell
      reads this, keys, gateway
    {
      Cell(journey, event, mandate, keys.data, gateway.State(), trace, ledger)
    }

    /** A step that came off, or one that raised. */
    ghost predicate Yields(r: Option<Cell>, ok: bool)
      reads this, keys, gateway
    {
      if ok then r == Some(State()) else r.None?
    }

    /** A step that raises has changed nothing outside the loaded rows. */
    twostate predicate NothingLeft()
      reads this, keys, gateway
    {
      keys.data == old(keys.data) && gateway.State() == old(gateway.State())
      && trace == old(trace) && ledger == old(ledger)
    }

    constructor (env: Env, policy: PolicyEngine, keys: KeyStore.MemoryKeyStore<StoreKey, Owner>,
                 gateway: RazorpaySimulator, j: Journey, ev: Event, m: Option<Mandate>,
                 ledger: seq<LedgerEntry>, ghost trace: seq<GatewayCall>)
      requires policy.spec == env.spec
      ensures Valid() && this.env == env && this.keys == keys && this.gateway == gateway
      ensures State() == Cell(j, ev, m, keys.data, gateway.State(), trace, ledger)
    {
      this.env, this.policy, this.keys, this.gateway := env, policy, keys, gateway;
      journey, event, mandate, this.ledger, this.trace := j, ev, m, ledger, trace;
    }

    // ---------------------------------------------------------- moving and scheduling

    method MoveTo(target: JourneyState) returns (ok: bool)
      modifies this`journey
      ensures if ok then Move(old(journey), target, env.now) == Some(journey)
              else Move(old(journey), target, env.now).None? && journey == old(journey)
    {
      if journey.state == target {
        return true;
      }
      if target !in AllowedTransitions(journey.state) {
        return false;
      }
      journey := journey.(transitions := journey.transitions + [Transition(journey.state, target, env.now)]);
      journey := journey.(state := target);
      if IsTerminal(target) {
        journey := journey.(closedAt := Some(env.now), nextActionAt := None);
      }
      ok := true;
    }

    method CloseJourney() returns (ok: bool)
      modifies this`journey, keys
      ensures Yields(Close(old(State()), env.now), ok)
      ensures !ok ==> NothingLeft()
    {
      ok := MoveTo(Closed);
      if ok {
        keys.DeleteKey(CustomerLock(journey.customer));
      }
    }

    method ScheduleStep(budget: BudgetState, index: nat, discountPct: real) returns (ok: bool)
      requires Valid() && index < |journey.plan|
      modifies this`journey
      ensures var r := Schedule(old(journey), event, env, budget, index, discountPct);
              if ok then r == Some(journey) else r.None?
    {
      var step := journey.plan[index];
      var verdict := policy.Evaluate(AskAbout(env, budget, event, step.action, discountPct));
      var action := Action(step.action, index, Planned, ActionKey(env.id, step.action, index),
                           env.now + Scaled(step.delayMinutes * 60, env.speedup), None, Catalog(step.action).cost,
                           discountPct, verdict.reasons, 0);
      journey := journey.(stepIndex := index);
      journey := journey.(nextActionAt := Some(action.scheduledAt));
      ok := true;
      if verdict.verdict == Block {
        action := action.(status := Blocked);
        journey := journey.(actions := journey.actions + [action]);
        journey := journey.(nextActionAt := Some(env.now));
      } else if verdict.verdict == RequireApproval {
        action := action.(status := AwaitingApproval);
        journey := journey.(actions := journey.actions + [action]);
        ok := MoveTo(JAwaitingApproval);
      } else {
        journey := journey.(actions := journey.actions + [action]);
      }
    }

    method GiveUpJourney() returns (ok: bool)
      modifies this`journey, this`event, keys
      ensures Yields(GiveUp(old(State()), env.now), ok)
      ensures !ok ==> NothingLeft()
    {
      ok := MoveTo(JFailed);
      if ok {
        event := event.(status := Lost);
        ok := CloseJourney();
      }
    }

    method ReplanJourney(budget: BudgetState) returns (ok: bool)
      requires Valid() && journey.stepIndex + 1 < |journey.plan|
      modifies this`journey
      ensures Yields(Replan(old(State()), env, budget), ok)
      ensures !ok ==> NothingLeft()
    {
      ghost var c := State();
      var next := journey.stepIndex + 1;
      ok := MoveTo(JPlanned);
      if ok {
        ghost var planned := journey;
        ok := ScheduleStep(budget, next, 0.0);
        Replanned(c, env, budget, planned, if ok then Some(journey) else None);
        assert ok ==> State() == c.(j := journey);
      }
    }

    method NextStepOrCloseJourney(budget: BudgetState) returns (ok: bool)
      requires Valid()
      modifies this`journey, this`event, keys
      ensures Yields(NextStepOrClose(old(State()), env, budget), ok)
      ensures !ok ==> NothingLeft()
    {
      if journey.stepIndex + 1 < |journey.plan| {
        ok := ReplanJourney(budget);
      } else {
        ok := GiveUpJourney();
      }
    }

    // ------------------------------------------------------------------- executing

    method ReplaceLast(a: Action)
      requires journey.actions != []
      modifies this`journey
      ensures journey == WithLast(old(journey), a)
    {
      journey := journey.(actions := journey.actions[|journey.actions| - 1 := a]);
    }

    /** Reserve the key; a key held by another action means this one must not go out. */
    method Reserve(a: Action) returns (mine: bool)
      modifies keys
      ensures var owner := ByAction(env.id, a.sequence);
              var (ks, reserved) := KeyStore.SetIfAbsent(old(keys.data), IdemKey(a.key), owner, RESERVATION_TTL, env.now);
              var (ks', holder) := if reserved then (ks, Some(owner)) else KeyStore.Get(ks, IdemKey(a.key), env.now);
              keys.data == ks' && mine == (holder == Some(owner))
      ensures var holder := TurnShape.Holder(old(keys.data), a.key, env.now);
              mine <==> holder.None? || holder.value == ByAction(env.id, a.sequence)
      ensures mine ==> TurnShape.Holder(keys.data, a.key, env.now) == Some(ByAction(env.id, a.sequence))
      ensures forall k :: k in old(keys.data) && old(keys.data)[k].expiresAt > env.now ==>
                k in keys.data && keys.data[k] == old(keys.data)[k]
    {
      var owner := ByAction(env.id, a.sequence);
      mine := keys.SetKeyIfAbsent(IdemKey(a.key), owner, RESERVATION_TTL, env.now);
      if !mine {
        var holder := keys.GetKey(IdemKey(a.key), env.now);
        mine := holder == Some(owner);
      }
    }

    /** The charge. A timed-out one is never repeated: its state is asked for instead. */
    method CallOut(key: Key, ask: Ask) returns (status: GatewayStatus)
      modifies this`trace, gateway
      ensures (State(), status) == CallGateway(old(State()), env, key, ask)
    {
      var answer := gateway.Execute(key, ask.action, env.paid);
      trace := trace + [ExecuteCall(key, journey.event, env.spec, ask, answer)];
      match answer
      case Answered(s) => status := s;
      case TimedOut =>
        var succeeded := gateway.FetchState(key, env.paid);
        trace := trace + [FetchCall(key, journey.event, succeeded)];
        status := if succeeded then GwSucceeded else GwFailed;
    }

    method ExecuteAction(ask: Ask) returns (status: GatewayStatus)
      requires journey.actions != []
      modifies this`journey, this`trace, keys, gateway
      ensures (State(), status) == Execute(old(State()), env, ask)
    {
      var a := Last(journey);
      var mine := Reserve(a);
      if !mine {
        ReplaceLast(a.(status := Cancelled, reasons := [DuplicateAction]));
        return GwFailed;
      }
      status := CallOut(a.key, ask);
      var wait := if status == GwPending then ResolveDelay(a.kind) else 0;
      ReplaceLast(a.(status := StatusAfterCall(status), executedAt := Some(env.now), resolveAfterSeconds := wait));
    }

    method ConsumeBudget(a: Action)
      modifies this`journey, this`event, this`mandate
      ensures State() == Consume(old(State()), a, env.now)
      ensures InStep(old(State()), State())
    {
      ConsumedInStep(State(), a, env.now);
      if Catalog(a.kind).consumesContact {
        journey := journey.(contactsUsed := journey.contactsUsed + 1);
        event := event.(contactsUsed := event.contactsUsed + 1);
      }
      if a.kind == RetryPayment {
        journey := journey.(retriesUsed := journey.retriesUsed + 1);
      } else if a.kind == Discount {
        journey := journey.(discountsUsed := journey.discountsUsed + 1);
      } else if a.kind == Voice {
        journey := journey.(voiceUsed := journey.voiceUsed + 1);
      }
      if a.kind == RetryPayment {
        journey := journey.(npciAttemptsUsed := journey.npciAttemptsUsed + 1);
        if mandate.Some? {
          mandate := Some(mandate.value.(attemptsUsed := mandate.value.attemptsUsed + 1));
        }
      }
      if a.kind == SendPdn && mandate.Some? {
        mandate := Some(mandate.value.(lastPdnSentAt := Some(env.now)));
      }
      journey := journey.(cost := journey.cost + a.cost);
      event := event.(recoveryCost := event.recoveryCost + a.cost);
    }

    // ------------------------------------------------------------------- verifying

    method Poll() returns (status: GatewayStatus)
      requires journey.actions != []
      modifies this`trace, gateway
      ensures (State(), status) == Ascertain(old(State()), env)
    {
      var a := Last(journey);
      if a.status == Succeeded {
        return GwSucceeded;
      }
      if a.status == Failed {
        return GwFailed;
      }
      var since := if a.executedAt.Some? then a.executedAt.value else env.now;
      if env.now < since + Scaled(a.resolveAfterSeconds, env.speedup) {
        return GwPending;
      }
      var succeeded := gateway.FetchState(a.key, env.paid);
      trace := trace + [FetchCall(a.key, journey.event, succeeded)];
      status := if succeeded then GwSucceeded else GwFailed;
    }

    method BookRecovery()
      requires journey.actions != []
      modifies this`journey, this`event, this`ledger
      ensures State() == Book(old(State()), env)
      ensures |ledger| == |old(ledger)| + 1 && old(ledger) <= ledger
      ensures var a, entry := Last(old(journey)), ledger[|ledger| - 1];
              && EntryFor(entry, env.id, old(journey.event), a, old(event.amount))
              && journey.recoveredAmount == event.recoveredAmount == entry.gross
              && journey.cost - old(journey.cost) == event.recoveryCost - old(event.recoveryCost) == entry.cost
    {
      var a := Last(journey);
      var discount := DiscountPaise(event.amount, a.discountPct);
      var gross := event.amount - discount;
      var cost := Catalog(a.kind).cost + discount;
      ledger := ledger + [Entry(journey.event, event, env.id, a.kind, gross, cost, env.rates)];
      ReplaceLast(a.(status := Succeeded));
      event := event.(status := Recovered, appliedAction := Some(a.kind));
      event := event.(recoveredAmount := gross, recoveryCost := event.recoveryCost + cost);
      journey := journey.(recoveredAmount := gross, cost := journey.cost + cost);
    }

    method RunVerifier(budget: BudgetState) returns (ok: bool)
      requires Valid() && journey.actions != [] && journey.state == Verifying
      modifies this, keys, gateway
      ensures Yields(Verify(old(State()), env, budget), ok) && ok
    {
      TurnShape.VerifyNeverRaises(State(), env, budget);
      var status := Poll();
      match status
      case GwPending =>
        journey := journey.(nextActionAt := Some(env.now + Scaled(600, env.speedup)));
        ok := true;
      case GwSucceeded =>
        BookRecovery();
        ok := MoveTo(JRecovered);
        if ok {
          ok := CloseJourney();
        }
      case GwFailed =>
        ReplaceLast(Last(journey).(status := Failed));
        ok := NextStepOrCloseJourney(budget);
    }

    // --------------------------------------------------------------- the whole turn

    method CountFutileRetry(reasons: seq<PolicyRule>)
      modifies this`journey
      ensures State() == CountFutile(old(State()), reasons)
    {
      if RetryFutile in reasons {
        journey := journey.(futilePrevented := journey.futilePrevented + 1);
      }
    }

    method HoldForApproval(verdict: GateVerdict) returns (ok: bool)
      requires journey.actions != []
      modifies this`journey
      ensures Yields(Hold(old(State()), env, verdict), ok)
    {
      ReplaceLast(Last(journey).(status := AwaitingApproval, reasons := verdict.reasons));
      ok := MoveTo(JAwaitingApproval);
      if ok {
        journey := journey.(nextActionAt := None);
      }
    }

    method ExecuteAndCharge(ask: Ask) returns (status: GatewayStatus)
      requires journey.actions != []
      modifies this, keys, gateway
      ensures (State(), status) == Charge(old(State()), env, ask)
      ensures journey.actions != [] && journey.state == old(journey.state)
    {
      var a := Last(journey);
      status := ExecuteAction(ask);
      ConsumeBudget(a);
    }

    method VerifyOrWait(budget: BudgetState, status: GatewayStatus) returns (ok: bool)
      requires Valid() && journey.actions != [] && journey.state == JExecuting
      modifies this, keys, gateway
      ensures Yields(AwaitVerdict(old(State()), env, budget, status), ok) && ok
    {
      ok := MoveTo(Verifying);
      if status == GwPending {
        var wait := if Last(journey).resolveAfterSeconds == 0 then 900 else Last(journey).resolveAfterSeconds;
        journey := journey.(nextActionAt := Some(env.now + Scaled(wait, env.speedup)));
      } else {
        ok := RunVerifier(budget);
      }
    }

    method PerformAction(budget: BudgetState, ask: Ask) returns (ok: bool)
      requires Valid() && journey.actions != []
      modifies this, keys, gateway
      ensures Yields(Perform(old(State()), env, budget, ask), ok)
      ensures !ok ==> NothingLeft()
    {
      ok := MoveTo(JExecuting);
      if ok {
        var status := ExecuteAndCharge(ask);
        ok := VerifyOrWait(budget, status);
      }
    }

    method CarryOutDue() returns (ok: bool)
      requires Valid() && journey.actions != []
      modifies this, keys, gateway
      ensures Yields(Due(old(State()), env), ok)
      ensures !ok ==> NothingLeft()
    {
      var budget := BudgetOf(journey, event, env.spec);
      var ask := AskAbout(env, budget, event, Last(journey).kind, Last(journey).discountPct);
      assert ask == AskNow(State(), env);
      var verdict := policy.Evaluate(ask);
      match verdict.verdict
      case RequireApproval => ok := HoldForApproval(verdict);
      case Block =>
        ReplaceLast(Last(journey).(status := Blocked, reasons := verdict.reasons));
        CountFutileRetry(verdict.reasons);
        assert State() == Refused(old(State()), verdict);
        ok := NextStepOrCloseJourney(budget);
      case Allow => ok := PerformAction(budget, ask);
    }

    method AwaitOutcome() returns (ok: bool)
      requires Valid() && journey.actions != []
      modifies this, keys, gateway
      ensures Yields(Resolve(old(State()), env), ok)
      ensures !ok ==> NothingLeft()
    {
      var budget := BudgetOf(journey, event, env.spec);
      ok := MoveTo(Verifying);
      if ok {
        ok := RunVerifier(budget);
      }
    }

    method AdvanceJourney() returns (ok: bool)
      requires Valid()
      modifies this, keys, gateway
      ensures Yields(Advance(old(State()), env), ok)
      ensures !ok ==> NothingLeft()
    {
      ok := true;
      if journey.actions == [] {
        journey := journey.(nextActionAt := None);
        return;
      }
      var a := Last(journey);
      match a.status
      case AwaitingApproval =>
        journey := journey.(nextActionAt := None);
      case Blocked =>
        var budget := BudgetOf(journey, event, env.spec);
        CountFutileRetry(a.reasons);
        ok := NextStepOrCloseJourney(budget);
      case Planned | Approved =>
        if a.scheduledAt > env.now {
          journey := journey.(nextActionAt := Some(a.scheduledAt));
        } else {
          ok := CarryOutDue();
        }
      case Executing | Succeeded | Failed | Cancelled | Skipped =>
        ok := AwaitOutcome();
    }
  }
}
