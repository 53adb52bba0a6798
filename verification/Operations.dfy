/** Every operation keeps the safety invariant: ticks, scans and what people do in between. */
module Operations {
  import opened Domain
  import opened Rows
  import opened Policy
  import opened Decision
  import opened Journey
  import opened Gateway
  import opened Ledger
  import opened Recovery
  import opened RecoveryProofs
  import opened TurnShape
  import opened Orchestrator
  import opened Safety
  import KeyStore

  // --------------------------------------------------------------------------- ticks

  /** Distinct open journeys, as the query for due journeys returns them. */
  predicate OpenBatch(w: World, ids: seq<JourneyId>) {
    && (forall i :: 0 <= i < |ids| ==> ids[i] < |w.journeys| && Open(w.journeys[ids[i]]))
    && (forall i, k :: 0 <= i < k < |ids| ==> ids[i] != ids[k])
  }

  lemma AdvanceOneFrame(w: World, t: TickEnv, id: JourneyId)
    requires id < |w.journeys|
    ensures var w' := AdvanceOne(w, t, id).w;
            && |w'.journeys| == |w.journeys| && |w'.events| == |w.events| && w'.customers == w.customers
            && w'.clock == w.clock
            && (forall k :: 0 <= k < |w.journeys| && k != id ==> w'.journeys[k] == w.journeys[k])
  {
  }

  lemma {:induction false} AdvanceAllKeepsInv(w: World, t: TickEnv, ids: seq<JourneyId>)
    requires Inv(w) && OpenBatch(w, ids)
    requires !AdvanceAll(w, t, ids).raised
    ensures Inv(AdvanceAll(w, t, ids).w)
    decreases |ids|
  {
    if ids != [] {
      AdvanceOneKeepsInv(w, t, ids[0]);
      AdvanceOneFrame(w, t, ids[0]);
      var w' := AdvanceOne(w, t, ids[0]).w;
      assert forall i :: 0 <= i < |ids[1..]| ==> ids[1..][i] == ids[i + 1];
      AdvanceAllKeepsInv(w', t, ids[1..]);
    }
  }

  /** A change outside every journey: rows of events that have none, key store entries that are
      not reservations, and state queries about the holdout. */
  ghost predicate OutsideStep(w: World, w': World) {
    && w'.customers == w.customers && w'.mandates == w.mandates && w'.journeys == w.journeys
    && w'.ledger == w.ledger && |w'.events| == |w.events|
    && w'.gw.unresolved == {}
    && (forall e :: 0 <= e < |w.events| ==> EventRowOk(w', w'.events[e]))
    && (forall id :: 0 <= id < |w.journeys| && RowsExist(w, id) ==> w'.events[w.journeys[id].event] == EventOf(w, id))
    && (forall key :: IdemKey(key) in w'.keys ==> IdemKey(key) in w.keys)
    && w.trace <= w'.trace
    && (forall i :: |w.trace| <= i < |w'.trace| ==> w'.trace[i].FetchCall?)
  }

  lemma OutsideStepKeepsInv(w: World, w': World)
    requires Inv(w) && OutsideStep(w, w')
    ensures Inv(w')
  {
    forall id | 0 <= id < |w'.journeys| ensures RowsExist(w', id) && JourneyOk(w', id) {
      assert EventRowOk(w, w.events[w.journeys[id].event]);
      assert JourneyOk(w, id);
      OtherCellKeeps(id, CellOf(w, id), CellOf(w', id));
    }
    OutsideTrace(w, w');
    OutsideLedger(w, w');
  }

  lemma OutsideTrace(w: World, w': World)
    requires Inv(w) && OutsideStep(w, w')
    ensures TraceSound(w')
  {
    forall i | 0 <= i < |w'.trace| ensures CallOk(w'.trace, i) && KnownCall(w', w'.trace[i]) {
      if i < |w.trace| { assert CallOk(w.trace, i) && KnownCall(w, w.trace[i]) && w'.trace[i] == w.trace[i]; }
    }
    forall i, k | 0 <= i < k < |w'.trace| && w'.trace[i].ExecuteCall? && w'.trace[k].ExecuteCall?
      ensures w'.trace[i].key != w'.trace[k].key
    {
      assert w'.trace[i] == w.trace[i] && w'.trace[k] == w.trace[k];
    }
  }

  lemma OutsideLedger(w: World, w': World)
    requires Inv(w) && OutsideStep(w, w')
    ensures LedgerSound(w')
  {
    forall p | 0 <= p < |w'.ledger| ensures EntryOk(w', w'.ledger[p]) {
      assert EntryOk(w, w.ledger[p]);
      assert EventRowOk(w, EventOf(w, w.ledger[p].journey));
    }
    forall id | 0 <= id < |w'.journeys| && w'.journeys[id].actions != [] && Last(w'.journeys[id]).status == Succeeded
      ensures Booked(w'.ledger, id)
    {
      assert Booked(w.ledger, id);
    }
  }

  /** No journey works on an event of the holdout, nor on one that is still at risk. */
  lemma UnownedEvent(w: World, e: EventId)
    requires Inv(w) && e < |w.events|
    requires w.events[e].cohort == Control || w.events[e].status == AtRisk
    ensures forall id :: 0 <= id < |w.journeys| ==> w.journeys[id].event != e
  {
    forall id | 0 <= id < |w.journeys| ensures w.journeys[id].event != e {
      assert EventRowOk(w, w.events[w.journeys[id].event]);
      assert JourneyOk(w, id);
    }
  }

  lemma SettleOneKeepsInv(w: World, t: TickEnv, e: EventId)
    requires Inv(w) && e < |w.events| && Settles(w.events[e], t)
    ensures Inv(SettleOne(w, t, e))
  {
    var w' := SettleOne(w, t, e);
    UnownedEvent(w, e);
    forall k | 0 <= k < |w.events| ensures EventRowOk(w', w'.events[k]) {
      assert EventRowOk(w, w.events[k]);
    }
    OutsideStepKeepsInv(w, w');
  }

  lemma {:induction false} SettleKeepsInv(w: World, t: TickEnv, from: nat)
    requires Inv(w)
    ensures var w' := SettleFrom(w, t, from);
            Inv(w') && w'.journeys == w.journeys && w'.clock == w.clock && w'.keys == w.keys
            && w'.mandates == w.mandates && |w'.events| == |w.events|
    decreases |w.events| - from
  {
    if from < |w.events| {
      if Settles(w.events[from], t) {
        SettleOneKeepsInv(w, t, from);
        SettleKeepsInv(SettleOne(w, t, from), t, from + 1);
      } else {
        SettleKeepsInv(w, t, from + 1);
      }
    }
  }

  /** A holdout row once it is settled: recovered in full if its customer paid unprompted. */
  predicate SettledRow(e: Event, e': Event, paid: bool) {
    && e'.status == (if paid then Recovered else Lost) && e'.appliedAction == Some(DoNothing)
    && (paid ==> e'.recoveredAmount == e.amount)
    && e' == e.(status := e'.status, appliedAction := e'.appliedAction, recoveredAmount := e'.recoveredAmount)
  }

  /** Settling resolves exactly the aged holdout events, each by what its customer did unprompted,
      and touches nothing else. */
  lemma {:induction false} SettlesExactly(w: World, t: TickEnv, from: nat)
    requires w.gw.unresolved == {}
    ensures var w' := SettleFrom(w, t, from);
            && |w'.events| == |w.events| && w'.journeys == w.journeys && w'.ledger == w.ledger && w'.keys == w.keys
            && (forall e :: 0 <= e < |w.events| ==>
                  if e >= from && Settles(w.events[e], t)
                  then SettledRow(w.events[e], w'.events[e], ControlKey(e) in t.paid)
                  else w'.events[e] == w.events[e])
    decreases |w.events| - from
  {
    if from < |w.events| {
      var w1 := if Settles(w.events[from], t) then SettleOne(w, t, from) else w;
      SettlesExactly(w1, t, from + 1);
    }
  }

  /** After the turns a tick executes nothing more. */
  lemma {:induction false} SettlingExecutesNothing(w: World, t: TickEnv, from: nat)
    ensures var w' := SettleFrom(w, t, from);
            && w.trace <= w'.trace && NoExecute(w.trace, w'.trace)
            && w'.journeys == w.journeys && w'.keys == w.keys && w'.clock == w.clock
    decreases |w.events| - from
  {
    if from < |w.events| {
      var w1 := if Settles(w.events[from], t) then SettleOne(w, t, from) else w;
      SettlingExecutesNothing(w1, t, from + 1);
      var w' := SettleFrom(w1, t, from + 1);
      forall i | |w.trace| <= i < |w'.trace| ensures !w'.trace[i].ExecuteCall? {
        if i < |w1.trace| { assert w'.trace[i] == w1.trace[i]; }
      }
    }
  }

  lemma {:induction false} ExpiryCallsNothing(w: World, t: TickEnv, from: nat)
    ensures ExpireFrom(w, t, from).w.trace == w.trace
    decreases |w.journeys| - from
  {
    if from < |w.journeys| {
      if Stale(w.journeys[from], t) {
        var r := ExpireOne(w, t, from);
        if !r.raised && |r.w.journeys| == |w.journeys| { ExpiryCallsNothing(r.w, t, from + 1); }
      } else {
        ExpiryCallsNothing(w, t, from + 1);
      }
    }
  }

  // ------------------------------------------------------------ closing from outside

  /** A change of the row alone: gateway, trace, ledger and mandate stay, the key store at most
      loses the customer's lock, and a recovered journey is not touched. */
  ghost predicate RowStep(c: Cell, c': Cell) {
    && c.j.actions != [] && c'.j.actions != []
    && c' == c.(j := c'.j, ev := c'.ev, keys := c'.keys)
    && SameJourney(c.j, c'.j) && c'.ev == c.ev.(status := c'.ev.status)
    && (c'.keys == c.keys || c'.keys == KeyStore.Delete(c.keys, CustomerLock(c.j.customer)))
    && (Last(c'.j).status == Succeeded <==> Last(c.j).status == Succeeded)
    && (Last(c.j).status == Succeeded ==> Last(c'.j) == Last(c.j) && c'.j.state == Closed)
  }

  lemma RowStepKeepsInv(w: World, id: JourneyId, c': Cell)
    requires Inv(w) && RowsExist(w, id)
    requires CellOk(id, c') && RowStep(CellOf(w, id), c')
    ensures Inv(WithCell(w, id, c'))
  {
    assert JourneyOk(w, id);
    LocalStepKeepsInv(w, id, c');
  }

  lemma ExpireRests(id: JourneyId, c: Cell, now: Time)
    requires CellOk(id, c) && Open(c.j) && ExpireCell(c, now).Some?
    ensures var c' := ExpireCell(c, now).value;
            CellOk(id, c') && RowStep(c, c') && c'.j.state == Closed && c'.j.actions == c.j.actions
  {
    MoveKeepsCore(id, c, Expired, now);
    var expired := c.(j := Move(c.j, Expired, now).value, ev := c.ev.(status := Lost));
    assert Core(id, expired);
    CloseKeepsCore(id, expired, now);
  }

  lemma ExpireOneKeepsInv(w: World, t: TickEnv, id: JourneyId)
    requires Inv(w) && id < |w.journeys| && Open(w.journeys[id]) && !ExpireOne(w, t, id).raised
    ensures Inv(ExpireOne(w, t, id).w)
    ensures |ExpireOne(w, t, id).w.journeys| == |w.journeys|
  {
    assert EventRowOk(w, w.events[w.journeys[id].event]);
    assert JourneyOk(w, id);
    ExpireRests(id, CellOf(w, id), t.now);
    RowStepKeepsInv(w, id, ExpireCell(CellOf(w, id), t.now).value);
  }

  lemma {:induction false} ExpireKeepsInv(w: World, t: TickEnv, from: nat)
    requires Inv(w) && !ExpireFrom(w, t, from).raised
    ensures Inv(ExpireFrom(w, t, from).w)
    decreases |w.journeys| - from
  {
    if from < |w.journeys| {
      if Stale(w.journeys[from], t) {
        ExpireOneKeepsInv(w, t, from);
        ExpireKeepsInv(ExpireOne(w, t, from).w, t, from + 1);
      } else {
        ExpireKeepsInv(w, t, from + 1);
      }
    }
  }

  lemma ClockIsFree(w: World, now: Time)
    requires Inv(w)
    ensures Inv(w.(clock := now))
  {
    var w' := w.(clock := now);
    forall e | 0 <= e < |w.events| ensures EventRowOk(w', w'.events[e]) { assert EventRowOk(w, w.events[e]); }
    OutsideStepKeepsInv(w, w');
  }

  /** A tick that does not raise keeps the invariant. */
  lemma TickKeepsInv(w: World, t: TickEnv, due: seq<JourneyId>)
    requires Inv(w) && OpenBatch(w, due) && !Tick(w, t, due).raised
    ensures Inv(Tick(w, t, due).w)
  {
    ClockIsFree(w, t.now);
    if t.spec.automationEnabled {
      var w0 := w.(clock := t.now);
      AdvanceAllKeepsInv(w0, t, due);
      var w1 := AdvanceAll(w0, t, due).w;
      SettleKeepsInv(w1, t, 0);
      ExpireKeepsInv(SettleFrom(w1, t, 0), t, 0);
    }
  }

  // --------------------------------------------------------------------------- scans

  predicate FreshEvent(w: World, e: EventId) {
    e < |w.events| && !w.events[e].training && w.events[e].status == AtRisk
  }

  /** Purging or moving customer locks touches no reservation. */
  ghost predicate NoNewReservation(keys: Keys, keys': Keys) {
    forall key :: IdemKey(key) in keys' ==> IdemKey(key) in keys
  }

  /** A finding that opens no journey only rewrites the event's row. */
  lemma RescoredKeepsInv(w: World, e: EventId, ev: Event, keys: Keys)
    requires Inv(w) && FreshEvent(w, e) && NoNewReservation(w.keys, keys)
    requires ev == w.events[e].(status := ev.status, rootCause := ev.rootCause, organicProbability := ev.organicProbability)
    ensures Inv(w.(events := w.events[e := ev], keys := keys))
  {
    var w' := w.(events := w.events[e := ev], keys := keys);
    UnownedEvent(w, e);
    forall k | 0 <= k < |w.events| ensures EventRowOk(w', w'.events[k]) { assert EventRowOk(w, w.events[k]); }
    OutsideStepKeepsInv(w, w');
  }

  predicate JourneyIsNew(id: JourneyId, e: EventId, ev: Event, plan: seq<PlanStep>, j: Journey) {
    && PlanOk(plan)
    && j.event == e && j.customer == ev.customer && j.plan == plan && j.stepIndex == 0
    && |j.actions| == 1 && ActionOk(id, plan, 0, j.actions[0]) && j.actions[0].executedAt.None?
    && j.actions[0].status in {Planned, AwaitingApproval, Blocked}
    && j.contactsUsed == 0 && j.retriesUsed == 0 && j.discountsUsed == 0 && j.voiceUsed == 0
    && j.npciAttemptsUsed == 0 && j.cost == 0
    && IsWalk(j.transitions, j.state)
    && Legal(j) && StateOk(j) && Open(j)
  }

  lemma NewJourneyIsOk(id: JourneyId, c: Cell)
    requires JourneyIsNew(id, c.j.event, c.ev, c.j.plan, c.j)
    requires c.ev.cohort == Treatment && c.ev.status == InRecovery && c.ev.contactsUsed == 0 && c.ev.recoveryCost == 0
    requires c.gw.unresolved == {}
    requires forall i :: 0 <= i < |c.trace| ==> !OwnExecute(id, c.trace[i])
    requires forall key :: IdemKey(key) in c.keys ==> !(key.ActionKey? && key.journey == id)
    ensures CellOk(id, c)
  {
    assert c.j.actions == [c.j.actions[0]];
    assert c.j.actions[..0] == [];
    assert forall meter :: Count(c.j.actions, meter) == 0;
  }

  lemma OpenedJourneyIsNew(w: World, s: ScanEnv, id: EventId, e: Event, plan: seq<PlanStep>, discountPct: real)
    requires Scannable(w, s, id) && PlanOk(plan)
    ensures OpenedJourney(w, s, id, e, plan, discountPct).Some?
    ensures var j := OpenedJourney(w, s, id, e, plan, discountPct).value;
            JourneyIsNew(|w.journeys|, id, e, plan, j) && j.createdAt == s.now
  {
    var j0 := NewJourney(id, e.customer, plan, s.now);
    MoveExtendsWalk(j0, Analyzing, s.now);
    var j1 := Move(j0, Analyzing, s.now).value;
    MoveExtendsWalk(j1, JPlanned, s.now);
    var j2 := Move(j1, JPlanned, s.now).value;
    FirstStepIsScheduled(j2, w, s, id, e, plan, discountPct);
  }

  lemma FirstStepIsScheduled(j2: Journey, w: World, s: ScanEnv, id: EventId, e: Event, plan: seq<PlanStep>,
                             discountPct: real)
    requires Scannable(w, s, id) && PlanOk(plan)
    requires Restated(NewJourney(id, e.customer, plan, s.now), j2)
    requires j2.state == JPlanned && IsWalk(j2.transitions, j2.state)
    ensures var r := Schedule(j2, e, StartEnv(w, s, id), ScanBudget(w, w.events[id], s.spec), 0, discountPct);
            r.Some? && JourneyIsNew(|w.journeys|, id, e, plan, r.value) && r.value.createdAt == s.now
  {
    var env, budget := StartEnv(w, s, id), ScanBudget(w, w.events[id], s.spec);
    FirstStepUnder(j2, env, id, e, plan, discountPct,
                   Gate(env.spec, AskAbout(env, budget, e, plan[0].action, discountPct)));
  }

  lemma FirstStepUnder(j2: Journey, env: Env, id: EventId, e: Event, plan: seq<PlanStep>, discountPct: real,
                       verdict: GateVerdict)
    requires PlanOk(plan) && Restated(NewJourney(id, e.customer, plan, env.now), j2)
    requires j2.state == JPlanned && IsWalk(j2.transitions, j2.state)
    ensures var r := ScheduleUnder(j2, env, 0, discountPct, verdict);
            r.Some? && JourneyIsNew(env.id, id, e, plan, r.value) && r.value.createdAt == env.now
  {
    var a := ScheduledAction(env, plan[0], 0, discountPct, verdict);
    var j3 := j2.(stepIndex := 0, nextActionAt := Some(a.scheduledAt), actions := [a]);
    assert j2.actions + [a] == [a];
    if verdict.verdict == RequireApproval {
      MoveExtendsWalk(j3, JAwaitingApproval, env.now);
    }
  }

  lemma ClaimTouchesNoReservation(keys: Keys, customer: CustomerId, id: JourneyId, now: Time)
    ensures NoNewReservation(keys, ClaimedKeys(keys, customer, id, now))
    ensures NoNewReservation(keys,
              KeyStore.SetIfAbsent(keys, CustomerLock(customer), PendingOwner, CUSTOMER_LOCK_TTL, now).0)
  {
  }

  /** Opening a journey on a fresh event keeps every other journey in order. */
  lemma OpenKeepsInv(w: World, e: EventId, ev: Event, j: Journey, keys: Keys)
    requires Inv(w) && FreshEvent(w, e) && NoNewReservation(w.keys, keys)
    requires ev == w.events[e].(status := InRecovery, rootCause := ev.rootCause, organicProbability := ev.organicProbability)
    requires ev.cohort == Treatment
    requires JourneyIsNew(|w.journeys|, e, ev, j.plan, j)
    ensures Inv(w.(events := w.events[e := ev], journeys := w.journeys + [j], keys := keys))
  {
    RescoredKeepsInv(w, e, ev, keys);
    var w1 := w.(events := w.events[e := ev], keys := keys);
    var w2 := w1.(journeys := w.journeys + [j]);
    UnownedEvent(w, e);
    assert EventRowOk(w, w.events[e]);
    AppendTables(w1, w2, j);
    forall id | 0 <= id < |w2.journeys| ensures RowsExist(w2, id) && JourneyOk(w2, id) {
      assert EventRowOk(w2, w2.events[w2.journeys[id].event]);
      if id < |w.journeys| {
        assert JourneyOk(w1, id) && CellOf(w2, id) == CellOf(w1, id);
      } else {
        forall i | 0 <= i < |w2.trace| ensures !OwnExecute(id, w2.trace[i]) { assert KnownCall(w1, w1.trace[i]); }
        NewJourneyIsOk(id, CellOf(w2, id));
      }
    }
    AppendLedger(w1, w2, j);
  }

  lemma AppendTables(w1: World, w2: World, j: Journey)
    requires Inv(w1) && w2 == w1.(journeys := w1.journeys + [j]) && j.event < |w1.events|
    requires forall id :: 0 <= id < |w1.journeys| ==> w1.journeys[id].event != j.event
    ensures TablesOk(w2) && TraceSound(w2) && KeysSound(w2)
  {
    forall e | 0 <= e < |w2.events| ensures EventRowOk(w2, w2.events[e]) { assert EventRowOk(w1, w1.events[e]); }
    forall i | 0 <= i < |w2.trace| ensures CallOk(w2.trace, i) && KnownCall(w2, w2.trace[i]) {
      assert CallOk(w1.trace, i) && KnownCall(w1, w1.trace[i]);
    }
  }

  lemma AppendLedger(w1: World, w2: World, j: Journey)
    requires Inv(w1) && w2 == w1.(journeys := w1.journeys + [j]) && TablesOk(w2)
    requires j.actions != [] && Last(j).status != Succeeded
    ensures LedgerSound(w2)
  {
    forall p | 0 <= p < |w2.ledger| ensures EntryOk(w2, w2.ledger[p]) { assert EntryOk(w1, w1.ledger[p]); }
    forall id | 0 <= id < |w2.journeys| && w2.journeys[id].actions != [] && Last(w2.journeys[id]).status == Succeeded
      ensures Booked(w2.ledger, id)
    {
      assert w2.journeys[id] == w1.journeys[id];
      assert Booked(w1.ledger, id);
    }
  }

  /** The plan of a decision that acts has one to four steps, and at most one of them retries. */
  lemma AssessedPlanOk(w: World, s: ScanEnv, id: EventId)
    requires Scannable(w, s, id) && Assess(w, s, id).chosen.action != DoNothing
    ensures PlanOk(Assess(w, s, id).plan)
  {
    var e, c := Diagnosed(w.events[id], s.facts[id]), w.customers[w.events[id].customer];
    var inputs := DecisionInputs(e, c, s, s.facts[id]);
    var gate := DecisionGate(e, c, s, ScanBudget(w, w.events[id], s.spec));
    PlanOfDecision(inputs, gate);
  }

  lemma PlanOfDecision(inputs: Inputs, gate: ActionGate)
    requires Decide(inputs, gate).chosen.action != DoNothing
    ensures PlanOk(Decide(inputs, gate).plan)
  {
    RetryPlannedOnce(inputs, gate);
    PlanIsSound(inputs, Decide(inputs, gate).chosen, Decide(inputs, gate).options);
  }

  lemma ClaimAndStartKeepsInv(w: World, s: ScanEnv, id: EventId, e: Event, outcome: Outcome)
    requires Inv(w) && FreshEvent(w, id) && Scannable(w, s, id) && PlanOk(outcome.plan)
    requires e == Diagnosed(w.events[id], s.facts[id]) && e.cohort == Treatment
    ensures Inv(ClaimAndStart(w, s, id, e, outcome).0)
  {
    var lock := CustomerLock(e.customer);
    ClaimTouchesNoReservation(w.keys, e.customer, |w.journeys|, s.now);
    var (keys, claimed) := KeyStore.SetIfAbsent(w.keys, lock, PendingOwner, CUSTOMER_LOCK_TTL, s.now);
    if !claimed {
      RescoredKeepsInv(w, id, e, KeyStore.Get(keys, lock, s.now).0);
    } else {
      ClaimAgain(keys, w.keys, e.customer, |w.journeys|, s.now);
      var recovering := e.(status := InRecovery);
      var discount := OptionDiscount(outcome.options, outcome.plan[0].action);
      OpenedJourneyIsNew(w, s, id, recovering, outcome.plan, discount);
      var j := OpenedJourney(w, s, id, recovering, outcome.plan, discount).value;
      OpenKeepsInv(w, id, recovering, j, ClaimedKeys(keys, e.customer, |w.journeys|, s.now));
    }
  }

  lemma ClaimAgain(keys: Keys, before: Keys, customer: CustomerId, id: JourneyId, now: Time)
    requires NoNewReservation(before, keys)
    ensures NoNewReservation(before, ClaimedKeys(keys, customer, id, now))
  {
    ClaimTouchesNoReservation(keys, customer, id, now);
  }

  lemma ScanOneKeepsInv(w: World, s: ScanEnv, id: EventId)
    requires Inv(w) && FreshEvent(w, id) && Scannable(w, s, id)
    ensures Inv(ScanOne(w, s, id).0)
  {
    var e := w.events[id];
    var d := Diagnosed(e, s.facts[id]);
    var outcome := Assess(w, s, id);
    if !WorthPursuing(e, w.customers[e.customer], s.spec) {
      RescoredKeepsInv(w, id, e.(status := Suppressed), w.keys);
    } else if e.cohort == Control {
      RescoredKeepsInv(w, id, d, w.keys);
    } else if outcome.chosen.action == DoNothing || outcome.chosen.verdict == Block {
      RescoredKeepsInv(w, id, d.(status := Suppressed), w.keys);
    } else {
      AssessedPlanOk(w, s, id);
      ClaimAndStartKeepsInv(w, s, id, d, outcome);
    }
  }

  /** Distinct events at risk, as the query for unclaimed events returns them. */
  predicate FreshBatch(w: World, ids: seq<EventId>) {
    && (forall i :: 0 <= i < |ids| ==> FreshEvent(w, ids[i]))
    && (forall i, k :: 0 <= i < k < |ids| ==> ids[i] != ids[k])
  }

  predicate ScanFrame(w: World, w': World, id: EventId) {
    && |w'.events| == |w.events| && w'.customers == w.customers && w'.mandates == w.mandates
    && w'.trace == w.trace && w'.ledger == w.ledger && w'.clock == w.clock
    && (forall k :: 0 <= k < |w.events| && k != id ==> w'.events[k] == w.events[k])
  }

  lemma ScanOneFrame(w: World, s: ScanEnv, id: EventId)
    requires Scannable(w, s, id)
    ensures ScanFrame(w, ScanOne(w, s, id).0, id)
  {
    ActOnFrame(w, s, id, Diagnosed(w.events[id], s.facts[id]), Assess(w, s, id));
  }

  lemma ActOnFrame(w: World, s: ScanEnv, id: EventId, d: Event, outcome: Outcome)
    requires Scannable(w, s, id) && (outcome.chosen.action != DoNothing ==> outcome.plan != [])
    ensures ScanFrame(w, ActOn(w, s, id, d, outcome).0, id)
  {
    if outcome.chosen.action != DoNothing { ClaimFrame(w, s, id, d, outcome); }
  }

  lemma ClaimFrame(w: World, s: ScanEnv, id: EventId, e: Event, outcome: Outcome)
    requires Scannable(w, s, id) && outcome.plan != []
    ensures ScanFrame(w, ClaimAndStart(w, s, id, e, outcome).0, id)
  {
  }

  lemma {:induction false} ScanAllKeepsInv(w: World, s: ScanEnv, ids: seq<EventId>)
    requires Inv(w) && FreshBatch(w, ids)
    ensures Inv(ScanAll(w, s, ids).0)
    decreases |ids|
  {
    if ids != [] {
      assert forall i :: 0 <= i < |ids[1..]| ==> ids[1..][i] == ids[i + 1];
      if Scannable(w, s, ids[0]) {
        ScanOneKeepsInv(w, s, ids[0]);
        ScanOneFrame(w, s, ids[0]);
        ScanAllKeepsInv(ScanOne(w, s, ids[0]).0, s, ids[1..]);
      } else {
        ScanAllKeepsInv(w, s, ids[1..]);
      }
    }
  }

  lemma ScanKeepsInv(w: World, s: ScanEnv, ids: seq<EventId>)
    requires Inv(w) && FreshBatch(w, ids)
    ensures Inv(Scan(w, s, ids).0)
  {
    ClockIsFree(w, s.now);
    ScanAllKeepsInv(w.(clock := s.now), s, ids);
  }

  // ----------------------------------------------------------------- human decisions

  lemma ReplaceLastKeepsCore(id: JourneyId, c: Cell, a: Action)
    requires Core(id, c) && Last(c.j).executedAt.None?
    requires a == Last(c.j).(status := a.status, reasons := a.reasons, scheduledAt := a.scheduledAt)
    requires a.status in {Planned, AwaitingApproval, Approved, Blocked, Cancelled}
    ensures Core(id, SetLast(c, a))
  {
    ReplaceKeepsCore(id, c, a);
  }

  lemma ApproveRests(id: JourneyId, c: Cell, now: Time)
    requires CellOk(id, c) && Last(c.j).status == AwaitingApproval
    ensures var c' := c.(j := ApproveRow(c.j, now));
            CellOk(id, c') && RowStep(c, c') && (Legal(c.j) ==> Legal(c'.j))
  {
    var a := Last(c.j).(status := Approved, scheduledAt := now);
    ReplaceLastKeepsCore(id, c, a);
    var approved := SetLast(c, a);
    var j' := ApproveRow(c.j, now);
    ApprovedRowRestates(approved.j, j', now);
    RestateKeepsCore(id, approved, j');
  }

  lemma ApprovedRowRestates(approved: Journey, j': Journey, now: Time)
    requires IsWalk(approved.transitions, approved.state)
    requires j' == (if approved.state == JAwaitingApproval then Move(approved, JApproved, now).value
                    else approved).(nextActionAt := Some(now))
    ensures SameRecovery(approved, j') && IsWalk(j'.transitions, j'.state)
    ensures j'.state == if approved.state == JAwaitingApproval then JApproved else approved.state
  {
    if approved.state == JAwaitingApproval { MoveExtendsWalk(approved, JApproved, now); }
  }

  lemma ApproveKeepsInv(w: World, id: JourneyId, now: Time)
    requires Inv(w) && AwaitsApproval(w, id)
    ensures Inv(Approve(w, id, now))
  {
    assert EventRowOk(w, w.events[w.journeys[id].event]);
    assert JourneyOk(w, id);
    var c := CellOf(w, id);
    var c' := c.(j := ApproveRow(c.j, now));
    ApproveRests(id, c, now);
    RowStepKeepsInv(w, id, c');
    var w' := WithCell(w, id, c');
    SameWorld(w, id, c');
    ClockIsFree(w', now);
  }

  lemma SameWorld(w: World, id: JourneyId, c: Cell)
    requires RowsExist(w, id) && c == CellOf(w, id).(j := c.j)
    ensures WithCell(w, id, c) == w.(journeys := w.journeys[id := c.j])
  {
    var ev := EventOf(w, id);
    assert w.events[w.journeys[id].event := ev] == w.events;
    if ev.mandate.Some? && ev.mandate.value < |w.mandates| {
      assert w.mandates[ev.mandate.value := w.mandates[ev.mandate.value]] == w.mandates;
    }
  }

  lemma RejectRests(id: JourneyId, c: Cell, now: Time)
    requires CellOk(id, c) && Last(c.j).status == AwaitingApproval && RejectCell(c, now).Some?
    ensures var c' := RejectCell(c, now).value;
            CellOk(id, c') && RowStep(c, c') && c'.j.state == Closed
  {
    var a := Last(c.j).(status := Cancelled);
    ReplaceLastKeepsCore(id, c, a);
    var cancelled := SetLast(c, a);
    MoveKeepsCore(id, cancelled, JBlocked, now);
    var blocked := cancelled.(j := Move(cancelled.j, JBlocked, now).value, ev := c.ev.(status := Suppressed));
    assert Core(id, blocked);
    CloseKeepsCore(id, blocked, now);
  }

  lemma StopRests(id: JourneyId, c: Cell, now: Time)
    requires CellOk(id, c) && StopCell(c, now).Some?
    ensures var c' := StopCell(c, now).value;
            CellOk(id, c') && RowStep(c, c') && c'.j.state == Closed && c'.j.actions == c.j.actions
  {
    if !IsTerminal(c.j.state) {
      MoveKeepsCore(id, c, JBlocked, now);
      CloseKeepsCore(id, c.(j := Move(c.j, JBlocked, now).value), now);
    } else {
      CloseKeepsCore(id, c, now);
    }
  }

  lemma PauseRests(id: JourneyId, c: Cell, now: Time)
    requires CellOk(id, c) && PauseCell(c, now).Some?
    ensures var c' := PauseCell(c, now).value;
            CellOk(id, c') && RowStep(c, c') && c'.j.actions == c.j.actions && Open(c'.j)
  {
    MoveExtendsWalk(c.j, Paused, now);
    RestateKeepsCore(id, c, PauseCell(c, now).value.j);
  }

  lemma ResumeRests(id: JourneyId, c: Cell, now: Time)
    requires CellOk(id, c) && ResumeCell(c, now).Some?
    ensures var c' := ResumeCell(c, now).value;
            CellOk(id, c') && RowStep(c, c') && c'.j.actions == c.j.actions && Open(c'.j)
  {
    var target := if Last(c.j).status == Approved then JApproved else JPlanned;
    MoveExtendsWalk(c.j, target, now);
    RestateKeepsCore(id, c, ResumeCell(c, now).value.j);
  }

  lemma CommandRests(id: JourneyId, c: Cell, command: Command, now: Time)
    requires CellOk(id, c) && CommandCell(c, command, now).Some?
    requires command == Reject ==> Last(c.j).status == AwaitingApproval
    ensures var c' := CommandCell(c, command, now).value;
            CellOk(id, c') && RowStep(c, c')
  {
    match command
    case Reject => RejectRests(id, c, now);
    case Stop => StopRests(id, c, now);
    case Pause => PauseRests(id, c, now);
    case Resume => ResumeRests(id, c, now);
  }

  lemma ApplyKeepsInv(w: World, id: JourneyId, command: Command, now: Time)
    requires Inv(w) && !Apply(w, id, command, now).raised
    requires command == Reject ==> AwaitsApproval(w, id)
    ensures Inv(Apply(w, id, command, now).w)
  {
    assert JourneyOk(w, id);
    CommandRests(id, CellOf(w, id), command, now);
    var c' := CommandCell(CellOf(w, id), command, now).value;
    RowStepKeepsInv(w, id, c');
    ClockIsFree(WithCell(w, id, c'), now);
  }
}
