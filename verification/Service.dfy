/** The orchestrator as the application holds it: one object whose methods update the tables, the
    key store and the gateway in place. Each method does what its counterpart on values says. */
module Service {
  import opened Domain
  import opened Rows
  import opened Policy
  import opened Decision
  import opened Journey
  import opened Gateway
  import opened Ledger
  import opened Recovery
  import opened Orchestrator
  import opened Turns
  import opened Queries
  import opened Safety
  import opened Operations
  import KeyStore

  datatype ScanReport = ScanReport(scanned: nat, heldOut: nat, blocked: nat, doNothing: nat, collisions: nat,
                                   started: nat)

  function Counted(r: ScanReport, f: Finding): ScanReport {
    var r' := r.(scanned := r.scanned + 1);
    match f
    case NotWorthIt | Gated => r'.(blocked := r.blocked + 1)
    case HeldOut => r'.(heldOut := r.heldOut + 1)
    case NothingToDo => r'.(doNothing := r.doNothing + 1)
    case Collision => r'.(collisions := r.collisions + 1)
    case Started(_) => r'.(started := r.started + 1)
  }

  function ReportOf(findings: seq<Finding>): ScanReport {
    if findings == [] then ScanReport(0, 0, 0, 0, 0, 0)
    else Counted(ReportOf(findings[..|findings| - 1]), findings[|findings| - 1])
  }

  /** Every event a scan looked at is accounted for once. */
  lemma {:induction false} ReportBalances(findings: seq<Finding>)
    ensures var r := ReportOf(findings);
            r.scanned == |findings| && r.scanned == r.heldOut + r.blocked + r.doNothing + r.collisions + r.started
  {
    if findings != [] { ReportBalances(findings[..|findings| - 1]); }
  }

  // ------------------------------------------------------- the scan loop, half way through

  /** After `i` events the findings so far, followed by those of the rest, are those of the scan. */
  ghost predicate ScannedSoFar(start: World, w: World, s: ScanEnv, ids: seq<EventId>, i: nat, findings: seq<Finding>) {
    i <= |ids|
    && ScanAll(start, s, ids).0 == ScanAll(w, s, ids[i..]).0
    && ScanAll(start, s, ids).1 == findings + ScanAll(w, s, ids[i..]).1
  }

  lemma ScannedNone(w: World, s: ScanEnv, ids: seq<EventId>)
    ensures ScannedSoFar(w, w, s, ids, 0, [])
  {
    assert ids[0..] == ids;
  }

  lemma ScannedOneMore(start: World, w: World, w': World, s: ScanEnv, ids: seq<EventId>, i: nat,
                       findings: seq<Finding>, f: Finding)
    requires ScannedSoFar(start, w, s, ids, i, findings) && i < |ids|
    requires Scannable(w, s, ids[i]) && (w', f) == ScanOne(w, s, ids[i])
    ensures ScannedSoFar(start, w', s, ids, i + 1, findings + [f])
  {
    assert ids[i..][0] == ids[i] && ids[i..][1..] == ids[i + 1..];
    var rest := ScanAll(w', s, ids[i + 1..]).1;
    assert findings + ([f] + rest) == findings + [f] + rest;
  }

  lemma SkippedOneMore(start: World, w: World, s: ScanEnv, ids: seq<EventId>, i: nat, findings: seq<Finding>)
    requires ScannedSoFar(start, w, s, ids, i, findings) && i < |ids| && !Scannable(w, s, ids[i])
    ensures ScannedSoFar(start, w, s, ids, i + 1, findings)
  {
    assert ids[i..][0] == ids[i] && ids[i..][1..] == ids[i + 1..];
  }

  lemma ScannedAll(start: World, w: World, s: ScanEnv, ids: seq<EventId>, findings: seq<Finding>)
    requires ScannedSoFar(start, w, s, ids, |ids|, findings)
    ensures ScanAll(start, s, ids) == (w, findings)
  {
    assert ids[|ids|..] == [];
    assert findings + [] == findings;
  }

  lemma QuietTickKeepsInv(w: World, t: TickEnv, due: seq<JourneyId>)
    requires OpenBatch(w, due)
    ensures Inv(w) && !Tick(w, t, due).raised ==> Inv(Tick(w, t, due).w)
  {
    if Inv(w) && !Tick(w, t, due).raised { TickKeepsInv(w, t, due); }
  }

  class OrchestratorService {
    const keys: KeyStore.MemoryKeyStore<StoreKey, Owner>
    const gateway: RazorpaySimulator
    var customers: CustomerTable
    var events: EventTable
    var mandates: MandateTable
    var journeys: seq<Journey>
    var ledger: seq<LedgerEntry>
    var clock: Time
    ghost var trace: seq<GatewayCall>

    ghost function State(): World
      reads this, keys, gateway
    {
      World(customers, events, mandates, journeys, keys.data, gateway.State(), trace, ledger, clock)
    }

    /** What every operation that does not raise keeps. */
    ghost predicate Valid()
      reads this, keys, gateway
    {
      Inv(State())
    }

    constructor (customers: CustomerTable, events: EventTable, mandates: MandateTable, clock: Time)
      ensures fresh(keys) && fresh(gateway)
      ensures State() == World(customers, events, mandates, [], map[], Simulator(0, true, {}), [], [], clock)
    {
      keys := new KeyStore.MemoryKeyStore();
      gateway := new RazorpaySimulator();
      this.customers, this.events, this.mandates, this.clock := customers, events, mandates, clock;
      journeys, ledger, trace := [], [], [];
    }

    // ------------------------------------------------------------------------ ticking

    method MandateOf(ev: Event) returns (m: Option<Mandate>)
      ensures m == MandateRow(State(), ev)
    {
      if ev.mandate.Some? && ev.mandate.value < |mandates| {
        return Some(mandates[ev.mandate.value]);
      }
      m := None;
    }

    /** Load the rows of one journey into a turn. */
    method LoadTurn(t: TickEnv, policy: PolicyEngine, id: JourneyId) returns (turn: Turn)
      requires policy.spec == t.spec && RowsExist(State(), id)
      ensures fresh(turn) && turn.Valid() && turn.keys == keys && turn.gateway == gateway
      ensures turn.env == TurnEnv(State(), t, id) && turn.State() == CellOf(State(), id)
    {
      var ev := events[journeys[id].event];
      var m := MandateOf(ev);
      var env := Env(id, t.spec, t.now, customers[ev.customer], ev.route in t.degraded, t.paid, t.speedup,
                     OrganicRates(events));
      turn := new Turn(env, policy, keys, gateway, journeys[id], ev, m, ledger, trace);
    }

    /** Take one journey's turn, and write its rows back unless it raised. */
    method AdvanceJourney(t: TickEnv, policy: PolicyEngine, id: JourneyId) returns (ok: bool)
      requires policy.spec == t.spec
      modifies this, keys, gateway
      ensures Run(State(), !ok) == AdvanceOne(old(State()), t, id)
    {
      ok := true;
      if id >= |journeys| || journeys[id].event >= |events| || events[journeys[id].event].customer >= |customers| {
        return;
      }
      var turn := LoadTurn(t, policy, id);
      ok := turn.AdvanceJourney();
      if ok {
        Flush(id, journeys[id].event, turn);
      }
    }

    method Flush(id: JourneyId, row: EventId, turn: Turn)
      requires id < |journeys| && row == journeys[id].event && row < |events| && events[row].customer < |customers|
      requires turn.keys == keys && turn.gateway == gateway
      modifies this
      ensures State() == WithCell(old(State()).(keys := keys.data, gw := gateway.State()), id, turn.State())
    {
      var ev := events[row];
      journeys := journeys[id := turn.journey];
      events := events[row := turn.event];
      if turn.mandate.Some? && ev.mandate.Some? && ev.mandate.value < |mandates| {
        mandates := mandates[ev.mandate.value := turn.mandate.value];
      }
      ledger := turn.ledger;
      trace := turn.trace;
    }

    method AdvanceJourneys(t: TickEnv, policy: PolicyEngine, due: seq<JourneyId>) returns (ok: bool)
      requires policy.spec == t.spec
      modifies this, keys, gateway
      ensures Run(State(), !ok) == AdvanceAll(old(State()), t, due)
    {
      ok := true;
      var i := 0;
      while i < |due|
        invariant 0 <= i <= |due| && ok
        invariant AdvanceAll(State(), t, due[i..]) == AdvanceAll(old(State()), t, due)
      {
        assert due[i..][0] == due[i] && due[i..][1..] == due[i + 1..];
        ok := AdvanceJourney(t, policy, due[i]);
        if !ok {
          return;
        }
        i := i + 1;
      }
    }

    /** Resolve the holdout events that have aged, so that the control arm has real outcomes. */
    method SettleControlCohort(t: TickEnv)
      modifies this, gateway
      ensures State() == SettleFrom(old(State()), t, 0)
    {
      var id := 0;
      while id < |events|
        invariant 0 <= id <= |events|
        invariant keys.data == old(keys.data)
        invariant SettleFrom(State(), t, id) == SettleFrom(old(State()), t, 0)
        decreases |events| - id
      {
        var e := events[id];
        if Settles(e, t) {
          var paid := gateway.FetchState(ControlKey(id), t.paid);
          e := e.(appliedAction := Some(DoNothing));
          if paid {
            e := e.(status := Recovered, recoveredAmount := e.amount);
          } else {
            e := e.(status := Lost);
          }
          events := events[id := e];
          trace := trace + [FetchCall(ControlKey(id), id, paid)];
        }
        id := id + 1;
      }
    }

    /** Store the closed row, settle its event and release the customer. */
    method CloseRow(id: JourneyId, closed: Journey, status: EventStatus)
      requires RowsExist(State(), id)
      modifies this, keys
      ensures var c := CellOf(old(State()), id);
              State() == WithCell(old(State()), id,
                                  c.(j := closed, ev := c.ev.(status := status),
                                     keys := KeyStore.Delete(c.keys, CustomerLock(c.j.customer))))
    {
      var j := journeys[id];
      SameMandate(State(), id);
      events := events[j.event := events[j.event].(status := status)];
      journeys := journeys[id := closed];
      keys.DeleteKey(CustomerLock(j.customer));
    }

    /** Close one journey that has lived too long. */
    method ExpireJourney(t: TickEnv, id: JourneyId) returns (ok: bool)
      modifies this, keys
      ensures Run(State(), !ok) == ExpireOne(old(State()), t, id)
    {
      ok := true;
      if id >= |journeys| || journeys[id].event >= |events| || events[journeys[id].event].customer >= |customers| {
        return;
      }
      var j := journeys[id];
      var expired := Move(j, Expired, t.now);
      if expired.None? {
        return false;
      }
      var closed := Move(expired.value, Closed, t.now);
      if closed.None? {
        return false;
      }
      CloseRow(id, closed.value, Lost);
    }

    method ExpireStale(t: TickEnv) returns (ok: bool)
      modifies this, keys
      ensures Run(State(), !ok) == ExpireFrom(old(State()), t, 0)
    {
      ok := true;
      var id := 0;
      while id < |journeys|
        invariant 0 <= id <= |journeys| && ok
        invariant ExpireFrom(State(), t, id) == ExpireFrom(old(State()), t, 0)
        decreases |journeys| - id
      {
        if Stale(journeys[id], t) {
          ok := ExpireJourney(t, id);
          if !ok {
            return;
          }
        }
        id := id + 1;
      }
    }

    method TickOnce(t: TickEnv, limit: nat) returns (ok: bool)
      modifies this, keys, gateway
      ensures Run(State(), !ok) == TickBody(old(State()), t, DueJourneys(old(State()), t.now, limit))
    {
      var policy := new PolicyEngine(t.spec);
      var due := Ids(First(Ordered(DueRows(journeys, t.now, 0)), limit));
      clock := t.now;
      ok := AdvanceJourneys(t, policy, due);
      if ok {
        SettleControlCohort(t);
        ok := ExpireStale(t);
      }
    }

    /** A tick inside its session: when a step raises, the tables are rolled back. */
    method RunTick(t: TickEnv, limit: nat) returns (ok: bool)
      modifies this, keys, gateway
      ensures Run(State(), !ok) == Tick(old(State()), t, DueJourneys(old(State()), t.now, limit))
      ensures old(Valid()) && ok ==> Valid()
    {
      DueJourneysAreABatch(State(), t.now, limit);
      QuietTickKeepsInv(State(), t, DueJourneys(State(), t.now, limit));
      ok := TickInSession(t, limit);
    }

    method TickInSession(t: TickEnv, limit: nat) returns (ok: bool)
      modifies this, keys, gateway
      ensures Run(State(), !ok) == Tick(old(State()), t, DueJourneys(old(State()), t.now, limit))
    {
      ok := true;
      if !t.spec.automationEnabled {
        clock := t.now;
        return;
      }
      var customers0, events0, mandates0, journeys0, ledger0 := customers, events, mandates, journeys, ledger;
      ok := TickOnce(t, limit);
      if !ok {
        customers, events, mandates, journeys, ledger := customers0, events0, mandates0, journeys0, ledger0;
      }
    }

    // ----------------------------------------------------------------------- scanning

    method ScanBudgetOf(e: Event, spec: PolicySpec) returns (budget: BudgetState)
      ensures budget == ScanBudget(State(), e, spec)
    {
      var m := MandateOf(e);
      budget := BudgetState(0, 0, 0, 0, None, spec.paused, 0, None, Some(e.rootCause));
      if m.Some? {
        budget := budget.(npciAttemptsUsed := m.value.attemptsUsed, pdnSentAt := m.value.lastPdnSentAt);
      }
    }

    method NewTurn(s: ScanEnv, id: EventId, row: Journey, e: Event) returns (turn: Turn)
      requires Scannable(State(), s, id)
      ensures fresh(turn) && turn.Valid() && turn.env == StartEnv(State(), s, id)
      ensures turn.journey == row && turn.event == e
    {
      var env := Env(|journeys|, s.spec, s.now, customers[events[id].customer], events[id].route in s.degraded,
                     {}, s.speedup, OrganicRates(events));
      var policy := new PolicyEngine(s.spec);
      turn := new Turn(env, policy, keys, gateway, row, e, None, ledger, trace);
    }

    /** The new row, moved to planned and with its first step scheduled. */
    method NewJourneyRow(s: ScanEnv, id: EventId, e: Event, plan: seq<PlanStep>, discount: real, budget: BudgetState)
      returns (j: Journey)
      requires Scannable(State(), s, id) && plan != []
      requires budget == ScanBudget(State(), events[id], s.spec)
      ensures OpenedJourney(State(), s, id, e, plan, discount) == Some(j)
      ensures j.customer == e.customer
    {
      var turn := NewTurn(s, id, NewJourney(id, e.customer, plan, s.now), e);
      var ok := turn.MoveTo(Analyzing);
      ok := turn.MoveTo(JPlanned);
      ok := turn.ScheduleStep(budget, 0, discount);
      j := turn.journey;
    }

    /** Open a journey for an event whose customer was just claimed, and give it the claim. */
    method StartJourney(s: ScanEnv, id: EventId, e: Event, outcome: Outcome, budget: BudgetState,
                        ghost keysBefore: Keys) returns (finding: Finding)
      requires Scannable(State(), s, id) && outcome.plan != []
      requires budget == ScanBudget(State(), events[id], s.spec)
      requires var r := KeyStore.SetIfAbsent(keysBefore, CustomerLock(e.customer), PendingOwner, CUSTOMER_LOCK_TTL, s.now);
               r == (keys.data, true)
      modifies this, keys
      ensures (State(), finding) == ClaimAndStart(old(State()).(keys := keysBefore), s, id, e, outcome)
    {
      ghost var w := State();
      var recovering := e.(status := InRecovery);
      var discount := OptionDiscount(outcome.options, outcome.plan[0].action);
      var j := NewJourneyRow(s, id, recovering, outcome.plan, discount, budget);
      SameOpening(w, w.(keys := keysBefore), s, id, recovering, outcome.plan, discount);

      keys.DeleteKey(CustomerLock(e.customer));
      var _ := keys.SetKeyIfAbsent(CustomerLock(e.customer), ByJourney(|journeys|), CUSTOMER_LOCK_TTL, s.now);

      finding := Started(|journeys|);
      events := events[id := recovering];
      journeys := journeys + [j];
    }

    /** Diagnose, decide, and either leave the event alone or claim its customer and act. */
    method ScanEvent(s: ScanEnv, id: EventId) returns (finding: Finding)
      requires Scannable(State(), s, id)
      modifies this, keys
      ensures (State(), finding) == ScanOne(old(State()), s, id)
    {
      var e := events[id];
      var customer := customers[e.customer];
      if !WorthPursuing(e, customer, s.spec) {
        events := events[id := e.(status := Suppressed)];
        return NotWorthIt;
      }
      var budget := ScanBudgetOf(e, s.spec);
      e := e.(rootCause := s.facts[id].cause);
      e := e.(organicProbability := s.facts[id].organic);
      var outcome := Decide(DecisionInputs(e, customer, s, s.facts[id]), DecisionGate(e, customer, s, budget));
      assert outcome == Assess(State(), s, id);
      if e.cohort == Control {
        events := events[id := e];
        return HeldOut;
      }
      if outcome.chosen.action == DoNothing {
        events := events[id := e.(status := Suppressed)];
        return NothingToDo;
      }
      if outcome.chosen.verdict == Block {
        events := events[id := e.(status := Suppressed)];
        return Gated;
      }
      ghost var keysBefore := keys.data;
      var claimed := keys.SetKeyIfAbsent(CustomerLock(e.customer), PendingOwner, CUSTOMER_LOCK_TTL, s.now);
      if !claimed {
        var _ := keys.GetKey(CustomerLock(e.customer), s.now);
        events := events[id := e];
        return Collision;
      }
      finding := StartJourney(s, id, e, outcome, budget, keysBefore);
    }

    method ScanEvents(s: ScanEnv, ids: seq<EventId>) returns (report: ScanReport, ghost findings: seq<Finding>)
      modifies this, keys
      ensures (State(), findings) == ScanAll(old(State()), s, ids)
      ensures report == ReportOf(findings)
    {
      ghost var w := State();
      report := ScanReport(0, 0, 0, 0, 0, 0);
      findings := [];
      var i := 0;
      ScannedNone(w, s, ids);
      while i < |ids|
        invariant 0 <= i <= |ids|
        invariant report == ReportOf(findings)
        invariant ScannedSoFar(w, State(), s, ids, i, findings)
      {
        ghost var before := State();
        if ids[i] < |events| && ids[i] < |s.facts| && events[ids[i]].customer < |customers| {
          var finding := ScanEvent(s, ids[i]);
          ScannedOneMore(w, before, State(), s, ids, i, findings, finding);
          findings := findings + [finding];
          report := Counted(report, finding);
          assert findings[..|findings| - 1] + [finding] == findings;
        } else {
          SkippedOneMore(w, before, s, ids, i, findings);
        }
        i := i + 1;
      }
      ScannedAll(w, State(), s, ids, findings);
    }

    /** A scan of the most valuable events nobody works on. */
    method RunScan(s: ScanEnv, limit: nat) returns (report: ScanReport, ghost findings: seq<Finding>)
      modifies this, keys
      ensures (State(), findings) == Scan(old(State()), s, UnclaimedEvents(old(State()), limit))
      ensures report == ReportOf(findings)
      ensures old(Valid()) ==> Valid()
    {
      ghost var w := State();
      UnclaimedEventsAreABatch(w, limit);
      if Inv(w) { ScanKeepsInv(w, s, UnclaimedEvents(w, limit)); }
      var ids := UnclaimedIds(limit);
      clock := s.now;
      report, findings := ScanEvents(s, ids);
    }

    method UnclaimedIds(limit: nat) returns (ids: seq<EventId>)
      ensures ids == UnclaimedEvents(State(), limit)
    {
      var rows: seq<Row> := [];
      var id := |events|;
      while id > 0
        invariant 0 <= id <= |events|
        invariant rows == UnclaimedRows(State(), id)
      {
        id := id - 1;
        var e := events[id];
        if !e.training && e.status == AtRisk
           && !(exists k :: 0 <= k < |journeys| && Open(journeys[k]) && journeys[k].event == id) {
          rows := [Row(id, 0 - e.amount)] + rows;
        }
      }
      ids := Ids(First(Ordered(rows), limit));
    }

    // ----------------------------------------------------------------- human decisions

    method ApproveAction(id: JourneyId, now: Time)
      requires AwaitsApproval(State(), id)
      modifies this
      ensures State() == Approve(old(State()), id, now)
      ensures old(Valid()) ==> Valid()
    {
      ghost var w := State();
      if Inv(w) { ApproveKeepsInv(w, id, now); }
      var j := journeys[id];
      j := WithLast(j, Last(j).(status := Approved, scheduledAt := now));
      if j.state == JAwaitingApproval {
        var moved := Move(j, JApproved, now);
        j := moved.value;
      }
      j := j.(nextActionAt := Some(now));
      journeys := journeys[id := j];
      clock := now;
    }

    method RejectAction(id: JourneyId, now: Time) returns (ok: bool)
      requires RowsExist(State(), id) && journeys[id].actions != []
      modifies this, keys
      ensures Run(State(), !ok) == Apply(old(State()), id, Reject, now)
      ensures old(Valid()) && AwaitsApproval(old(State()), id) && ok ==> Valid()
    {
      ghost var w := State();
      if Inv(w) && AwaitsApproval(w, id) && !Apply(w, id, Reject, now).raised { ApplyKeepsInv(w, id, Reject, now); }
      clock := now;
      var closed := RejectedRow(journeys[id], now);
      if closed.None? {
        return false;
      }
      CloseRow(id, closed.value, Suppressed);
      ok := true;
    }

    method StopJourney(id: JourneyId, now: Time) returns (ok: bool)
      requires RowsExist(State(), id) && journeys[id].actions != []
      modifies this, keys
      ensures Run(State(), !ok) == Apply(old(State()), id, Stop, now)
      ensures old(Valid()) && ok ==> Valid()
    {
      ghost var w := State();
      if Inv(w) && !Apply(w, id, Stop, now).raised { ApplyKeepsInv(w, id, Stop, now); }
      clock := now;
      var j := journeys[id];
      var blocked := Some(j);
      if !IsTerminal(j.state) {
        blocked := Move(j, JBlocked, now);
      }
      if blocked.None? {
        return false;
      }
      var closed := Move(blocked.value, Closed, now);
      if closed.None? {
        return false;
      }
      SameMandate(State(), id);
      assert events[j.event := events[j.event]] == events;
      journeys := journeys[id := closed.value];
      keys.DeleteKey(CustomerLock(j.customer));
      ok := true;
    }

    method PauseJourney(id: JourneyId, now: Time) returns (ok: bool)
      requires RowsExist(State(), id) && journeys[id].actions != []
      modifies this
      ensures Run(State(), !ok) == Apply(old(State()), id, Pause, now)
      ensures old(Valid()) && ok ==> Valid()
    {
      ghost var w := State();
      if Inv(w) && !Apply(w, id, Pause, now).raised { ApplyKeepsInv(w, id, Pause, now); }
      clock := now;
      var j := journeys[id];
      var paused := Move(j, Paused, now);
      if paused.None? {
        return false;
      }
      SameMandate(State(), id);
      assert events[j.event := events[j.event]] == events;
      journeys := journeys[id := paused.value.(nextActionAt := None)];
      ok := true;
    }

    method ResumeJourney(id: JourneyId, now: Time) returns (ok: bool)
      requires RowsExist(State(), id) && journeys[id].actions != []
      modifies this
      ensures Run(State(), !ok) == Apply(old(State()), id, Resume, now)
      ensures old(Valid()) && ok ==> Valid()
    {
      ghost var w := State();
      if Inv(w) && !Apply(w, id, Resume, now).raised { ApplyKeepsInv(w, id, Resume, now); }
      clock := now;
      var j := journeys[id];
      var target := if Last(j).status == Approved then JApproved else JPlanned;
      var resumed := Move(j, target, now);
      if resumed.None? {
        return false;
      }
      SameMandate(State(), id);
      assert events[j.event := events[j.event]] == events;
      journeys := journeys[id := resumed.value.(nextActionAt := Some(now))];
      ok := true;
    }
  }

  /** The row of a journey whose waiting action is rejected: cancelled, blocked, closed. */
  function RejectedRow(j: Journey, now: Time): Option<Journey>
    requires j.actions != []
  {
    var blocked :- Move(WithLast(j, Last(j).(status := Cancelled)), JBlocked, now);
    Move(blocked, Closed, now)
  }

  /** The first step does not depend on the key store. */
  lemma SameOpening(w: World, w': World, s: ScanEnv, id: EventId, e: Event, plan: seq<PlanStep>, discount: real)
    requires Scannable(w, s, id) && w' == w.(keys := w'.keys) && plan != []
    ensures OpenedJourney(w', s, id, e, plan, discount) == OpenedJourney(w, s, id, e, plan, discount)
  {
    assert StartEnv(w', s, id) == StartEnv(w, s, id);
    assert ScanBudget(w', w'.events[id], s.spec) == ScanBudget(w, w.events[id], s.spec);
  }

  /** Writing back the mandate that was read changes nothing. */
  lemma SameMandate(w: World, id: JourneyId)
    requires RowsExist(w, id)
    ensures forall c: Cell :: c.mandate == CellOf(w, id).mandate ==> WithCell(w, id, c).mandates == w.mandates
  {
  }
}
