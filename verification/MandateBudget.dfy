/** The network's attempt limit, per mandate and across journeys. The gate of a tick only knows
    how often its own journey has presented; the limit holds because a scan reads the mandate,
    a plan retries at most once, and a customer has at most one open journey. */
module MandateBudget {
  import opened Domain
  import opened Rows
  import opened Policy
  import opened Decision
  import opened Journey
  import opened Gateway
  import opened Ledger
  import opened Recovery
  import opened RecoveryProofs
  import opened Orchestrator
  import opened Safety
  import opened Operations
  import opened Locks
  import opened TurnLimits
  import KeyStore

  // ----------------------------------------------------------------------- invariant

  /** The journey will still present the mandate, or may. */
  predicate RetryAhead(j: Journey) {
    exists i :: 0 <= i < |j.plan| && j.plan[i].action == RetryPayment
                && (i < |j.actions| ==> j.actions[i].executedAt.None?)
  }

  predicate Presents(w: World, id: JourneyId, m: MandateId)
    requires RowsExist(w, id)
  {
    m < |w.mandates| && EventOf(w, id).mandate == Some(m)
  }

  predicate RoomToRetry(w: World, limit: int, id: JourneyId)
    requires RowsExist(w, id)
  {
    Open(w.journeys[id]) && RetryAhead(w.journeys[id]) ==>
      forall m :: 0 <= m < |w.mandates| && Presents(w, id, m) ==> w.mandates[m].attemptsUsed < limit
  }

  /** Every mandate is within the limit, or was beyond it before the run began. */
  predicate AttemptsWithin(w: World, limit: int, initial: MandateTable) {
    && |w.mandates| == |initial|
    && forall m :: 0 <= m < |initial| ==> w.mandates[m].attemptsUsed <= MaxInt(initial[m].attemptsUsed, limit)
  }

  predicate MandateInv(w: World, limit: int, initial: MandateTable) {
    && AttemptsWithin(w, limit, initial)
    && forall id :: 0 <= id < |w.journeys| ==> RowsExist(w, id) && RoomToRetry(w, limit, id)
  }

  // ------------------------------------------------------------------ one cell changes

  /** What a change of one cell does to its mandate. */
  ghost predicate PresentationStep(c: Cell, c': Cell) {
    && SameJourney(c.j, c'.j) && c'.ev.mandate == c.ev.mandate && c'.ev.customer == c.ev.customer
    && (Open(c'.j) ==> Open(c.j))
    && (Open(c'.j) && RetryAhead(c'.j) ==> RetryAhead(c.j))
    && c'.mandate.Some? == c.mandate.Some?
    && (c.mandate.Some? ==>
          || c'.mandate.value.attemptsUsed == c.mandate.value.attemptsUsed
          || (c'.mandate.value.attemptsUsed == c.mandate.value.attemptsUsed + 1
              && Open(c.j) && RetryAhead(c.j) && !RetryAhead(c'.j)))
  }

  /** Journeys that present the same mandate have the same customer. */
  lemma SharedMandate(w: World, i: JourneyId, k: JourneyId, m: MandateId)
    requires Inv(w) && RowsExist(w, i) && RowsExist(w, k) && Presents(w, i, m) && Presents(w, k, m)
    ensures w.journeys[i].customer == w.journeys[k].customer
  {
    assert JourneyOk(w, i) && JourneyOk(w, k);
    assert EventRowOk(w, EventOf(w, i)) && EventRowOk(w, EventOf(w, k));
  }

  lemma MandatesAfter(w: World, id: JourneyId, c': Cell, m: MandateId)
    requires RowsExist(w, id) && m < |w.mandates|
    ensures var w' := WithCell(w, id, c');
            |w'.mandates| == |w.mandates|
            && (if Presents(w, id, m) && c'.mandate.Some? then w'.mandates[m] == c'.mandate.value
                else w'.mandates[m] == w.mandates[m])
  {
  }

  lemma OthersKeepRoom(w: World, limit: int, id: JourneyId, c': Cell, k: JourneyId)
    requires Inv(w) && OneOwner(w) && RowsExist(w, id) && RowsExist(w, k) && RoomToRetry(w, limit, k)
    requires RowsExist(WithCell(w, id, c'), k) && EventOf(WithCell(w, id, c'), k) == EventOf(w, k)
    requires PresentationStep(CellOf(w, id), c') && k != id
    ensures RoomToRetry(WithCell(w, id, c'), limit, k)
  {
    var w' := WithCell(w, id, c');
    if Open(w'.journeys[k]) && RetryAhead(w'.journeys[k]) {
      forall m: MandateId | m < |w'.mandates| && Presents(w', k, m) ensures w'.mandates[m].attemptsUsed < limit {
        MandatesAfter(w, id, c', m);
        assert Presents(w, k, m);
        if Presents(w, id, m) { SharedMandate(w, id, k, m); }
      }
    }
  }

  lemma CellKeepsRoom(w: World, limit: int, id: JourneyId, c': Cell)
    requires RowsExist(w, id) && RoomToRetry(w, limit, id)
    requires RowsExist(WithCell(w, id, c'), id) && PresentationStep(CellOf(w, id), c')
    ensures RoomToRetry(WithCell(w, id, c'), limit, id)
  {
    var w' := WithCell(w, id, c');
    if Open(w'.journeys[id]) && RetryAhead(w'.journeys[id]) {
      forall m: MandateId | m < |w'.mandates| && Presents(w', id, m) ensures w'.mandates[m].attemptsUsed < limit {
        MandatesAfter(w, id, c', m);
        assert Presents(w, id, m);
      }
    }
  }

  lemma AttemptsAfter(w: World, limit: int, initial: MandateTable, id: JourneyId, c': Cell)
    requires Inv(w) && MandateInv(w, limit, initial) && RowsExist(w, id)
    requires PresentationStep(CellOf(w, id), c')
    ensures AttemptsWithin(WithCell(w, id, c'), limit, initial)
  {
    var w' := WithCell(w, id, c');
    assert RoomToRetry(w, limit, id);
    forall m | 0 <= m < |initial| ensures w'.mandates[m].attemptsUsed <= MaxInt(initial[m].attemptsUsed, limit) {
      MandatesAfter(w, id, c', m);
    }
  }

  lemma PresentationKeepsBudget(w: World, limit: int, initial: MandateTable, id: JourneyId, c': Cell)
    requires Inv(w) && OneOwner(w) && MandateInv(w, limit, initial) && RowsExist(w, id)
    requires LocalStep(w, id, c') && PresentationStep(CellOf(w, id), c')
    ensures MandateInv(WithCell(w, id, c'), limit, initial)
  {
    AttemptsAfter(w, limit, initial, id, c');
    CellAfter(w, id, c');
    var w' := WithCell(w, id, c');
    forall k | 0 <= k < |w'.journeys| ensures RowsExist(w', k) && RoomToRetry(w', limit, k) {
      assert RoomToRetry(w, limit, k);
      if k == id { CellKeepsRoom(w, limit, id, c'); } else { OthersKeepRoom(w, limit, id, c', k); }
    }
  }

  // --------------------------------------------------------------------------- ticks

  lemma RetryAheadShrinks(j: Journey, j': Journey)
    requires OnlyExecutes(j, j') && RetryAhead(j')
    ensures RetryAhead(j)
  {
    var i :| 0 <= i < |j'.plan| && j'.plan[i].action == RetryPayment
             && (i < |j'.actions| ==> j'.actions[i].executedAt.None?);
    assert 0 <= i < |j.plan| && j.plan[i].action == RetryPayment;
    assert i < |j.actions| ==> j.actions[i].executedAt.None?;
  }

  /** A journey presents once: after its retry is executed there is none ahead. */
  lemma OnePresentation(id: JourneyId, j: Journey, i: nat)
    requires PlanOk(j.plan) && ActionsOk(id, j) && i < |j.actions|
    requires j.actions[i].kind == RetryPayment && j.actions[i].executedAt.Some?
    ensures !RetryAhead(j)
  {
    assert ActionOk(id, j.plan, i, j.actions[i]);
  }

  lemma TurnPresentation(id: JourneyId, c: Cell, c': Cell, env: Env)
    requires id == env.id && CellOk(id, c) && CellOk(id, c') && Footprint(c, c', env) && Open(c.j)
    ensures PresentationStep(c, c')
  {
    FootprintActions(c, c', env);
    TurnOnlyExecutes(c, c', env.now);
    if RetryAhead(c'.j) { RetryAheadShrinks(c.j, c'.j); }
    var n := |c.j.actions| - 1;
    var a := Last(c.j);
    assert ActionOk(id, c.j.plan, n, c.j.actions[n]) && ActionOk(id, c'.j.plan, n, c'.j.actions[n]);
    if a.kind == RetryPayment && a.executedAt.None? && c'.j.actions[n].executedAt.Some? {
      assert RetryAhead(c.j);
      OnePresentation(id, c'.j, n);
    }
  }

  /** The three invariants that the attempt limit rests on. */
  ghost predicate Sound(w: World, limit: int, initial: MandateTable) {
    Inv(w) && LocksSound(w) && MandateInv(w, limit, initial)
  }

  lemma AdvanceOneKeepsBudget(w: World, t: TickEnv, id: JourneyId, limit: int, initial: MandateTable)
    requires Sound(w, limit, initial) && id < |w.journeys| && Open(w.journeys[id])
    requires !AdvanceOne(w, t, id).raised
    ensures Sound(AdvanceOne(w, t, id).w, limit, initial)
  {
    AdvanceOneKeepsInv(w, t, id);
    OrderIsResting(w);
    AdvanceOneIsSound(w, t, id);
    assert EventRowOk(w, w.events[w.journeys[id].event]);
    assert JourneyOk(w, id);
    var c, env := CellOf(w, id), TurnEnv(w, t, id);
    AdvanceRests(c, env);
    var c' := Advance(c, env).value;
    TurnIsLocal(w, t, id, c');
    TurnPresentation(id, c, c', env);
    PresentationKeepsBudget(w, limit, initial, id, c');
  }

  lemma {:induction false} AdvanceAllKeepsBudget(w: World, t: TickEnv, ids: seq<JourneyId>, limit: int,
                                                 initial: MandateTable)
    requires Sound(w, limit, initial) && OpenBatch(w, ids)
    requires !AdvanceAll(w, t, ids).raised
    ensures Sound(AdvanceAll(w, t, ids).w, limit, initial)
    decreases |ids|
  {
    if ids != [] {
      AdvanceOneKeepsBudget(w, t, ids[0], limit, initial);
      AdvanceOneFrame(w, t, ids[0]);
      var w' := AdvanceOne(w, t, ids[0]).w;
      assert forall i :: 0 <= i < |ids[1..]| ==> ids[1..][i] == ids[i + 1];
      AdvanceAllKeepsBudget(w', t, ids[1..], limit, initial);
    }
  }

  /** A change of the row alone presents nothing. */
  lemma RowKeepsBudget(w: World, id: JourneyId, c': Cell, limit: int, initial: MandateTable)
    requires Sound(w, limit, initial) && RowsExist(w, id)
    requires CellOk(id, c') && RowStep(CellOf(w, id), c')
    requires OnlyExecutes(w.journeys[id], c'.j) && (Open(c'.j) ==> Open(w.journeys[id]))
    ensures MandateInv(WithCell(w, id, c'), limit, initial)
  {
    assert JourneyOk(w, id);
    if RetryAhead(c'.j) { RetryAheadShrinks(w.journeys[id], c'.j); }
    PresentationKeepsBudget(w, limit, initial, id, c');
  }

  lemma ExpireOneKeepsBudget(w: World, t: TickEnv, id: JourneyId, limit: int, initial: MandateTable)
    requires Sound(w, limit, initial) && id < |w.journeys| && Open(w.journeys[id]) && !ExpireOne(w, t, id).raised
    ensures Sound(ExpireOne(w, t, id).w, limit, initial)
  {
    ExpireOneKeepsInv(w, t, id);
    OrderIsResting(w);
    ExpireOneIsSound(w, t, id);
    assert JourneyOk(w, id);
    ExpireRests(id, CellOf(w, id), t.now);
    RowKeepsBudget(w, id, ExpireCell(CellOf(w, id), t.now).value, limit, initial);
  }

  lemma {:induction false} ExpireKeepsBudget(w: World, t: TickEnv, from: nat, limit: int, initial: MandateTable)
    requires Sound(w, limit, initial) && !ExpireFrom(w, t, from).raised
    ensures Sound(ExpireFrom(w, t, from).w, limit, initial)
    decreases |w.journeys| - from
  {
    if from < |w.journeys| {
      if Stale(w.journeys[from], t) {
        ExpireOneKeepsBudget(w, t, from, limit, initial);
        ExpireOneKeepsInv(w, t, from);
        ExpireKeepsBudget(ExpireOne(w, t, from).w, t, from + 1, limit, initial);
      } else {
        ExpireKeepsBudget(w, t, from + 1, limit, initial);
      }
    }
  }

  /** Journeys, mandates and who owns which event are all this invariant reads. */
  lemma SameBudget(w: World, w': World, limit: int, initial: MandateTable)
    requires MandateInv(w, limit, initial) && w'.journeys == w.journeys && w'.mandates == w.mandates
    requires |w'.events| == |w.events| && w'.customers == w.customers
    requires forall id :: 0 <= id < |w.journeys| ==>
               RowsExist(w, id) && w'.events[w.journeys[id].event] == EventOf(w, id)
    ensures MandateInv(w', limit, initial)
  {
    forall id | 0 <= id < |w'.journeys| ensures RowsExist(w', id) && RoomToRetry(w', limit, id) {
      assert RoomToRetry(w, limit, id);
      forall m: MandateId | Presents(w', id, m) ensures Presents(w, id, m) {}
    }
  }

  lemma SettleOneKeepsBudget(w: World, t: TickEnv, e: EventId, limit: int, initial: MandateTable)
    requires Sound(w, limit, initial) && e < |w.events| && Settles(w.events[e], t)
    ensures Sound(SettleOne(w, t, e), limit, initial)
  {
    SettleOneKeepsInv(w, t, e);
    UnownedEvent(w, e);
    OrderIsResting(w);
    SameOwners(w, SettleOne(w, t, e));
    SameBudget(w, SettleOne(w, t, e), limit, initial);
  }

  lemma {:induction false} SettleKeepsBudget(w: World, t: TickEnv, from: nat, limit: int, initial: MandateTable)
    requires Sound(w, limit, initial)
    ensures Sound(SettleFrom(w, t, from), limit, initial)
    decreases |w.events| - from
  {
    if from < |w.events| {
      if Settles(w.events[from], t) { SettleOneKeepsBudget(w, t, from, limit, initial); }
      SettleKeepsBudget(if Settles(w.events[from], t) then SettleOne(w, t, from) else w, t, from + 1, limit, initial);
    }
  }

  lemma ClockKeepsSound(w: World, now: Time, limit: int, initial: MandateTable)
    requires Sound(w, limit, initial)
    ensures Sound(w.(clock := now), limit, initial)
  {
    ClockIsFree(w, now);
    OrderIsResting(w);
    SameOwners(w, w.(clock := now));
    SameBudget(w, w.(clock := now), limit, initial);
  }

  lemma TickKeepsBudget(w: World, t: TickEnv, due: seq<JourneyId>, limit: int, initial: MandateTable)
    requires Sound(w, limit, initial) && OpenBatch(w, due) && !Tick(w, t, due).raised
    ensures Sound(Tick(w, t, due).w, limit, initial)
  {
    ClockKeepsSound(w, t.now, limit, initial);
    if t.spec.automationEnabled {
      var w0 := w.(clock := t.now);
      AdvanceAllKeepsBudget(w0, t, due, limit, initial);
      var w1 := AdvanceAll(w0, t, due).w;
      SettleKeepsBudget(w1, t, 0, limit, initial);
      ExpireKeepsBudget(SettleFrom(w1, t, 0), t, 0, limit, initial);
    }
  }

  // --------------------------------------------------------------------------- scans

  /** A plan that retries was made with the mandate below the limit. */
  lemma PlannedRetryHasRoom(w: World, s: ScanEnv, id: EventId)
    requires Scannable(w, s, id)
    requires Uses(Assess(w, s, id).plan, RetryPayment)
    ensures var m := MandateRow(w, w.events[id]);
            m.Some? ==> m.value.attemptsUsed < s.spec.npciMaxAttempts
  {
    var e, c := Diagnosed(w.events[id], s.facts[id]), w.customers[w.events[id].customer];
    var budget := ScanBudget(w, w.events[id], s.spec);
    var gate := DecisionGate(e, c, s, budget);
    RetryPlannedOnce(DecisionInputs(e, c, s, s.facts[id]), gate);
    BlockedIffBeyondLimits(s.spec, Ask(RetryPayment, e, c, budget, 0.0, e.route in s.degraded, s.now));
  }

  lemma OpeningKeepsBudget(w: World, w': World, e: EventId, ev: Event, j: Journey, limit: int, initial: MandateTable)
    requires Sound(w, limit, initial) && FreshEvent(w, e) && Inv(w')
    requires w' == w.(events := w.events[e := ev], journeys := w.journeys + [j], keys := w'.keys)
    requires j.event == e && ev.mandate == w.events[e].mandate
    requires RetryAhead(j) ==> forall m :: m < |w.mandates| && ev.mandate == Some(m) ==> w.mandates[m].attemptsUsed < limit
    ensures MandateInv(w', limit, initial)
  {
    UnownedEvent(w, e);
    forall id | 0 <= id < |w'.journeys| ensures RowsExist(w', id) && RoomToRetry(w', limit, id) {
      assert EventRowOk(w', w'.events[w'.journeys[id].event]);
      if id < |w.journeys| {
        assert RoomToRetry(w, limit, id);
        forall m: MandateId | Presents(w', id, m) ensures Presents(w, id, m) {}
      }
    }
  }

  lemma RetryAheadIsPlanned(j: Journey)
    requires RetryAhead(j)
    ensures Uses(j.plan, RetryPayment)
  {
  }

  lemma ClaimKeepsBudget(w: World, s: ScanEnv, id: EventId, initial: MandateTable)
    requires Sound(w, s.spec.npciMaxAttempts, initial) && FreshEvent(w, id) && Scannable(w, s, id)
    requires ReachesClaim(w, s, id) && Inv(ScanOne(w, s, id).0)
    ensures MandateInv(ScanOne(w, s, id).0, s.spec.npciMaxAttempts, initial)
  {
    var limit := s.spec.npciMaxAttempts;
    var d, outcome := Diagnosed(w.events[id], s.facts[id]), Assess(w, s, id);
    AssessedPlanOk(w, s, id);
    var j := ClaimAndStartShape(w, s, id, d, outcome);
    var w' := ScanOne(w, s, id).0;
    if w'.journeys == w.journeys {
      UnownedEvent(w, id);
      SameBudget(w, w', limit, initial);
    } else {
      if RetryAhead(j) {
        RetryAheadIsPlanned(j);
        PlannedRetryHasRoom(w, s, id);
      }
      OpeningKeepsBudget(w, w', id, d.(status := InRecovery), j, limit, initial);
    }
  }

  lemma ScanOneKeepsBudget(w: World, s: ScanEnv, id: EventId, initial: MandateTable)
    requires Sound(w, s.spec.npciMaxAttempts, initial) && FreshEvent(w, id) && Scannable(w, s, id)
    requires ReachesClaim(w, s, id) ==> !Unguarded(w, w.events[id].customer, s.now)
    ensures Sound(ScanOne(w, s, id).0, s.spec.npciMaxAttempts, initial)
    ensures KeepsProtection(w, ScanOne(w, s, id).0, s.now)
  {
    ScanOneKeepsInv(w, s, id);
    OrderIsResting(w);
    ScanOneIsSound(w, s, id);
    if ReachesClaim(w, s, id) {
      ClaimKeepsBudget(w, s, id, initial);
    } else {
      UnownedEvent(w, id);
      SameBudget(w, ScanOne(w, s, id).0, s.spec.npciMaxAttempts, initial);
    }
  }

  lemma {:induction false} ScanAllKeepsBudget(w: World, s: ScanEnv, ids: seq<EventId>, initial: MandateTable)
    requires Sound(w, s.spec.npciMaxAttempts, initial) && FreshBatch(w, ids)
    requires ClaimsGuarded(w, s, ids)
    ensures Sound(ScanAll(w, s, ids).0, s.spec.npciMaxAttempts, initial)
    decreases |ids|
  {
    if ids != [] {
      assert forall i :: 0 <= i < |ids[1..]| ==> ids[1..][i] == ids[i + 1];
      if Scannable(w, s, ids[0]) {
        ScanOneKeepsBudget(w, s, ids[0], initial);
        ScanOneFrame(w, s, ids[0]);
        LaterClaimsGuarded(w, ScanOne(w, s, ids[0]).0, s, ids);
        ScanAllKeepsBudget(ScanOne(w, s, ids[0]).0, s, ids[1..], initial);
      } else {
        ScanAllKeepsBudget(w, s, ids[1..], initial);
      }
    }
  }

  lemma ScanKeepsBudget(w: World, s: ScanEnv, ids: seq<EventId>, initial: MandateTable)
    requires Sound(w, s.spec.npciMaxAttempts, initial) && FreshBatch(w, ids)
    requires ClaimsGuarded(w, s, ids)
    ensures Sound(Scan(w, s, ids).0, s.spec.npciMaxAttempts, initial)
  {
    ClockKeepsSound(w, s.now, s.spec.npciMaxAttempts, initial);
    ClockKeepsGuards(w, s, ids);
    ScanAllKeepsBudget(w.(clock := s.now), s, ids, initial);
  }

  // ----------------------------------------------------------------- human decisions

  lemma ApproveKeepsBudget(w: World, id: JourneyId, now: Time, limit: int, initial: MandateTable)
    requires Sound(w, limit, initial) && AwaitsApproval(w, id)
    ensures Sound(Approve(w, id, now), limit, initial)
  {
    ApproveKeepsInv(w, id, now);
    OrderIsResting(w);
    ApproveIsSound(w, id, now);
    assert EventRowOk(w, w.events[w.journeys[id].event]);
    assert JourneyOk(w, id);
    var c := CellOf(w, id);
    var c' := c.(j := ApproveRow(c.j, now));
    ApproveRests(id, c, now);
    RowKeepsBudget(w, id, c', limit, initial);
    SameWorld(w, id, c');
    SameBudget(WithCell(w, id, c'), Approve(w, id, now), limit, initial);
  }

  lemma CommandOnlyExecutes(id: JourneyId, c: Cell, command: Command, now: Time)
    requires CellOk(id, c) && CommandCell(c, command, now).Some?
    requires command == Reject ==> Last(c.j).status == AwaitingApproval
    ensures var c' := CommandCell(c, command, now).value;
            OnlyExecutes(c.j, c'.j) && (Open(c'.j) ==> Open(c.j))
  {
    match command
    case Reject => RejectOnlyExecutes(id, c, now);
    case Stop => StopOnlyExecutes(id, c, now);
    case Pause => PauseOnlyExecutes(id, c, now);
    case Resume => ResumeOnlyExecutes(id, c, now);
  }

  lemma RejectOnlyExecutes(id: JourneyId, c: Cell, now: Time)
    requires CellOk(id, c) && RejectCell(c, now).Some? && Last(c.j).status == AwaitingApproval
    ensures var c' := RejectCell(c, now).value;
            OnlyExecutes(c.j, c'.j) && (Open(c'.j) ==> Open(c.j))
  {
  }

  lemma StopOnlyExecutes(id: JourneyId, c: Cell, now: Time)
    requires CellOk(id, c) && StopCell(c, now).Some?
    ensures var c' := StopCell(c, now).value;
            OnlyExecutes(c.j, c'.j) && (Open(c'.j) ==> Open(c.j))
  {
  }

  lemma PauseOnlyExecutes(id: JourneyId, c: Cell, now: Time)
    requires CellOk(id, c) && PauseCell(c, now).Some?
    ensures var c' := PauseCell(c, now).value;
            OnlyExecutes(c.j, c'.j) && (Open(c'.j) ==> Open(c.j))
  {
  }

  lemma ResumeOnlyExecutes(id: JourneyId, c: Cell, now: Time)
    requires CellOk(id, c) && ResumeCell(c, now).Some?
    ensures var c' := ResumeCell(c, now).value;
            OnlyExecutes(c.j, c'.j) && (Open(c'.j) ==> Open(c.j))
  {
  }

  lemma ApplyKeepsBudget(w: World, id: JourneyId, command: Command, now: Time, limit: int, initial: MandateTable)
    requires Sound(w, limit, initial) && !Apply(w, id, command, now).raised
    requires command == Reject ==> AwaitsApproval(w, id)
    ensures Sound(Apply(w, id, command, now).w, limit, initial)
  {
    ApplyKeepsInv(w, id, command, now);
    OrderIsResting(w);
    ApplyIsSound(w, id, command, now);
    assert JourneyOk(w, id);
    var c := CellOf(w, id);
    CommandRests(id, c, command, now);
    CommandOnlyExecutes(id, c, command, now);
    var c' := CommandCell(c, command, now).value;
    RowKeepsBudget(w, id, c', limit, initial);
    RowStepKeepsInv(w, id, c');
    SameBudget(WithCell(w, id, c'), Apply(w, id, command, now).w, limit, initial);
  }
}
