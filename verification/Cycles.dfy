/** The scheduler's round: a scan and a tick in one session. If the tick raises, what the scan has
    written is undone as well, but not the locks it took. */
module Cycles {
  import opened Domain
  import opened Rows
  import opened Policy
  import opened Decision
  import opened Journey
  import opened Gateway
  import opened Ledger
  import opened Recovery
  import opened RecoveryProofs
  import opened Orchestrator
  import opened Safety
  import opened Operations
  import opened Raises
  import opened Locks
  import opened Rollbacks
  import KeyStore

  function Cycle(w: World, s: ScanEnv, ids: seq<EventId>, t: TickEnv, due: seq<JourneyId>): Run {
    var r := Tick(Scan(w, s, ids).0, t, due);
    if r.raised then Run(RolledBack(w, r.w), true) else r
  }

  // --------------------------------------------------------------------- what a scan adds

  predicate JustStarted(j: Journey, now: Time) {
    Open(j) && j.createdAt == now && |j.actions| == 1 && j.actions[0].executedAt.None?
  }

  /** A scan adds journeys that have executed nothing, and changes no other. */
  ghost predicate Grew(w: World, w': World, now: Time) {
    && w'.trace == w.trace && w'.gw == w.gw && NoNewReservation(w.keys, w'.keys)
    && |w.journeys| <= |w'.journeys|
    && (forall id :: 0 <= id < |w.journeys| ==> w'.journeys[id] == w.journeys[id])
    && (forall id :: |w.journeys| <= id < |w'.journeys| ==> JustStarted(w'.journeys[id], now))
  }

  lemma GrewOn(w: World, w1: World, w2: World, now: Time)
    requires Grew(w, w1, now) && Grew(w1, w2, now)
    ensures Grew(w, w2, now)
  {
    forall id | |w.journeys| <= id < |w2.journeys| ensures JustStarted(w2.journeys[id], now) {
      if id < |w1.journeys| { assert w2.journeys[id] == w1.journeys[id]; }
    }
  }

  lemma ScanOneGrows(w: World, s: ScanEnv, id: EventId)
    requires FreshEvent(w, id) && Scannable(w, s, id)
    ensures Grew(w, ScanOne(w, s, id).0, s.now)
  {
    ScanOneFrame(w, s, id);
    if ReachesClaim(w, s, id) {
      AssessedPlanOk(w, s, id);
      ClaimGrows(w, s, id, Diagnosed(w.events[id], s.facts[id]), Assess(w, s, id));
    }
  }

  lemma ClaimGrows(w: World, s: ScanEnv, id: EventId, d: Event, outcome: Outcome)
    requires FreshEvent(w, id) && Scannable(w, s, id) && PlanOk(outcome.plan)
    ensures Grew(w, ClaimAndStart(w, s, id, d, outcome).0, s.now)
  {
    var j := ClaimAndStartShape(w, s, id, d, outcome);
    var keys := Claim(w.keys, d.customer, s.now).0;
    ClaimTouchesNoReservation(w.keys, d.customer, |w.journeys|, s.now);
    ClaimAgain(keys, w.keys, d.customer, |w.journeys|, s.now);
  }

  lemma {:induction false} ScanAllGrows(w: World, s: ScanEnv, ids: seq<EventId>)
    requires FreshBatch(w, ids)
    ensures Grew(w, ScanAll(w, s, ids).0, s.now)
    decreases |ids|
  {
    if ids != [] {
      assert forall i :: 0 <= i < |ids[1..]| ==> ids[1..][i] == ids[i + 1];
      if Scannable(w, s, ids[0]) {
        ScanOneGrows(w, s, ids[0]);
        ScanOneFrame(w, s, ids[0]);
        ScanAllGrows(ScanOne(w, s, ids[0]).0, s, ids[1..]);
        GrewOn(w, ScanOne(w, s, ids[0]).0, ScanAll(w, s, ids).0, s.now);
      } else {
        ScanAllGrows(w, s, ids[1..]);
      }
    }
  }

  lemma ScanGrows(w: World, s: ScanEnv, ids: seq<EventId>)
    requires FreshBatch(w, ids)
    ensures Grew(w, Scan(w, s, ids).0, s.now)
  {
    ScanAllGrows(w.(clock := s.now), s, ids);
  }

  // ---------------------------------------------------------------- the book afterwards

  /** What the round leaves in the key store and the trace fits the rows from before the scan. */
  lemma OldBookFits(w: World, scanned: World, reached: World, now: Time)
    requires Inv(w) && Inv(scanned) && Inv(reached) && Grew(w, scanned, now)
    requires Later(scanned, reached) && SamePlans(scanned, reached) && !Executes(reached.trace, |w.trace|)
    ensures Inv(RolledBack(w, reached))
  {
    var r := RolledBack(w, reached);
    RolledBackLedger(w, reached);
    OldCallsFit(w, scanned, reached, now);
    forall id | 0 <= id < |w.journeys| ensures RowsExist(r, id) && JourneyOk(r, id) {
      assert EventRowOk(w, w.events[w.journeys[id].event]);
      assert JourneyOk(w, id);
      OldStoreOk(scanned, reached, id);
      OldRowKeeps(id, CellOf(w, id), CellOf(r, id));
    }
  }

  lemma OldCallsFit(w: World, scanned: World, reached: World, now: Time)
    requires Inv(w) && Inv(scanned) && Inv(reached) && Grew(w, scanned, now)
    requires Later(scanned, reached) && SamePlans(scanned, reached) && !Executes(reached.trace, |w.trace|)
    ensures TraceSound(RolledBack(w, reached)) && KeysSound(RolledBack(w, reached))
  {
    var r := RolledBack(w, reached);
    forall i | 0 <= i < |r.trace| ensures CallOk(r.trace, i) && KnownCall(r, r.trace[i]) {
      assert CallOk(reached.trace, i);
      if i < |w.trace| { assert KnownCall(w, w.trace[i]); }
    }
    forall key | IdemKey(key) in r.keys ensures key.ActionKey? && key.journey < |w.journeys| {
      OldStoreOk(scanned, reached, key.journey);
    }
  }

  lemma CycleReaches(w: World, s: ScanEnv, ids: seq<EventId>, t: TickEnv, due: seq<JourneyId>)
    returns (scanned: World, reached: World)
    requires Inv(w) && FreshBatch(w, ids)
    requires OpenBatch(Scan(w, s, ids).0, due) && TickRaises(Scan(w, s, ids).0, t, due)
    ensures scanned == Scan(w, s, ids).0 && reached == TickBody(scanned, t, due).w
    ensures Inv(scanned) && Inv(reached) && Grew(w, scanned, s.now)
    ensures Later(scanned, reached) && SamePlans(scanned, reached)
    ensures Cycle(w, s, ids, t, due) == Run(RolledBack(w, reached), true)
    ensures TickCharges(scanned, t, due) <==> Executes(reached.trace, |w.trace|)
  {
    scanned := Scan(w, s, ids).0;
    ScanKeepsInv(w, s, ids);
    ScanGrows(w, s, ids);
    AnyTickRaisesIff(scanned, t, due);
    TickExecutesIff(scanned, t, due);
    reached := TickBody(scanned, t, due).w;
    TickBodyIsLater(scanned, t, due);
    TickKeepsPlans(scanned, t, due);
  }

  /** After a round that raised, the book is in order exactly when nothing was charged before the raise:
      journeys that were opened and lost do not disturb it. */
  lemma CycleKeepsInvIff(w: World, s: ScanEnv, ids: seq<EventId>, t: TickEnv, due: seq<JourneyId>)
    requires Inv(w) && FreshBatch(w, ids)
    requires OpenBatch(Scan(w, s, ids).0, due) && TickRaises(Scan(w, s, ids).0, t, due)
    ensures Cycle(w, s, ids, t, due).raised
    ensures Inv(Cycle(w, s, ids, t, due).w) <==> !TickCharges(Scan(w, s, ids).0, t, due)
  {
    var scanned, reached := CycleReaches(w, s, ids, t, due);
    if Executes(reached.trace, |w.trace|) {
      LostExecute(w, scanned, reached, s.now);
    } else {
      OldBookFits(w, scanned, reached, s.now);
    }
  }

  /** An execute that the book does not show. */
  lemma LostExecute(w: World, scanned: World, reached: World, now: Time)
    requires Grew(w, scanned, now) && Later(scanned, reached) && Executes(reached.trace, |w.trace|)
    ensures !Inv(RolledBack(w, reached))
  {
    var r := RolledBack(w, reached);
    var i :| |w.trace| <= i < |r.trace| && r.trace[i].ExecuteCall?;
    var id := r.trace[i].key.journey;
    if Inv(r) {
      assert KnownCall(r, r.trace[i]);
      assert EventRowOk(r, r.events[r.journeys[id].event]);
      assert JourneyOk(r, id) && OwnExecute(id, r.trace[i]);
      assert false;
    }
  }

  // ------------------------------------------------------------------ locks without a journey

  /** A customer is locked for a journey that was never stored. */
  predicate LockedOut(w: World, customer: CustomerId, until: Time) {
    var lock := CustomerLock(customer);
    && lock in w.keys && w.keys[lock].expiresAt == until
    && w.keys[lock].value.ByJourney? && w.keys[lock].value.journey >= |w.journeys|
  }

  /** A round that raised leaves the customer of a journey it had opened locked out for the lifetime of
      the lock, exactly if it had not closed the journey before it raised. */
  lemma CycleLocksOutIff(w: World, s: ScanEnv, ids: seq<EventId>, t: TickEnv, due: seq<JourneyId>, n: JourneyId)
    requires Inv(w) && LockInv(w) && FreshBatch(w, ids) && w.clock <= s.now && LocksLive(w, s.now)
    requires OpenBatch(Scan(w, s, ids).0, due) && TickRaises(Scan(w, s, ids).0, t, due)
    requires s.now <= t.now < s.now + CUSTOMER_LOCK_TTL && |w.journeys| <= n < |Scan(w, s, ids).0.journeys|
    ensures var scanned, r := Scan(w, s, ids).0, Cycle(w, s, ids, t, due).w;
            && r.journeys == w.journeys && r.events == w.events
            && (LockedOut(r, scanned.journeys[n].customer, s.now + CUSTOMER_LOCK_TTL)
                <==> !ClosedBeforeRaise(scanned, t, due, n))
  {
    var scanned, reached := CycleReaches(w, s, ids, t, due);
    ScannedLocks(w, s, ids);
    assert JustStarted(scanned.journeys[n], s.now);
    LocksAfterTickBody(scanned, t, due, n);
    TickBodyShrinksLocks(scanned, t, due);
    assert LockOk(scanned, scanned.journeys[n].customer);
    assert HoldsLock(scanned, n);
  }

  lemma ScannedLocks(w: World, s: ScanEnv, ids: seq<EventId>)
    requires Inv(w) && LockInv(w) && FreshBatch(w, ids) && w.clock <= s.now && LocksLive(w, s.now)
    ensures LockInv(Scan(w, s, ids).0) && Scan(w, s, ids).0.clock == s.now
  {
    OrderIsResting(w);
    LiveIsGuarded(w, s.now);
    GuardedClaims(w, s, ids);
    ScanIsSound(w, s, ids);
    var w0 := w.(clock := s.now);
    SameOwners(w, w0);
    ClockKeepsGuards(w, s, ids);
    ScanAllIsSound(w0, s, ids);
  }

  /** Every stored lock names an open journey of its customer after a round that raised, exactly when the
      round had closed every journey it had opened. */
  lemma CycleKeepsLocksSoundIff(w: World, s: ScanEnv, ids: seq<EventId>, t: TickEnv, due: seq<JourneyId>)
    requires Inv(w) && LockInv(w) && FreshBatch(w, ids) && w.clock <= s.now && LocksLive(w, s.now)
    requires OpenBatch(Scan(w, s, ids).0, due) && TickRaises(Scan(w, s, ids).0, t, due)
    requires s.now <= t.now < s.now + CUSTOMER_LOCK_TTL
    ensures var scanned := Scan(w, s, ids).0;
            LocksSound(Cycle(w, s, ids, t, due).w) <==>
            forall n :: |w.journeys| <= n < |scanned.journeys| ==> ClosedBeforeRaise(scanned, t, due, n)
  {
    var scanned, r := Scan(w, s, ids).0, Cycle(w, s, ids, t, due).w;
    forall n | |w.journeys| <= n < |scanned.journeys|
      ensures LockedOut(r, scanned.journeys[n].customer, s.now + CUSTOMER_LOCK_TTL)
              <==> !ClosedBeforeRaise(scanned, t, due, n)
    {
      CycleLocksOutIff(w, s, ids, t, due, n);
    }
    if n :| |w.journeys| <= n < |scanned.journeys| && !ClosedBeforeRaise(scanned, t, due, n) {
      assert !LockOk(r, scanned.journeys[n].customer);
    } else {
      CycleShrinksLocks(w, s, ids, t, due);
      LocksFit(w, scanned, r, s.now);
    }
  }

  /** A lock that is still stored names a journey from before the scan, or one the scan has opened. */
  lemma StoredLock(w: World, scanned: World, r: World, customer: CustomerId, now: Time)
    requires Grew(w, scanned, now) && r.journeys == w.journeys
    requires LockOk(scanned, customer) && LocksShrink(scanned.keys, r.keys)
    ensures LockOk(r, customer)
            || exists n :: |w.journeys| <= n < |scanned.journeys| && scanned.journeys[n].customer == customer
                           && LockedOut(r, customer, now + CUSTOMER_LOCK_TTL)
  {
    if CustomerLock(customer) in r.keys {
      var n := scanned.keys[CustomerLock(customer)].value.journey;
      if n >= |w.journeys| {
        assert JustStarted(scanned.journeys[n], now);
        assert LockedOut(r, scanned.journeys[n].customer, now + CUSTOMER_LOCK_TTL);
      }
    }
  }

  lemma CycleShrinksLocks(w: World, s: ScanEnv, ids: seq<EventId>, t: TickEnv, due: seq<JourneyId>)
    requires Inv(w) && LockInv(w) && FreshBatch(w, ids) && w.clock <= s.now && LocksLive(w, s.now)
    requires OpenBatch(Scan(w, s, ids).0, due) && TickRaises(Scan(w, s, ids).0, t, due)
    ensures var scanned, r := Scan(w, s, ids).0, Cycle(w, s, ids, t, due).w;
            && Grew(w, scanned, s.now) && LocksSound(scanned)
            && LocksShrink(scanned.keys, r.keys) && r.journeys == w.journeys
  {
    var scanned, reached := CycleReaches(w, s, ids, t, due);
    ScannedLocks(w, s, ids);
    TickBodyShrinksLocks(scanned, t, due);
  }

  lemma LocksFit(w: World, scanned: World, r: World, now: Time)
    requires LocksSound(w) && LocksSound(scanned) && Grew(w, scanned, now)
    requires r.journeys == w.journeys && LocksShrink(scanned.keys, r.keys)
    requires forall n :: |w.journeys| <= n < |scanned.journeys| ==>
               !LockedOut(r, scanned.journeys[n].customer, now + CUSTOMER_LOCK_TTL)
    ensures LocksSound(r)
  {
    forall customer ensures LockOk(r, customer) { StoredLock(w, scanned, r, customer, now); }
  }

  /** Nobody works for a customer who is locked out, however often events of theirs are scanned, until
      the lock has run out; then the next scan opens a journey. */
  lemma LockedOutWaits(w: World, customer: CustomerId, until: Time, s: ScanEnv, e: EventId)
    requires LockedOut(w, customer, until) && FreshEvent(w, e) && Scannable(w, s, e) && ReachesClaim(w, s, e)
    requires w.events[e].customer == customer
    ensures ScanOne(w, s, e).1 == (if s.now < until then Collision else Started(|w.journeys|))
    ensures s.now < until ==> ScanOne(w, s, e).0.journeys == w.journeys
  {
    AssessedPlanOk(w, s, e);
    var d := Diagnosed(w.events[e], s.facts[e]);
    StartFinds(w, s, e, d, Assess(w, s, e));
    var j := ClaimAndStartShape(w, s, e, d, Assess(w, s, e));
  }
}
