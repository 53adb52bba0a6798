/** Collision freedom: one open journey per customer, and the customer lock that stands for it. */
module Locks {
  import opened Domain
  import opened Rows
  import opened Policy
  import opened Decision
  import opened Journey
  import opened Gateway
  import opened Ledger
  import opened Recovery
  import opened RecoveryProofs
  import opened TurnShape
  import opened Orchestrator
  import opened Safety
  import opened Operations
  import KeyStore

  // ----------------------------------------------------------------------- invariant

  /** A lock in the store belongs to an open journey of that customer and runs out a full time
      to live after that journey was opened. */
  predicate LockOk(w: World, customer: CustomerId) {
    var lock := CustomerLock(customer);
    lock in w.keys ==>
      && w.keys[lock].value.ByJourney?
      && var id := w.keys[lock].value.journey;
         id < |w.journeys| && Open(w.journeys[id]) && w.journeys[id].customer == customer
         && w.keys[lock].expiresAt == LockEnd(w.journeys[id])
  }

  function LockEnd(j: Journey): Time { j.createdAt + CUSTOMER_LOCK_TTL }

  predicate HoldsLock(w: World, id: JourneyId)
    requires id < |w.journeys|
  {
    var lock := CustomerLock(w.journeys[id].customer);
    lock in w.keys && w.keys[lock].value == ByJourney(id)
  }

  /** No two open journeys share a customer. */
  predicate OneOwner(w: World) {
    forall i, k :: 0 <= i < k < |w.journeys| && Open(w.journeys[i]) && Open(w.journeys[k]) ==>
      w.journeys[i].customer != w.journeys[k].customer
  }

  /** What no operation breaks, not even one that raised: stored locks are held by open journeys of
      their customers, and no customer has two. */
  ghost predicate LocksSound(w: World) {
    (forall customer :: LockOk(w, customer)) && OneOwner(w)
  }

  /** Every open journey whose lock has time left still holds it. */
  predicate LocksKept(w: World) {
    forall id :: 0 <= id < |w.journeys| && Open(w.journeys[id]) && LockEnd(w.journeys[id]) > w.clock ==>
      HoldsLock(w, id)
  }

  ghost predicate LockInv(w: World) {
    LocksSound(w) && LocksKept(w)
  }

  /** No open journey has outlived its customer lock. */
  predicate LocksLive(w: World, now: Time) {
    forall id :: 0 <= id < |w.journeys| && Open(w.journeys[id]) ==> LockEnd(w.journeys[id]) > now
  }

  /** While no open journey has outlived its lock, the store holds the lock of a customer exactly
      when the customer has an open journey, and it names that journey. */
  lemma LockedIffOpen(w: World, id: JourneyId)
    requires LockInv(w) && LocksLive(w, w.clock) && id < |w.journeys|
    ensures Open(w.journeys[id]) <==> HoldsLock(w, id)
    ensures forall customer :: CustomerLock(customer) in w.keys ==>
              exists k :: 0 <= k < |w.journeys| && Open(w.journeys[k]) && w.journeys[k].customer == customer
  {
    assert LockOk(w, w.journeys[id].customer);
    forall customer | CustomerLock(customer) in w.keys
      ensures exists k :: 0 <= k < |w.journeys| && Open(w.journeys[k]) && w.journeys[k].customer == customer
    {
      assert LockOk(w, customer);
    }
  }

  /** No open journey of this customer still counts on the lock. */
  predicate NeedsNoLock(w: World, customer: CustomerId) {
    forall id :: 0 <= id < |w.journeys| && Open(w.journeys[id]) && w.journeys[id].customer == customer ==>
      LockEnd(w.journeys[id]) <= w.clock
  }

  // ------------------------------------------------------------ changes of one journey

  predicate SameLock(keys: Keys, keys': Keys, customer: CustomerId, now: Time) {
    var lock := CustomerLock(customer);
    && (lock in keys' ==> lock in keys && keys'[lock] == keys[lock])
    && (lock in keys && keys[lock].expiresAt > now ==> lock in keys')
  }

  /** Journey `id` changes. Its customer's lock goes exactly when the journey stops being open;
      no other lock that has not expired is touched. */
  ghost predicate LockStep(w: World, w': World, id: JourneyId) {
    && id < |w.journeys| == |w'.journeys| && w'.clock == w.clock
    && (forall k :: 0 <= k < |w.journeys| && k != id ==> w'.journeys[k] == w.journeys[k])
    && var j, j' := w.journeys[id], w'.journeys[id];
       && SameJourney(j, j')
       && (forall customer :: customer != j.customer ==> SameLock(w.keys, w'.keys, customer, w.clock))
       && (if Open(j) == Open(j') then SameLock(w.keys, w'.keys, j.customer, w.clock)
           else Open(j) && CustomerLock(j.customer) !in w'.keys)
  }

  lemma LockStepKeepsLocks(w: World, w': World, id: JourneyId)
    requires LockInv(w) && LockStep(w, w', id)
    ensures LockInv(w')
  {
    forall customer ensures LockOk(w', customer) {
      assert LockOk(w, customer);
      assert customer != w.journeys[id].customer ==> SameLock(w.keys, w'.keys, customer, w.clock);
    }
    forall k | 0 <= k < |w'.journeys| && Open(w'.journeys[k]) && LockEnd(w'.journeys[k]) > w'.clock
      ensures HoldsLock(w', k)
    {
      assert HoldsLock(w, k);
      var customer := w.journeys[k].customer;
      assert LockOk(w, customer);
      assert customer != w.journeys[id].customer ==> SameLock(w.keys, w'.keys, customer, w.clock);
    }
  }

  /** Time alone changes nothing: locks only run out. */
  lemma ClockKeepsLocks(w: World, now: Time)
    requires LockInv(w) && w.clock <= now
    ensures LockInv(w.(clock := now))
  {
    var w' := w.(clock := now);
    forall customer ensures LockOk(w', customer) { assert LockOk(w, customer); }
    forall id | 0 <= id < |w'.journeys| && Open(w'.journeys[id]) && LockEnd(w'.journeys[id]) > now
      ensures HoldsLock(w', id)
    {
      assert HoldsLock(w, id);
    }
  }

  // --------------------------------------------------------------------------- ticks

  lemma TurnLockStep(w: World, t: TickEnv, id: JourneyId, c': Cell)
    requires Inv(w) && RowsExist(w, id) && Open(w.journeys[id]) && w.clock == t.now
    requires CellOk(id, c') && Footprint(CellOf(w, id), c', TurnEnv(w, t, id))
    ensures LockStep(w, WithCell(w, id, c'), id)
  {
    var c := CellOf(w, id);
    assert StoreStep(c, c', Last(c.j).key, t.now);
  }

  lemma AdvanceOneKeepsLocks(w: World, t: TickEnv, id: JourneyId)
    requires Inv(w) && LockInv(w) && id < |w.journeys| && Open(w.journeys[id]) && w.clock == t.now
    requires !AdvanceOne(w, t, id).raised
    ensures LockInv(AdvanceOne(w, t, id).w)
  {
    assert EventRowOk(w, w.events[w.journeys[id].event]);
    assert JourneyOk(w, id);
    AdvanceRests(CellOf(w, id), TurnEnv(w, t, id));
    var c' := Advance(CellOf(w, id), TurnEnv(w, t, id)).value;
    TurnLockStep(w, t, id, c');
    LockStepKeepsLocks(w, WithCell(w, id, c'), id);
  }

  lemma {:induction false} AdvanceAllKeepsLocks(w: World, t: TickEnv, ids: seq<JourneyId>)
    requires Inv(w) && LockInv(w) && OpenBatch(w, ids) && w.clock == t.now
    requires !AdvanceAll(w, t, ids).raised
    ensures Inv(AdvanceAll(w, t, ids).w) && LockInv(AdvanceAll(w, t, ids).w)
    ensures AdvanceAll(w, t, ids).w.clock == w.clock
    decreases |ids|
  {
    if ids != [] {
      AdvanceOneKeepsInv(w, t, ids[0]);
      AdvanceOneKeepsLocks(w, t, ids[0]);
      AdvanceOneFrame(w, t, ids[0]);
      var w' := AdvanceOne(w, t, ids[0]).w;
      assert forall i :: 0 <= i < |ids[1..]| ==> ids[1..][i] == ids[i + 1];
      AdvanceAllKeepsLocks(w', t, ids[1..]);
    }
  }

  lemma RowLockStep(w: World, id: JourneyId, c': Cell)
    requires Inv(w) && RowsExist(w, id) && RowStep(CellOf(w, id), c')
    requires if Open(c'.j) == Open(w.journeys[id]) then c'.keys == w.keys
             else Open(w.journeys[id]) && c'.keys == KeyStore.Delete(w.keys, CustomerLock(w.journeys[id].customer))
    ensures LockStep(w, WithCell(w, id, c'), id)
  {
  }

  lemma ExpireOneKeepsLocks(w: World, t: TickEnv, id: JourneyId)
    requires Inv(w) && LockInv(w) && id < |w.journeys| && Open(w.journeys[id]) && !ExpireOne(w, t, id).raised
    ensures LockInv(ExpireOne(w, t, id).w)
  {
    assert EventRowOk(w, w.events[w.journeys[id].event]);
    assert JourneyOk(w, id);
    ExpireRests(id, CellOf(w, id), t.now);
    var c' := ExpireCell(CellOf(w, id), t.now).value;
    RowLockStep(w, id, c');
    LockStepKeepsLocks(w, WithCell(w, id, c'), id);
  }

  lemma {:induction false} ExpireKeepsLocks(w: World, t: TickEnv, from: nat)
    requires Inv(w) && LockInv(w) && !ExpireFrom(w, t, from).raised
    ensures LockInv(ExpireFrom(w, t, from).w)
    decreases |w.journeys| - from
  {
    if from < |w.journeys| {
      if Stale(w.journeys[from], t) {
        ExpireOneKeepsInv(w, t, from);
        ExpireOneKeepsLocks(w, t, from);
        ExpireKeepsLocks(ExpireOne(w, t, from).w, t, from + 1);
      } else {
        ExpireKeepsLocks(w, t, from + 1);
      }
    }
  }

  /** Locks and journeys are all this invariant reads. */
  lemma SameLocks(w: World, w': World)
    requires LockInv(w) && w'.journeys == w.journeys && w'.keys == w.keys && w'.clock == w.clock
    ensures LockInv(w')
  {
    forall customer ensures LockOk(w', customer) { assert LockOk(w, customer); }
    forall id | 0 <= id < |w'.journeys| && Open(w'.journeys[id]) && LockEnd(w'.journeys[id]) > w'.clock
      ensures HoldsLock(w', id)
    {
      assert HoldsLock(w, id);
    }
  }

  lemma TickKeepsLocks(w: World, t: TickEnv, due: seq<JourneyId>)
    requires Inv(w) && LockInv(w) && OpenBatch(w, due) && w.clock <= t.now && !Tick(w, t, due).raised
    ensures LockInv(Tick(w, t, due).w)
  {
    ClockIsFree(w, t.now);
    ClockKeepsLocks(w, t.now);
    if t.spec.automationEnabled {
      var w0 := w.(clock := t.now);
      AdvanceAllKeepsLocks(w0, t, due);
      var w1 := AdvanceAll(w0, t, due).w;
      SettleKeepsInv(w1, t, 0);
      SameLocks(w1, SettleFrom(w1, t, 0));
      ExpireKeepsLocks(SettleFrom(w1, t, 0), t, 0);
    }
  }

  // ---------------------------------------------------------------- any book, any operation

  /** The states journeys are left in between operations. */
  predicate Resting(w: World) {
    forall id :: 0 <= id < |w.journeys| ==> StateOk(w.journeys[id])
  }

  /** Locks are only dropped. */
  ghost predicate LocksShrink(keys: Keys, keys': Keys) {
    forall customer :: var lock := CustomerLock(customer);
      lock in keys' ==> lock in keys && keys'[lock] == keys[lock]
  }

  /** One journey changes, its lock goes if it closes, and no lock is added. */
  ghost predicate SoundStep(w: World, w': World, id: JourneyId) {
    && id < |w.journeys| == |w'.journeys|
    && (forall k :: 0 <= k < |w.journeys| && k != id ==> w'.journeys[k] == w.journeys[k])
    && var j, j' := w.journeys[id], w'.journeys[id];
       && SameJourney(j, j') && StateOk(j') && (Open(j') ==> Open(j))
       && (Open(j) && !Open(j') ==> CustomerLock(j.customer) !in w'.keys)
       && LocksShrink(w.keys, w'.keys)
  }

  lemma SoundStepKeeps(w: World, w': World, id: JourneyId)
    requires LocksSound(w) && Resting(w) && SoundStep(w, w', id)
    ensures LocksSound(w') && Resting(w')
  {
    forall customer ensures LockOk(w', customer) { assert LockOk(w, customer); }
  }

  lemma AdvanceOneIsSound(w: World, t: TickEnv, id: JourneyId)
    requires LocksSound(w) && Resting(w) && id < |w.journeys| && Open(w.journeys[id])
    ensures var w' := AdvanceOne(w, t, id).w;
            LocksSound(w') && Resting(w') && LocksShrink(w.keys, w'.keys)
  {
    if RowsExist(w, id) && Advance(CellOf(w, id), TurnEnv(w, t, id)).Some? {
      var c, env := CellOf(w, id), TurnEnv(w, t, id);
      AnyTurnRaisesIff(c, env);
      if c.j.actions != [] { AnyTurnKeeps(c, env); }
      SoundStepKeeps(w, AdvanceOne(w, t, id).w, id);
    }
  }

  lemma {:induction false} AdvanceAllIsSound(w: World, t: TickEnv, ids: seq<JourneyId>)
    requires LocksSound(w) && Resting(w) && OpenBatch(w, ids)
    ensures var w' := AdvanceAll(w, t, ids).w;
            LocksSound(w') && Resting(w') && LocksShrink(w.keys, w'.keys)
    decreases |ids|
  {
    if ids != [] {
      AdvanceOneIsSound(w, t, ids[0]);
      AdvanceOneFrame(w, t, ids[0]);
      if !AdvanceOne(w, t, ids[0]).raised {
        assert forall i :: 0 <= i < |ids[1..]| ==> ids[1..][i] == ids[i + 1];
        AdvanceAllIsSound(AdvanceOne(w, t, ids[0]).w, t, ids[1..]);
      }
    }
  }

  lemma ExpireOneIsSound(w: World, t: TickEnv, id: JourneyId)
    requires LocksSound(w) && Resting(w) && id < |w.journeys| && Open(w.journeys[id])
    ensures var w' := ExpireOne(w, t, id).w;
            LocksSound(w') && Resting(w') && LocksShrink(w.keys, w'.keys)
  {
    if RowsExist(w, id) && ExpireCell(CellOf(w, id), t.now).Some? {
      SoundStepKeeps(w, ExpireOne(w, t, id).w, id);
    }
  }

  lemma {:induction false} ExpiryIsSound(w: World, t: TickEnv, from: nat)
    requires LocksSound(w) && Resting(w)
    ensures var w' := ExpireFrom(w, t, from).w;
            LocksSound(w') && Resting(w') && LocksShrink(w.keys, w'.keys)
    decreases |w.journeys| - from
  {
    if from < |w.journeys| {
      if Stale(w.journeys[from], t) {
        ExpireOneIsSound(w, t, from);
        var r := ExpireOne(w, t, from);
        if !r.raised && |r.w.journeys| == |w.journeys| { ExpiryIsSound(r.w, t, from + 1); }
      } else {
        ExpiryIsSound(w, t, from + 1);
      }
    }
  }

  /** Other rows, the clock and the trace do not matter. */
  lemma SameOwners(w: World, w': World)
    requires LocksSound(w) && Resting(w) && w'.journeys == w.journeys && LocksShrink(w.keys, w'.keys)
    ensures LocksSound(w') && Resting(w')
  {
    forall customer ensures LockOk(w', customer) { assert LockOk(w, customer); }
  }

  /** A tick keeps the locks sound whether it raises or not: a rollback brings journeys back, but
      no lock. */
  lemma TickIsSound(w: World, t: TickEnv, due: seq<JourneyId>)
    requires LocksSound(w) && Resting(w) && OpenBatch(w, due)
    ensures LocksSound(Tick(w, t, due).w) && Resting(Tick(w, t, due).w)
  {
    var w0 := w.(clock := t.now);
    SameOwners(w, w0);
    if t.spec.automationEnabled {
      AdvanceAllIsSound(w0, t, due);
      var w1 := AdvanceAll(w0, t, due).w;
      var w2 := SettleFrom(w1, t, 0);
      SettlingExecutesNothing(w1, t, 0);
      SameOwners(w1, w2);
      ExpiryIsSound(w2, t, 0);
      if Tick(w, t, due).raised { SameOwners(w, Tick(w, t, due).w); }
    }
  }

  // --------------------------------------------------------------------------- scans

  predicate HoldsLiveLock(w: World, id: JourneyId, now: Time)
    requires id < |w.journeys|
  {
    HoldsLock(w, id) && w.keys[CustomerLock(w.journeys[id].customer)].expiresAt > now
  }

  /** Every open journey is protected by its customer's lock. */
  predicate Guarded(w: World, now: Time) {
    forall id :: 0 <= id < |w.journeys| && Open(w.journeys[id]) ==> HoldsLiveLock(w, id, now)
  }

  /** Some open journey of the customer is not protected. */
  predicate Unguarded(w: World, customer: CustomerId, now: Time) {
    exists id :: 0 <= id < |w.journeys| && Open(w.journeys[id]) && w.journeys[id].customer == customer
                 && !HoldsLiveLock(w, id, now)
  }

  predicate Outlived(w: World, customer: CustomerId, now: Time) {
    exists id :: 0 <= id < |w.journeys| && Open(w.journeys[id]) && w.journeys[id].customer == customer
                 && LockEnd(w.journeys[id]) <= now
  }

  /** An open journey of the customer has lost a lock that still had time left. */
  predicate LostLock(w: World, customer: CustomerId, now: Time) {
    exists id :: 0 <= id < |w.journeys| && Open(w.journeys[id]) && w.journeys[id].customer == customer
                 && LockEnd(w.journeys[id]) > now && !HoldsLock(w, id)
  }

  /** An open journey is unprotected because it has outlived its lock or because it has lost it, and
      while locks are kept only because it has outlived it. */
  lemma UnguardedIff(w: World, customer: CustomerId, now: Time)
    requires LocksSound(w)
    ensures Unguarded(w, customer, now) <==> Outlived(w, customer, now) || LostLock(w, customer, now)
    ensures LockInv(w) && w.clock <= now ==> !LostLock(w, customer, now)
  {
    assert LockOk(w, customer);
    if Outlived(w, customer, now) {
      var id :| 0 <= id < |w.journeys| && Open(w.journeys[id]) && w.journeys[id].customer == customer
                && LockEnd(w.journeys[id]) <= now;
      assert !HoldsLiveLock(w, id, now);
    }
    if LostLock(w, customer, now) {
      var id :| 0 <= id < |w.journeys| && Open(w.journeys[id]) && w.journeys[id].customer == customer
                && LockEnd(w.journeys[id]) > now && !HoldsLock(w, id);
      assert !HoldsLiveLock(w, id, now);
    }
    if Unguarded(w, customer, now) {
      var id :| 0 <= id < |w.journeys| && Open(w.journeys[id]) && w.journeys[id].customer == customer
                && !HoldsLiveLock(w, id, now);
      assert HoldsLock(w, id) ==> w.keys[CustomerLock(customer)].expiresAt == LockEnd(w.journeys[id]);
    }
  }

  /** While no open journey has outlived its lock and none has lost it, all are protected. */
  lemma LiveIsGuarded(w: World, now: Time)
    requires LockInv(w) && w.clock <= now && LocksLive(w, now)
    ensures Guarded(w, now)
  {
    forall id | 0 <= id < |w.journeys| && Open(w.journeys[id]) ensures HoldsLiveLock(w, id, now) {
      assert LockOk(w, w.journeys[id].customer);
    }
  }

  lemma GuardedIsKept(w: World)
    requires LocksSound(w) && Guarded(w, w.clock)
    ensures LockInv(w)
  {
    forall id | 0 <= id < |w.journeys| && Open(w.journeys[id]) && LockEnd(w.journeys[id]) > w.clock
      ensures HoldsLock(w, id)
    {
      assert HoldsLiveLock(w, id, w.clock);
    }
  }

  /** What was protected stays protected, and so is what is new. */
  predicate KeepsProtection(w: World, w': World, now: Time) {
    && |w.journeys| <= |w'.journeys| && w'.journeys[..|w.journeys|] == w.journeys
    && (forall id :: 0 <= id < |w.journeys| && HoldsLiveLock(w, id, now) ==> HoldsLiveLock(w', id, now))
    && (forall id :: |w.journeys| <= id < |w'.journeys| ==> HoldsLiveLock(w', id, now))
  }

  lemma ProtectionLasts(w: World, w': World, customer: CustomerId, now: Time)
    requires KeepsProtection(w, w', now)
    ensures Unguarded(w', customer, now) ==> Unguarded(w, customer, now)
    ensures Guarded(w, now) ==> Guarded(w', now)
  {
    forall id | 0 <= id < |w'.journeys| && Open(w'.journeys[id]) && !HoldsLiveLock(w', id, now)
      ensures id < |w.journeys| && w.journeys[id] == w'.journeys[id] && !HoldsLiveLock(w, id, now)
    {
      if id < |w.journeys| { assert w'.journeys[..|w.journeys|][id] == w.journeys[id]; }
    }
  }

  predicate HasLiveOwner(w: World, customer: CustomerId, now: Time) {
    exists id :: 0 <= id < |w.journeys| && Open(w.journeys[id]) && w.journeys[id].customer == customer
                 && HoldsLiveLock(w, id, now)
  }

  /** A scan of this event gets as far as the claim on the customer. */
  predicate ReachesClaim(w: World, s: ScanEnv, id: EventId)
    requires Scannable(w, s, id)
  {
    && WorthPursuing(w.events[id], w.customers[w.events[id].customer], s.spec)
    && w.events[id].cohort == Treatment
    && Assess(w, s, id).chosen.action != DoNothing && Assess(w, s, id).chosen.verdict != Block
  }

  function Claim(keys: Keys, customer: CustomerId, now: Time): (Keys, bool) {
    KeyStore.SetIfAbsent(keys, CustomerLock(customer), PendingOwner, CUSTOMER_LOCK_TTL, now)
  }

  /** The claim fails exactly when an open journey of the customer holds a live lock. */
  lemma ClaimedIff(w: World, customer: CustomerId, now: Time)
    requires LocksSound(w)
    ensures Claim(w.keys, customer, now).1 <==> !HasLiveOwner(w, customer, now)
  {
    assert LockOk(w, customer);
    if HasLiveOwner(w, customer, now) {
      var id :| 0 <= id < |w.journeys| && Open(w.journeys[id]) && w.journeys[id].customer == customer
                && HoldsLiveLock(w, id, now);
      assert CustomerLock(w.journeys[id].customer) == CustomerLock(customer);
    }
    var lock := CustomerLock(customer);
    if lock in w.keys && w.keys[lock].expiresAt > now {
      assert HoldsLiveLock(w, w.keys[lock].value.journey, now);
    }
  }

  /** What the claim makes of the world: nothing, or one more journey, opened now. */
  lemma ClaimAndStartShape(w: World, s: ScanEnv, id: EventId, e: Event, outcome: Outcome) returns (j: Journey)
    requires FreshEvent(w, id) && Scannable(w, s, id) && PlanOk(outcome.plan)
    ensures var r := Claim(w.keys, e.customer, s.now);
            var w' := ClaimAndStart(w, s, id, e, outcome).0;
            if r.1 then
              && w'.journeys == w.journeys + [j] && JourneyIsNew(|w.journeys|, id, e.(status := InRecovery), outcome.plan, j)
              && j.createdAt == s.now && j.customer == e.customer
              && w'.keys == ClaimedKeys(r.0, e.customer, |w.journeys|, s.now)
              && w' == w.(events := w.events[id := e.(status := InRecovery)], journeys := w'.journeys, keys := w'.keys)
            else
              w' == w.(events := w.events[id := e], keys := KeyStore.Get(r.0, CustomerLock(e.customer), s.now).0)
  {
    var recovering := e.(status := InRecovery);
    var discount := OptionDiscount(outcome.options, outcome.plan[0].action);
    OpenedJourneyIsNew(w, s, id, recovering, outcome.plan, discount);
    j := OpenedJourney(w, s, id, recovering, outcome.plan, discount).value;
  }

  /** The world after a journey was opened for a customer whose claim succeeded. */
  lemma OpeningIsSound(w: World, w': World, j: Journey, now: Time)
    requires LocksSound(w) && Resting(w) && w'.journeys == w.journeys + [j]
    requires Open(j) && StateOk(j) && j.createdAt == now
    requires forall id :: 0 <= id < |w.journeys| && Open(w.journeys[id]) ==> w.journeys[id].customer != j.customer
    requires w'.keys == ClaimedKeys(Claim(w.keys, j.customer, now).0, j.customer, |w.journeys|, now)
    ensures LocksSound(w') && Resting(w') && KeepsProtection(w, w', now)
  {
    forall customer ensures LockOk(w', customer) { assert LockOk(w, customer); }
    forall id | 0 <= id < |w.journeys| && HoldsLiveLock(w, id, now) ensures HoldsLiveLock(w', id, now) {
      assert LockOk(w, w.journeys[id].customer);
    }
  }

  /** Purging what has expired keeps the locks of everybody else. */
  lemma PurgeIsSound(w: World, w': World, customer: CustomerId, now: Time)
    requires LocksSound(w) && Resting(w) && w'.journeys == w.journeys
    requires var r := Claim(w.keys, customer, now);
             !r.1 && w'.keys == KeyStore.Get(r.0, CustomerLock(customer), now).0
    ensures LocksSound(w') && Resting(w') && KeepsProtection(w, w', now)
  {
    SameOwners(w, w');
  }

  lemma OnlyOwner(w: World, i: JourneyId, k: JourneyId)
    requires OneOwner(w) && i < |w.journeys| && k < |w.journeys|
    requires Open(w.journeys[i]) && Open(w.journeys[k]) && w.journeys[i].customer == w.journeys[k].customer
    ensures i == k
  {
  }

  lemma HolderIsOnly(w: World, customer: CustomerId, now: Time)
    requires LocksSound(w) && HasLiveOwner(w, customer, now)
    ensures !Unguarded(w, customer, now)
  {
    var i: JourneyId :| i < |w.journeys| && Open(w.journeys[i]) && w.journeys[i].customer == customer
                        && HoldsLiveLock(w, i, now);
    forall k: JourneyId | k < |w.journeys| && Open(w.journeys[k]) && w.journeys[k].customer == customer
      ensures HoldsLiveLock(w, k, now)
    {
      OnlyOwner(w, i, k);
    }
  }

  /** A scan that reaches the claim leaves two open journeys with one customer exactly when the
      customer has an open journey that no live lock protects; otherwise it keeps the locks sound. */
  lemma SecondOwnerIff(w: World, s: ScanEnv, id: EventId)
    requires LocksSound(w) && Resting(w) && FreshEvent(w, id) && Scannable(w, s, id) && ReachesClaim(w, s, id)
    ensures var w', customer := ScanOne(w, s, id).0, w.events[id].customer;
            && (OneOwner(w') <==> !Unguarded(w, customer, s.now))
            && (!Unguarded(w, customer, s.now) ==>
                  LocksSound(w') && Resting(w') && KeepsProtection(w, w', s.now))
  {
    var d := Diagnosed(w.events[id], s.facts[id]);
    AssessedPlanOk(w, s, id);
    var j := ClaimAndStartShape(w, s, id, d, Assess(w, s, id));
    var w' := ScanOne(w, s, id).0;
    var customer := d.customer;
    ClaimedIff(w, customer, s.now);
    if HasLiveOwner(w, customer, s.now) {
      PurgeIsSound(w, w', customer, s.now);
      HolderIsOnly(w, customer, s.now);
    } else if Unguarded(w, customer, s.now) {
      var k :| 0 <= k < |w.journeys| && Open(w.journeys[k]) && w.journeys[k].customer == customer;
      assert w'.journeys[k] == w.journeys[k] && w'.journeys[|w.journeys|] == j;
    } else {
      OpeningIsSound(w, w', j, s.now);
    }
  }

  /** What a scan leaves an event in. */
  function StatusAfterScan(f: Finding): EventStatus {
    match f
    case Started(_) => InRecovery
    case HeldOut | Collision => AtRisk
    case NotWorthIt | NothingToDo | Gated => Suppressed
  }

  /** A scan opens exactly one journey for an event that reaches the claim while nobody owns its
      customer, and none otherwise; the finding says so, and the event's status follows the finding. */
  lemma ScanFinds(w: World, s: ScanEnv, id: EventId)
    requires LocksSound(w) && FreshEvent(w, id) && Scannable(w, s, id)
    ensures var (w', f) := ScanOne(w, s, id);
            var owned := HasLiveOwner(w, w.events[id].customer, s.now);
            && (f.Started? <==> ReachesClaim(w, s, id) && !owned)
            && (f.Collision? <==> ReachesClaim(w, s, id) && owned)
            && |w'.journeys| == |w.journeys| + (if f.Started? then 1 else 0)
            && (f.Started? ==> f.journey == |w.journeys| && w'.journeys[f.journey].event == id
                               && Open(w'.journeys[f.journey]))
            && w'.events[id].status == StatusAfterScan(f)
  {
    ClaimedIff(w, w.events[id].customer, s.now);
    var outcome := Assess(w, s, id);
    if outcome.chosen.action != DoNothing { AssessedPlanOk(w, s, id); }
    ActOnFinds(w, s, id, Diagnosed(w.events[id], s.facts[id]), outcome);
  }

  lemma ActOnFinds(w: World, s: ScanEnv, id: EventId, d: Event, outcome: Outcome)
    requires FreshEvent(w, id) && Scannable(w, s, id) && d.status == AtRisk
    requires outcome.chosen.action != DoNothing ==> PlanOk(outcome.plan)
    ensures var (w', f) := ActOn(w, s, id, d, outcome);
            var claims := d.cohort == Treatment && outcome.chosen.action != DoNothing && outcome.chosen.verdict != Block;
            var free := Claim(w.keys, d.customer, s.now).1;
            && (f.Started? <==> claims && free) && (f.Collision? <==> claims && !free)
            && |w'.journeys| == |w.journeys| + (if f.Started? then 1 else 0)
            && (f.Started? ==> f.journey == |w.journeys| && w'.journeys[f.journey].event == id
                               && Open(w'.journeys[f.journey]))
            && w'.events[id].status == StatusAfterScan(f)
  {
    if d.cohort == Treatment && outcome.chosen.action != DoNothing && outcome.chosen.verdict != Block {
      StartFinds(w, s, id, d, outcome);
    } else {
      LeavingFinds(w, s, id, d, outcome);
    }
  }

  lemma LeavingFinds(w: World, s: ScanEnv, id: EventId, d: Event, outcome: Outcome)
    requires Scannable(w, s, id) && d.status == AtRisk
    requires outcome.chosen.action != DoNothing ==> outcome.plan != []
    requires d.cohort == Control || outcome.chosen.action == DoNothing || outcome.chosen.verdict == Block
    ensures var (w', f) := ActOn(w, s, id, d, outcome);
            !f.Started? && !f.Collision? && w'.journeys == w.journeys && w'.events[id].status == StatusAfterScan(f)
  {
  }

  lemma StartFinds(w: World, s: ScanEnv, id: EventId, d: Event, outcome: Outcome)
    requires FreshEvent(w, id) && Scannable(w, s, id) && PlanOk(outcome.plan) && d.status == AtRisk
    ensures var (w', f) := ClaimAndStart(w, s, id, d, outcome);
            var claimed := Claim(w.keys, d.customer, s.now).1;
            && f == (if claimed then Started(|w.journeys|) else Collision)
            && |w'.journeys| == |w.journeys| + (if claimed then 1 else 0)
            && (claimed ==> w'.journeys[|w.journeys|].event == id && Open(w'.journeys[|w.journeys|]))
            && w'.events[id].status == (if claimed then InRecovery else AtRisk)
  {
    var j := ClaimAndStartShape(w, s, id, d, outcome);
  }

  /** No scan of these events claims a customer one of whose open journeys is unprotected. */
  predicate ClaimsGuarded(w: World, s: ScanEnv, ids: seq<EventId>) {
    forall i :: 0 <= i < |ids| && Scannable(w, s, ids[i]) && ReachesClaim(w, s, ids[i]) ==>
      !Unguarded(w, w.events[ids[i]].customer, s.now)
  }

  lemma GuardedClaims(w: World, s: ScanEnv, ids: seq<EventId>)
    requires Guarded(w, s.now)
    ensures ClaimsGuarded(w, s, ids)
  {
  }

  lemma ScanOneIsSound(w: World, s: ScanEnv, id: EventId)
    requires LocksSound(w) && Resting(w) && FreshEvent(w, id) && Scannable(w, s, id)
    requires ReachesClaim(w, s, id) ==> !Unguarded(w, w.events[id].customer, s.now)
    ensures var w' := ScanOne(w, s, id).0;
            LocksSound(w') && Resting(w') && KeepsProtection(w, w', s.now)
  {
    if ReachesClaim(w, s, id) { SecondOwnerIff(w, s, id); } else { SameOwners(w, ScanOne(w, s, id).0); }
  }

  /** Whether a scan claims depends on the rows of its event alone. */
  lemma SameClaim(w: World, w': World, s: ScanEnv, k: EventId)
    requires Scannable(w, s, k) && |w'.events| == |w.events| && w'.events[k] == w.events[k]
    requires w'.customers == w.customers && w'.mandates == w.mandates
    ensures Scannable(w', s, k) && (ReachesClaim(w', s, k) <==> ReachesClaim(w, s, k))
  {
    assert ScanBudget(w', w'.events[k], s.spec) == ScanBudget(w, w.events[k], s.spec);
  }

  lemma LaterClaimsGuarded(w: World, w': World, s: ScanEnv, ids: seq<EventId>)
    requires ids != [] && FreshBatch(w, ids) && ClaimsGuarded(w, s, ids)
    requires ScanFrame(w, w', ids[0]) && KeepsProtection(w, w', s.now)
    ensures FreshBatch(w', ids[1..]) && ClaimsGuarded(w', s, ids[1..])
  {
    var rest := ids[1..];
    assert forall i :: 0 <= i < |rest| ==> rest[i] == ids[i + 1];
    forall i | 0 <= i < |rest| && Scannable(w', s, rest[i]) && ReachesClaim(w', s, rest[i])
      ensures !Unguarded(w', w'.events[rest[i]].customer, s.now)
    {
      SameClaim(w, w', s, rest[i]);
      ProtectionLasts(w, w', w.events[rest[i]].customer, s.now);
    }
  }

  lemma {:induction false} ScanAllIsSound(w: World, s: ScanEnv, ids: seq<EventId>)
    requires LocksSound(w) && Resting(w) && FreshBatch(w, ids) && ClaimsGuarded(w, s, ids)
    ensures var w' := ScanAll(w, s, ids).0;
            LocksSound(w') && Resting(w') && w'.clock == w.clock && (Guarded(w, s.now) ==> Guarded(w', s.now))
    decreases |ids|
  {
    if ids != [] {
      assert forall i :: 0 <= i < |ids[1..]| ==> ids[1..][i] == ids[i + 1];
      if Scannable(w, s, ids[0]) {
        var w1 := ScanOne(w, s, ids[0]).0;
        ScanOneIsSound(w, s, ids[0]);
        ScanOneFrame(w, s, ids[0]);
        LaterClaimsGuarded(w, w1, s, ids);
        ProtectionLasts(w, w1, 0, s.now);
        ScanAllIsSound(w1, s, ids[1..]);
      } else {
        ScanAllIsSound(w, s, ids[1..]);
      }
    }
  }

  lemma ClockKeepsGuards(w: World, s: ScanEnv, ids: seq<EventId>)
    ensures var w0 := w.(clock := s.now);
            && (ClaimsGuarded(w, s, ids) ==> ClaimsGuarded(w0, s, ids)) && (Guarded(w, s.now) ==> Guarded(w0, s.now))
  {
    var w0 := w.(clock := s.now);
    forall i | 0 <= i < |ids| && Scannable(w0, s, ids[i]) && ReachesClaim(w0, s, ids[i]) && ClaimsGuarded(w, s, ids)
      ensures !Unguarded(w0, w0.events[ids[i]].customer, s.now)
    {
      SameClaim(w, w0, s, ids[i]);
      SameUnguarded(w, w0, w.events[ids[i]].customer, s.now);
    }
    if Guarded(w, s.now) {
      forall k | 0 <= k < |w0.journeys| && Open(w0.journeys[k]) ensures HoldsLiveLock(w0, k, s.now) {
        assert HoldsLiveLock(w, k, s.now);
      }
    }
  }

  lemma SameUnguarded(w: World, w': World, customer: CustomerId, now: Time)
    requires w'.journeys == w.journeys && w'.keys == w.keys
    ensures Unguarded(w', customer, now) <==> Unguarded(w, customer, now)
  {
    forall id | 0 <= id < |w.journeys| ensures HoldsLiveLock(w', id, now) <==> HoldsLiveLock(w, id, now) {}
  }

  /** A scan that claims nobody with an unprotected journey keeps the locks sound; one that finds every
      open journey protected leaves every open journey protected. */
  lemma ScanIsSound(w: World, s: ScanEnv, ids: seq<EventId>)
    requires LocksSound(w) && Resting(w) && FreshBatch(w, ids) && ClaimsGuarded(w, s, ids)
    ensures var w' := Scan(w, s, ids).0;
            LocksSound(w') && Resting(w') && (Guarded(w, s.now) ==> Guarded(w', s.now) && LockInv(w'))
  {
    var w0 := w.(clock := s.now);
    SameOwners(w, w0);
    ClockKeepsGuards(w, s, ids);
    ScanAllIsSound(w0, s, ids);
    if Guarded(w, s.now) { GuardedIsKept(Scan(w, s, ids).0); }
  }

  // ----------------------------------------------------------------- human decisions

  /** Journeys in order rest between operations. */
  lemma OrderIsResting(w: World)
    requires Inv(w)
    ensures Resting(w)
  {
    forall id | 0 <= id < |w.journeys| ensures StateOk(w.journeys[id]) {
      assert EventRowOk(w, w.events[w.journeys[id].event]);
      assert JourneyOk(w, id);
    }
  }

  lemma ApproveIsSound(w: World, id: JourneyId, now: Time)
    requires LocksSound(w) && Resting(w) && AwaitsApproval(w, id)
    ensures LocksSound(Approve(w, id, now)) && Resting(Approve(w, id, now))
  {
    SoundStepKeeps(w, Approve(w, id, now), id);
  }

  lemma CommandIsSound(c: Cell, command: Command, now: Time)
    requires c.j.actions != [] && StateOk(c.j) && CommandCell(c, command, now).Some?
    ensures var c' := CommandCell(c, command, now).value;
            && SameJourney(c.j, c'.j) && StateOk(c'.j) && (Open(c'.j) ==> Open(c.j)) && LocksShrink(c.keys, c'.keys)
            && (!Open(c'.j) ==> CustomerLock(c.j.customer) !in c'.keys)
  {
    match command
    case Reject =>
    case Stop =>
    case Pause =>
    case Resume =>
  }

  /** So does every command, even a stop of a journey that is closed already. */
  lemma ApplyIsSound(w: World, id: JourneyId, command: Command, now: Time)
    requires LocksSound(w) && Resting(w)
    ensures LocksSound(Apply(w, id, command, now).w) && Resting(Apply(w, id, command, now).w)
  {
    SameOwners(w, w.(clock := now));
    if RowsExist(w, id) && w.journeys[id].actions != [] && CommandCell(CellOf(w, id), command, now).Some? {
      CommandIsSound(CellOf(w, id), command, now);
      SoundStepKeeps(w, Apply(w, id, command, now).w, id);
    }
  }

  lemma ApproveKeepsLocks(w: World, id: JourneyId, now: Time)
    requires Inv(w) && LockInv(w) && AwaitsApproval(w, id) && w.clock <= now
    ensures LockInv(Approve(w, id, now))
  {
    var w1 := w.(journeys := w.journeys[id := ApproveRow(w.journeys[id], now)]);
    LockStepKeepsLocks(w, w1, id);
    ClockKeepsLocks(w1, now);
  }

  lemma ApplyKeepsLocks(w: World, id: JourneyId, command: Command, now: Time)
    requires Inv(w) && LockInv(w) && w.clock <= now && !Apply(w, id, command, now).raised
    requires command == Reject ==> AwaitsApproval(w, id)
    requires command == Stop ==> Open(w.journeys[id])
    ensures LockInv(Apply(w, id, command, now).w)
  {
    assert JourneyOk(w, id);
    CommandRests(id, CellOf(w, id), command, now);
    CommandLock(id, CellOf(w, id), command, now);
    var c' := CommandCell(CellOf(w, id), command, now).value;
    RowLockStep(w, id, c');
    LockStepKeepsLocks(w, WithCell(w, id, c'), id);
    ClockKeepsLocks(WithCell(w, id, c'), now);
  }

  /** A command keeps the customer's lock exactly when the journey stays open. */
  lemma CommandLock(id: JourneyId, c: Cell, command: Command, now: Time)
    requires CellOk(id, c) && CommandCell(c, command, now).Some?
    requires command == Reject ==> Last(c.j).status == AwaitingApproval
    requires command == Stop ==> Open(c.j)
    ensures var c' := CommandCell(c, command, now).value;
            if Open(c'.j) == Open(c.j) then c'.keys == c.keys
            else Open(c.j) && c'.keys == KeyStore.Delete(c.keys, CustomerLock(c.j.customer))
  {
    match command
    case Reject => RejectLock(id, c, now);
    case Stop => StopLock(id, c, now);
    case Pause => PauseLock(id, c, now);
    case Resume => ResumeLock(id, c, now);
  }

  lemma RejectLock(id: JourneyId, c: Cell, now: Time)
    requires CellOk(id, c) && RejectCell(c, now).Some? && Last(c.j).status == AwaitingApproval
    ensures var c' := RejectCell(c, now).value;
            if Open(c'.j) == Open(c.j) then c'.keys == c.keys
            else Open(c.j) && c'.keys == KeyStore.Delete(c.keys, CustomerLock(c.j.customer))
  {
  }

  lemma StopLock(id: JourneyId, c: Cell, now: Time)
    requires CellOk(id, c) && StopCell(c, now).Some? && Open(c.j)
    ensures var c' := StopCell(c, now).value;
            if Open(c'.j) == Open(c.j) then c'.keys == c.keys
            else Open(c.j) && c'.keys == KeyStore.Delete(c.keys, CustomerLock(c.j.customer))
  {
  }

  lemma PauseLock(id: JourneyId, c: Cell, now: Time)
    requires CellOk(id, c) && PauseCell(c, now).Some?
    ensures var c' := PauseCell(c, now).value;
            if Open(c'.j) == Open(c.j) then c'.keys == c.keys
            else Open(c.j) && c'.keys == KeyStore.Delete(c.keys, CustomerLock(c.j.customer))
  {
  }

  lemma ResumeLock(id: JourneyId, c: Cell, now: Time)
    requires CellOk(id, c) && ResumeCell(c, now).Some?
    ensures var c' := ResumeCell(c, now).value;
            if Open(c'.j) == Open(c.j) then c'.keys == c.keys
            else Open(c.j) && c'.keys == KeyStore.Delete(c.keys, CustomerLock(c.j.customer))
  {
  }

  /** Stopping a journey that is already closed drops the lock of its customer, whoever holds
      it. The locks survive exactly when the customer has no open journey that still needs one. */
  lemma StopClosedKeepsLocksIff(w: World, id: JourneyId)
    requires Inv(w) && LockInv(w) && id < |w.journeys| && w.journeys[id].state == Closed
    ensures !Apply(w, id, Stop, w.clock).raised
    ensures LockInv(Apply(w, id, Stop, w.clock).w) <==> NeedsNoLock(w, w.journeys[id].customer)
  {
    assert EventRowOk(w, w.events[w.journeys[id].event]);
    assert JourneyOk(w, id);
    var customer := w.journeys[id].customer;
    var c := CellOf(w, id);
    var c' := c.(keys := KeyStore.Delete(c.keys, CustomerLock(customer)));
    assert StopCell(c, w.clock) == Some(c');
    var w' := Apply(w, id, Stop, w.clock).w;
    assert w'.journeys == w.journeys && w'.keys == c'.keys && w'.clock == w.clock;
    StopClosedLocks(w, w', customer);
  }

  lemma StopClosedLocks(w: World, w': World, customer: CustomerId)
    requires LockInv(w) && w'.journeys == w.journeys && w'.clock == w.clock
    requires w'.keys == KeyStore.Delete(w.keys, CustomerLock(customer))
    ensures LockInv(w') <==> NeedsNoLock(w, customer)
  {
    if LockInv(w') {
      forall k | 0 <= k < |w.journeys| && Open(w.journeys[k]) && w.journeys[k].customer == customer
        ensures LockEnd(w.journeys[k]) <= w.clock
      {
        assert !HoldsLock(w', k);
      }
    }
    if NeedsNoLock(w, customer) {
      forall c ensures LockOk(w', c) { assert LockOk(w, c); }
      forall k | 0 <= k < |w'.journeys| && Open(w'.journeys[k]) && LockEnd(w'.journeys[k]) > w'.clock
        ensures HoldsLock(w', k)
      {
        assert HoldsLock(w, k);
      }
    }
  }

  // ----------------------------------------------------- when locks outlive their journeys

  /** No open journey from row `from` on is past its time to live. */
  predicate NoneStale(w: World, t: TickEnv, from: nat) {
    forall id :: from <= id < |w.journeys| ==> !Stale(w.journeys[id], t)
  }

  lemma ExpireOneCloses(w: World, t: TickEnv, id: JourneyId)
    requires Inv(w) && id < |w.journeys| && Open(w.journeys[id]) && !ExpireOne(w, t, id).raised
    ensures var w' := ExpireOne(w, t, id).w;
            |w'.journeys| == |w.journeys| && w'.clock == w.clock && !Open(w'.journeys[id])
            && (forall k :: 0 <= k < |w.journeys| && k != id ==> w'.journeys[k] == w.journeys[k])
  {
    assert EventRowOk(w, w.events[w.journeys[id].event]);
    assert JourneyOk(w, id);
    ExpireRests(id, CellOf(w, id), t.now);
  }

  lemma {:induction false} ExpireLeavesNoneStale(w: World, t: TickEnv, from: nat)
    requires Inv(w) && !ExpireFrom(w, t, from).raised
    ensures var w' := ExpireFrom(w, t, from).w;
            NoneStale(w', t, from) && |w'.journeys| == |w.journeys| && w'.clock == w.clock
            && (forall id :: 0 <= id < from && id < |w.journeys| ==> w'.journeys[id] == w.journeys[id])
    decreases |w.journeys| - from
  {
    if from < |w.journeys| {
      if Stale(w.journeys[from], t) {
        ExpireOneKeepsInv(w, t, from);
        ExpireOneCloses(w, t, from);
        ExpireLeavesNoneStale(ExpireOne(w, t, from).w, t, from + 1);
      } else {
        ExpireLeavesNoneStale(w, t, from + 1);
      }
    }
  }

  /** Locks outlive journeys as intended when ticks come often enough for the policy: after a
      tick, no lock runs out for as long as the lock exceeds the journey's time to live. */
  lemma TickMakesLocksLive(w: World, t: TickEnv, due: seq<JourneyId>, later: Time)
    requires Inv(w) && OpenBatch(w, due) && !Tick(w, t, due).raised && t.spec.automationEnabled
    requires later - t.now + (t.spec.journeyTtlHours * HOUR as real).Floor < CUSTOMER_LOCK_TTL
    ensures LocksLive(Tick(w, t, due).w, later)
  {
    ClockIsFree(w, t.now);
    var w0 := w.(clock := t.now);
    AdvanceAllKeepsInv(w0, t, due);
    var w1 := AdvanceAll(w0, t, due).w;
    SettleKeepsInv(w1, t, 0);
    ExpireLeavesNoneStale(SettleFrom(w1, t, 0), t, 0);
    var w' := Tick(w, t, due).w;
    forall id | 0 <= id < |w'.journeys| && Open(w'.journeys[id]) ensures LockEnd(w'.journeys[id]) > later {
      assert !Stale(w'.journeys[id], t);
    }
  }
}
