/** What is wrong with a book after a tick that raised: charges that were forgotten go out again, and
    journeys that were brought back have lost their locks. */
module Rollbacks {
  import opened Domain
  import opened Rows
  import opened Policy
  import opened Decision
  import opened Journey
  import opened Gateway
  import opened Ledger
  import opened Recovery
  import opened RecoveryProofs
  import opened TurnShape
  import opened Orchestrator
  import opened Safety
  import opened Operations
  import opened Raises
  import opened Locks
  import KeyStore

  // ------------------------------------------------------------------- the second charge

  /** Nobody but this action can hold the key, whoever else takes a turn. */
  lemma {:induction false} TurnsKeepOwn(w: World, t: TickEnv, ids: seq<JourneyId>, id: JourneyId, key: Key, owner: Owner)
    requires RowsApart(w) && Ready(w, ids) && key.ActionKey? && key.journey == id
    requires id in ids ==> key == Last(w.journeys[id]).key && owner == OwnerOf(w.journeys[id], id)
    requires OwnOrFree(w.keys, key, owner)
    ensures OwnOrFree(AdvanceAll(w, t, ids).w.keys, key, owner)
    decreases |ids|
  {
    if ids != [] {
      assert Ready(w, [ids[0]]);
      TurnOnAnyBook(w, t, ids[0]);
      if !StuckAt(w, t, ids[0]) {
        var w1 := AdvanceOne(w, t, ids[0]).w;
        RestIsReady(w, w1, t, ids);
        assert OwnOrFree(w1.keys, key, owner);
        assert id in ids[1..] ==> id in ids && id != ids[0];
        TurnsKeepOwn(w1, t, ids[1..], id, key, owner);
      }
    }
  }

  lemma {:induction false} ExpiryKeepsOwn(w: World, t: TickEnv, from: nat, key: Key, owner: Owner)
    requires OwnOrFree(w.keys, key, owner)
    ensures OwnOrFree(ExpireFrom(w, t, from).w.keys, key, owner)
    decreases |w.journeys| - from
  {
    if from < |w.journeys| {
      if Stale(w.journeys[from], t) {
        var r := ExpireOne(w, t, from);
        assert OwnOrFree(r.w.keys, key, owner);
        if !r.raised && |r.w.journeys| == |w.journeys| { ExpiryKeepsOwn(r.w, t, from + 1, key, owner); }
      } else {
        ExpiryKeepsOwn(w, t, from + 1, key, owner);
      }
    }
  }

  lemma TickKeepsOwn(w: World, t: TickEnv, due: seq<JourneyId>, id: JourneyId)
    requires RowsApart(w) && Ready(w, due) && id in due
    requires OwnOrFree(w.keys, Last(w.journeys[id]).key, OwnerOf(w.journeys[id], id))
    ensures OwnOrFree(Tick(w, t, due).w.keys, Last(w.journeys[id]).key, OwnerOf(w.journeys[id], id))
  {
    if t.spec.automationEnabled {
      var key, owner := Last(w.journeys[id]).key, OwnerOf(w.journeys[id], id);
      var w0 := w.(clock := t.now);
      ClockKeepsReady(w, due, t.now);
      TurnsKeepOwn(w0, t, due, id, key, owner);
      if !AdvanceAll(w0, t, due).raised {
        var w1 := AdvanceAll(w0, t, due).w;
        SettlingExecutesNothing(w1, t, 0);
        ExpiryKeepsOwn(SettleFrom(w1, t, 0), t, 0, key, owner);
      }
    }
  }

  /** A rollback brings back the rows, so the next tick sees what this one saw. */
  lemma RolledBackIsReady(w: World, r: World, t: TickEnv, ids: seq<JourneyId>)
    requires RowsApart(w) && Ready(w, ids)
    requires r == w.(keys := r.keys, gw := r.gw, trace := r.trace, clock := r.clock)
    ensures RowsApart(r) && Ready(r, ids)
    ensures forall k :: Reached(r, t, ids, k) <==> Reached(w, t, ids, k)
    ensures forall id :: 0 <= id < |w.journeys| ==> SameTurn(w, r, t, id)
  {
    forall id | 0 <= id < |w.journeys| ensures RowsExist(r, id) && SameTurn(w, r, t, id) {
      assert RowsExist(w, id);
      SameRowsSameTurn(w, r, t, id);
    }
    forall i | 0 <= i < |ids| ensures StuckAt(r, t, ids[i]) <==> StuckAt(w, t, ids[i]) {
      assert SameTurn(w, r, t, ids[i]);
    }
  }

  lemma ChargedOnce(w: World, t: TickEnv, due: seq<JourneyId>, id: JourneyId)
    requires Inv(w) && OpenBatch(w, due) && t.spec.automationEnabled && Charged(w, t, due, id)
    ensures id < |w.journeys| && w.journeys[id].actions != [] && id in due
    ensures Sends(w.trace, Tick(w, t, due).w.trace, Last(w.journeys[id]).key)
    ensures OwnOrFree(Tick(w, t, due).w.keys, Last(w.journeys[id]).key, OwnerOf(w.journeys[id], id))
  {
    InOrderIsReady(w, due);
    var k: nat :| k < |due| && due[k] == id && Reached(w, t, due, k) && ChargesAt(w, t, id);
    ChargeIsFree(w, t, id);
    ChargedIsSent(w, t, due, k);
    TickKeepsOwn(w, t, due, id);
  }

  /** The next tick after one that charged a journey and raised charges it again exactly when its
      turn comes up and the gate allows it once more. The reservation does not stop it, because the
      action that holds the key is the very one that is run again. */
  lemma ChargedAgainIff(w: World, t: TickEnv, due: seq<JourneyId>, t2: TickEnv, due2: seq<JourneyId>, id: JourneyId)
    requires Inv(w) && OpenBatch(w, due) && OpenBatch(w, due2) && t2.spec.automationEnabled
    requires TickRaises(w, t, due) && Charged(w, t, due, id)
    ensures id < |w.journeys| && w.journeys[id].actions != []
    ensures var key, w1 := Last(w.journeys[id]).key, Tick(w, t, due).w;
            && Sends(w.trace, w1.trace, key)
            && (Sends(w1.trace, Tick(w1, t2, due2).w.trace, key) <==> Charged(w, t2, due2, id))
  {
    ChargedOnce(w, t, due, id);
    AnyTickRaisesIff(w, t, due);
    var key, w1 := Last(w.journeys[id]).key, Tick(w, t, due).w;
    InOrderIsReady(w, due2);
    RolledBackIsReady(w, w1, t2, due2);
    var trace := Tick(w1, t2, due2).w.trace;
    if Sends(w1.trace, trace, key) {
      var i :| |w1.trace| <= i < |trace| && trace[i].ExecuteCall? && trace[i].key == key;
      var k := SentWasCharged(w1, t2, due2, i);
      LastKeyIsOwn(w, id);
      assert due2[k] == id && SameTurn(w, w1, t2, id);
    }
    if Charged(w, t2, due2, id) {
      var k: nat :| k < |due2| && due2[k] == id && Reached(w, t2, due2, k) && ChargesAt(w, t2, id);
      assert Reached(w1, t2, due2, k) && SameTurn(w, w1, t2, id);
      ChargedIsSent(w1, t2, due2, k);
    }
  }

  /** Two executes carry one key. */
  predicate DoubleCharge(trace: seq<GatewayCall>) {
    exists i, k :: 0 <= i < k < |trace| && trace[i].ExecuteCall? && trace[k].ExecuteCall? && trace[i].key == trace[k].key
  }

  /** If the same journey is charged by a tick that raises and by the one after it, one idempotency
      key has been executed twice. */
  lemma ChargedTwice(w: World, t: TickEnv, due: seq<JourneyId>, t2: TickEnv, due2: seq<JourneyId>, id: JourneyId)
    requires Inv(w) && OpenBatch(w, due) && OpenBatch(w, due2) && t2.spec.automationEnabled
    requires TickRaises(w, t, due) && Charged(w, t, due, id) && Charged(w, t2, due2, id)
    ensures DoubleCharge(Tick(Tick(w, t, due).w, t2, due2).w.trace)
  {
    ChargedAgainIff(w, t, due, t2, due2, id);
    var key, w1 := Last(w.journeys[id]).key, Tick(w, t, due).w;
    var trace := Tick(w1, t2, due2).w.trace;
    AnyTickRaisesIff(w, t, due);
    InOrderIsReady(w, due2);
    RolledBackIsReady(w, w1, t2, due2);
    TickSendsTurns(w1, t2, due2);
    var i :| |w.trace| <= i < |w1.trace| && w1.trace[i].ExecuteCall? && w1.trace[i].key == key;
    var k :| |w1.trace| <= k < |trace| && trace[k].ExecuteCall? && trace[k].key == key;
    assert trace[i] == w1.trace[i];
  }

  // ------------------------------------------------------------------------ lost locks

  predicate ClosesAt(w: World, t: TickEnv, id: JourneyId) {
    RowsExist(w, id) && Closes(CellOf(w, id), TurnEnv(w, t, id))
  }

  function AfterTurnOf(w: World, t: TickEnv, id: JourneyId): World {
    if RowsExist(w, id) then w.(gw := GatewayAfter(CellOf(w, id), TurnEnv(w, t, id))) else w
  }

  /** The journey's turn is taken and ends it, going by the rows before the tick and the faults the
      gateway still has in store when the turn comes. */
  predicate ClosesIn(w: World, t: TickEnv, ids: seq<JourneyId>, id: JourneyId)
    decreases |ids|
  {
    && ids != [] && !StuckAt(w, t, ids[0])
    && (if ids[0] == id then ClosesAt(w, t, id) else ClosesIn(AfterTurnOf(w, t, ids[0]), t, ids[1..], id))
  }

  predicate SameRows(w: World, w': World, ids: seq<JourneyId>) {
    && w'.customers == w.customers && w'.gw == w.gw
    && forall i :: 0 <= i < |ids| ==>
         && RowsExist(w, ids[i]) && RowsExist(w', ids[i]) && w'.journeys[ids[i]] == w.journeys[ids[i]]
         && EventOf(w', ids[i]) == EventOf(w, ids[i])
  }

  lemma SameClosing(w: World, w': World, t: TickEnv, ids: seq<JourneyId>)
    requires SameRows(w, w', ids) && ids != []
    ensures StuckAt(w', t, ids[0]) <==> StuckAt(w, t, ids[0])
    ensures ClosesAt(w', t, ids[0]) <==> ClosesAt(w, t, ids[0])
    ensures SameRows(AfterTurnOf(w, t, ids[0]), AfterTurnOf(w', t, ids[0]), ids[1..])
  {
    var c, c' := CellOf(w, ids[0]), CellOf(w', ids[0]);
    SameRowsSameTurn(w, w', t, ids[0]);
    if c.j.actions != [] {
      SameTarget(c, c', TurnEnv(w, t, ids[0]), TurnEnv(w', t, ids[0]));
      assert Ascertain(c', TurnEnv(w', t, ids[0])).1 == Ascertain(c, TurnEnv(w, t, ids[0])).1;
    }
    var a, b := AfterTurnOf(w, t, ids[0]), AfterTurnOf(w', t, ids[0]);
    forall i | 0 <= i < |ids[1..]|
      ensures RowsExist(a, ids[1..][i]) && RowsExist(b, ids[1..][i]) && b.journeys[ids[1..][i]] == a.journeys[ids[1..][i]]
              && EventOf(b, ids[1..][i]) == EventOf(a, ids[1..][i])
    {
      assert ids[1..][i] == ids[i + 1];
      assert RowsExist(w, ids[i + 1]) && RowsExist(w', ids[i + 1]);
    }
  }

  lemma {:induction false} SameClosings(w: World, w': World, t: TickEnv, ids: seq<JourneyId>, id: JourneyId)
    requires SameRows(w, w', ids)
    ensures ClosesIn(w', t, ids, id) <==> ClosesIn(w, t, ids, id)
    decreases |ids|
  {
    if ids != [] {
      SameClosing(w, w', t, ids);
      SameClosings(AfterTurnOf(w, t, ids[0]), AfterTurnOf(w', t, ids[0]), t, ids[1..], id);
    }
  }

  lemma {:induction false} ClosesOwnTurn(w: World, t: TickEnv, ids: seq<JourneyId>, id: JourneyId)
    ensures ClosesIn(w, t, ids, id) ==> id in ids
    decreases |ids|
  {
    if ids != [] && ids[0] != id { ClosesOwnTurn(AfterTurnOf(w, t, ids[0]), t, ids[1..], id); }
  }

  predicate LockStored(w: World, customer: CustomerId) { CustomerLock(customer) in w.keys }

  lemma FirstTurnCloses(w: World, t: TickEnv, id: JourneyId)
    requires Inv(w) && LockInv(w) && id < |w.journeys| && Open(w.journeys[id]) && w.clock == t.now
    requires !StuckAt(w, t, id)
    ensures !AdvanceOne(w, t, id).raised
    ensures var w' := AdvanceOne(w, t, id).w;
            && Inv(w') && LockInv(w') && w'.clock == w.clock && |w'.journeys| == |w.journeys|
            && w'.journeys[id].createdAt == w.journeys[id].createdAt
            && w'.journeys[id].customer == w.journeys[id].customer
            && (w'.journeys[id].state == Closed <==> ClosesAt(w, t, id))
            && (ClosesAt(w, t, id) ==> !LockStored(w', w.journeys[id].customer))
            && w'.gw == AfterTurnOf(w, t, id).gw
  {
    assert EventRowOk(w, w.events[w.journeys[id].event]);
    assert JourneyOk(w, id);
    var c, env := CellOf(w, id), TurnEnv(w, t, id);
    AnyTurnRaisesIff(c, env);
    AnyTurnKeeps(c, env);
    ClosesIff(c, env);
    AdvanceOneKeepsInv(w, t, id);
    AdvanceOneKeepsLocks(w, t, id);
  }

  lemma RestHasSameRows(w: World, t: TickEnv, ids: seq<JourneyId>)
    requires Inv(w) && OpenBatch(w, ids) && ids != [] && !AdvanceOne(w, t, ids[0]).raised
    requires AdvanceOne(w, t, ids[0]).w.gw == AfterTurnOf(w, t, ids[0]).gw
    ensures OpenBatch(AdvanceOne(w, t, ids[0]).w, ids[1..])
    ensures SameRows(AfterTurnOf(w, t, ids[0]), AdvanceOne(w, t, ids[0]).w, ids[1..])
  {
    var w1, a := AdvanceOne(w, t, ids[0]).w, AfterTurnOf(w, t, ids[0]);
    AdvanceOneFrame(w, t, ids[0]);
    AdvanceOneKeepsInv(w, t, ids[0]);
    forall i | 0 <= i < |ids[1..]|
      ensures var k := ids[1..][i];
              && k < |w1.journeys| && Open(w1.journeys[k])
              && RowsExist(a, k) && RowsExist(w1, k) && w1.journeys[k] == a.journeys[k] && EventOf(w1, k) == EventOf(a, k)
    {
      var k := ids[i + 1];
      assert ids[1..][i] == k && k != ids[0];
      OtherRowsStay(w, t, ids[0], k);
    }
  }

  lemma OtherRowsStay(w: World, t: TickEnv, id: JourneyId, k: JourneyId)
    requires Inv(w) && id < |w.journeys| && Open(w.journeys[id]) && k < |w.journeys| && k != id
    ensures var w1, a := AdvanceOne(w, t, id).w, AfterTurnOf(w, t, id);
            && RowsExist(a, k) && RowsExist(w1, k) && w1.journeys[k] == a.journeys[k] && EventOf(w1, k) == EventOf(a, k)
  {
    assert EventRowOk(w, w.events[w.journeys[id].event]) && EventRowOk(w, w.events[w.journeys[k].event]);
    assert w.journeys[k].event != w.journeys[id].event;
  }

  /** After the turns of a tick, raising or not, a lock that had time left is gone exactly if its
      journey's turn was foreseen to end it. */
  lemma {:induction false} LocksAfterTurns(w: World, t: TickEnv, ids: seq<JourneyId>, id: JourneyId)
    requires Inv(w) && LockInv(w) && OpenBatch(w, ids) && w.clock == t.now
    requires id < |w.journeys| && Open(w.journeys[id]) && LockEnd(w.journeys[id]) > t.now
    ensures LockStored(AdvanceAll(w, t, ids).w, w.journeys[id].customer) <==> !ClosesIn(w, t, ids, id)
    decreases |ids|
  {
    if ids == [] || StuckAt(w, t, ids[0]) {
      assert HoldsLock(w, id);
      if ids != [] { StuckRaises(w, t, ids[0]); }
    } else {
      FirstTurnCloses(w, t, ids[0]);
      RestHasSameRows(w, t, ids);
      var w1, rest := AdvanceOne(w, t, ids[0]).w, ids[1..];
      AdvanceOneFrame(w, t, ids[0]);
      if ids[0] == id && ClosesAt(w, t, id) {
        OrderIsResting(w1);
        AdvanceAllIsSound(w1, t, rest);
      } else {
        if ids[0] == id {
          assert Open(w1.journeys[id]) by { OrderIsResting(w1); assert StateOk(w1.journeys[id]); }
          ClosesOwnTurn(w1, t, rest, id);
        }
        LocksAfterTurns(w1, t, rest, id);
        SameClosings(AfterTurnOf(w, t, ids[0]), w1, t, rest, id);
      }
    }
  }

  lemma StuckRaises(w: World, t: TickEnv, id: JourneyId)
    requires StuckAt(w, t, id)
    ensures AdvanceOne(w, t, id) == Run(w, true)
  {
    AnyTurnRaisesIff(CellOf(w, id), TurnEnv(w, t, id));
  }

  /** Expiry closes the journey: it is stale, and no approved stale one comes first. */
  predicate ExpiresIn(w: World, t: TickEnv, from: nat, id: JourneyId) {
    && from <= id < |w.journeys| && Stale(w.journeys[id], t)
    && forall k :: from <= k <= id ==> !(w.journeys[k].state == JApproved && Stale(w.journeys[k], t))
  }

  /** Closing one expired journey keeps the rest of the book in order and drops its lock. */
  lemma ExpiryStep(w: World, t: TickEnv, from: nat)
    requires Inv(w) && LockInv(w) && from < |w.journeys| && Stale(w.journeys[from], t)
    ensures ExpireOne(w, t, from).raised <==> w.journeys[from].state == JApproved
    ensures ExpireOne(w, t, from).raised ==> ExpireOne(w, t, from).w == w
    ensures !ExpireOne(w, t, from).raised ==>
              var w1 := ExpireOne(w, t, from).w;
              && Inv(w1) && LockInv(w1) && |w1.journeys| == |w.journeys| && w1.clock == w.clock
              && (forall k :: 0 <= k < |w.journeys| && k != from ==> w1.journeys[k] == w.journeys[k])
              && !LockStored(w1, w.journeys[from].customer)
  {
    ExpireOneRaisesIff(w, t, from);
    if !ExpireOne(w, t, from).raised {
      ExpireOneKeepsInv(w, t, from);
      ExpireOneKeepsLocks(w, t, from);
      ExpireOneCloses(w, t, from);
      ExpireOneReleases(w, t, from);
    }
  }

  lemma ExpiresAfterOne(w: World, w1: World, t: TickEnv, from: nat, id: JourneyId)
    requires from < |w.journeys| == |w1.journeys| && id != from && w.journeys[from].state != JApproved
    requires forall k :: 0 <= k < |w.journeys| && k != from ==> w1.journeys[k] == w.journeys[k]
    ensures ExpiresIn(w1, t, from + 1, id) <==> ExpiresIn(w, t, from, id)
  {
  }

  lemma {:induction false} LocksAfterExpiry(w: World, t: TickEnv, from: nat, id: JourneyId)
    requires Inv(w) && LockInv(w) && id < |w.journeys| && Open(w.journeys[id]) && LockEnd(w.journeys[id]) > w.clock
    ensures LockStored(ExpireFrom(w, t, from).w, w.journeys[id].customer) <==> !ExpiresIn(w, t, from, id)
    decreases |w.journeys| - from, 1
  {
    assert HoldsLock(w, id);
    if from < |w.journeys| && Stale(w.journeys[from], t) {
      ExpiryStep(w, t, from);
      if !ExpireOne(w, t, from).raised { LocksAfterOneExpired(w, ExpireOne(w, t, from).w, t, from, id); }
    } else if from < |w.journeys| {
      LocksAfterExpiry(w, t, from + 1, id);
    }
  }

  lemma {:induction false} LocksAfterOneExpired(w: World, w1: World, t: TickEnv, from: nat, id: JourneyId)
    requires LockInv(w1) && Inv(w1) && w1.clock == w.clock && |w1.journeys| == |w.journeys|
    requires from < |w.journeys| && Stale(w.journeys[from], t) && w.journeys[from].state != JApproved
    requires forall k :: 0 <= k < |w.journeys| && k != from ==> w1.journeys[k] == w.journeys[k]
    requires !LockStored(w1, w.journeys[from].customer)
    requires id < |w.journeys| && Open(w.journeys[id]) && LockEnd(w.journeys[id]) > w.clock
    ensures LockStored(ExpireFrom(w1, t, from + 1).w, w.journeys[id].customer) <==> !ExpiresIn(w, t, from, id)
    decreases |w.journeys| - from, 0
  {
    if from == id {
      OrderIsResting(w1);
      ExpiryIsSound(w1, t, from + 1);
      assert ExpiresIn(w, t, id, id);
    } else {
      LocksAfterExpiry(w1, t, from + 1, id);
      ExpiresAfterOne(w, w1, t, from, id);
    }
  }

  lemma ExpireOneReleases(w: World, t: TickEnv, id: JourneyId)
    requires Inv(w) && id < |w.journeys| && Open(w.journeys[id]) && !ExpireOne(w, t, id).raised
    ensures !LockStored(ExpireOne(w, t, id).w, w.journeys[id].customer)
  {
    assert EventRowOk(w, w.events[w.journeys[id].event]);
  }

  /** Going by the rows before it, a tick that raises closes this journey first: its turn ends it, or,
      where no turn is stuck, it has expired and no approved one expires before it. */
  predicate ClosedBeforeRaise(w: World, t: TickEnv, due: seq<JourneyId>, id: JourneyId)
    requires id < |w.journeys|
  {
    || ClosesIn(w, t, due, id)
    || (!AnyStuck(w, t, due) && Stale(w.journeys[id], t)
        && forall k :: 0 <= k <= id ==> !StillApproved(w, t, due, k))
  }

  lemma StillOpenWithLock(w: World, w1: World, id: JourneyId)
    requires LockInv(w) && LocksSound(w1) && LocksShrink(w.keys, w1.keys)
    requires id < |w.journeys| && HoldsLock(w, id) && LockStored(w1, w.journeys[id].customer)
    ensures id < |w1.journeys| && Open(w1.journeys[id]) && HoldsLock(w1, id)
    ensures w1.journeys[id].customer == w.journeys[id].customer
  {
    assert LockOk(w1, w.journeys[id].customer);
  }

  /** The book after the turns and the settling of a tick whose turns did not raise. */
  lemma TurnsDone(w0: World, t: TickEnv, due: seq<JourneyId>) returns (w2: World)
    requires Inv(w0) && LockInv(w0) && OpenBatch(w0, due) && w0.clock == t.now && !AdvanceAll(w0, t, due).raised
    ensures w2 == SettleFrom(AdvanceAll(w0, t, due).w, t, 0)
    ensures Inv(w2) && LockInv(w2) && w2.clock == t.now && |w2.journeys| == |w0.journeys|
    ensures LocksShrink(w0.keys, w2.keys) && w2.keys == AdvanceAll(w0, t, due).w.keys
    ensures !AnyStuck(w0, t, due)
    ensures forall id: JourneyId :: id < |w0.journeys| ==> StaysApproved(w0, w2, t, due, id)
  {
    var w1 := AdvanceAll(w0, t, due).w;
    w2 := SettleFrom(w1, t, 0);
    InOrderIsReady(w0, due);
    TurnsRaiseIff(w0, t, due);
    AdvanceAllKeepsLocks(w0, t, due);
    OrderIsResting(w0);
    AdvanceAllIsSound(w0, t, due);
    SettleKeepsInv(w1, t, 0);
    SameLocks(w1, w2);
    forall id: JourneyId | id < |w0.journeys| ensures StaysApproved(w0, w2, t, due, id) {
      assert StaysApproved(w0, w1, t, due, id);
    }
  }

  lemma SameExpiry(w0: World, w2: World, t: TickEnv, due: seq<JourneyId>, id: JourneyId)
    requires |w2.journeys| == |w0.journeys| && id < |w0.journeys| && Open(w0.journeys[id]) && Open(w2.journeys[id])
    requires forall k: JourneyId :: k < |w0.journeys| ==> StaysApproved(w0, w2, t, due, k)
    ensures ExpiresIn(w2, t, 0, id) <==>
            Stale(w0.journeys[id], t) && forall k :: 0 <= k <= id ==> !StillApproved(w0, t, due, k)
  {
    ExpiryAfterTurns(w0, w2, t, due);
    assert StaysApproved(w0, w2, t, due, id);
  }

  lemma LocksAfterLaterExpiry(w0: World, t: TickEnv, due: seq<JourneyId>, id: JourneyId)
    requires Inv(w0) && LockInv(w0) && OpenBatch(w0, due) && w0.clock == t.now && !AdvanceAll(w0, t, due).raised
    requires id < |w0.journeys| && Open(w0.journeys[id]) && LockEnd(w0.journeys[id]) > t.now
    ensures LockStored(ExpireFrom(SettleFrom(AdvanceAll(w0, t, due).w, t, 0), t, 0).w, w0.journeys[id].customer)
            <==> !ClosedBeforeRaise(w0, t, due, id)
  {
    var w2 := TurnsDone(w0, t, due);
    LocksAfterTurns(w0, t, due, id);
    if ClosesIn(w0, t, due, id) {
      OrderIsResting(w2);
      ExpiryIsSound(w2, t, 0);
    } else {
      assert HoldsLock(w0, id);
      StillOpenWithLock(w0, w2, id);
      assert StaysApproved(w0, w2, t, due, id);
      SameExpiry(w0, w2, t, due, id);
      LocksAfterExpiry(w2, t, 0, id);
    }
  }

  lemma LocksAfterTickBody(w: World, t: TickEnv, due: seq<JourneyId>, id: JourneyId)
    requires Inv(w) && LockInv(w) && OpenBatch(w, due) && w.clock <= t.now
    requires id < |w.journeys| && Open(w.journeys[id]) && LockEnd(w.journeys[id]) > t.now
    ensures LockStored(TickBody(w, t, due).w, w.journeys[id].customer) <==> !ClosedBeforeRaise(w, t, due, id)
  {
    var w0 := w.(clock := t.now);
    ClockIsFree(w, t.now);
    ClockKeepsLocks(w, t.now);
    ClosedBeforeRaiseNow(w, t, due, id);
    if AdvanceAll(w0, t, due).raised {
      InOrderIsReady(w0, due);
      TurnsRaiseIff(w0, t, due);
      LocksAfterTurns(w0, t, due, id);
    } else {
      LocksAfterLaterExpiry(w0, t, due, id);
    }
  }

  lemma ClosedBeforeRaiseNow(w: World, t: TickEnv, due: seq<JourneyId>, id: JourneyId)
    requires Inv(w) && OpenBatch(w, due) && id < |w.journeys|
    ensures ClosedBeforeRaise(w.(clock := t.now), t, due, id) <==> ClosedBeforeRaise(w, t, due, id)
  {
    var w0 := w.(clock := t.now);
    InOrderIsReady(w, due);
    ClockChangesNoTurn(w, t, due, t.now);
    forall i | 0 <= i < |due| ensures RowsExist(w, due[i]) && RowsExist(w0, due[i]) {}
    SameClosings(w, w0, t, due, id);
  }

  /** After a tick that raised, every journey still holds the lock it needs exactly when the tick had
      closed none whose lock has time left: the rollback reopens what was closed, but the locks are
      gone. */
  lemma RollbackKeepsLocksIff(w: World, t: TickEnv, due: seq<JourneyId>)
    requires Inv(w) && LockInv(w) && OpenBatch(w, due) && w.clock <= t.now && TickRaises(w, t, due)
    ensures LocksSound(Tick(w, t, due).w)
    ensures LockInv(Tick(w, t, due).w) <==>
            forall id :: 0 <= id < |w.journeys| && Open(w.journeys[id]) && LockEnd(w.journeys[id]) > t.now ==>
              !ClosedBeforeRaise(w, t, due, id)
  {
    AnyTickRaisesIff(w, t, due);
    OrderIsResting(w);
    TickIsSound(w, t, due);
    TickBodyShrinksLocks(w, t, due);
    var r := Tick(w, t, due).w;
    forall id | 0 <= id < |w.journeys| && Open(w.journeys[id]) && LockEnd(w.journeys[id]) > t.now
      ensures HoldsLock(r, id) <==> !ClosedBeforeRaise(w, t, due, id)
    {
      assert HoldsLock(w, id);
      LocksAfterTickBody(w, t, due, id);
    }
  }

  lemma TickBodyShrinksLocks(w: World, t: TickEnv, due: seq<JourneyId>)
    requires Inv(w) && LocksSound(w) && OpenBatch(w, due)
    ensures LocksShrink(w.keys, TickBody(w, t, due).w.keys) && TickBody(w, t, due).w.clock == t.now
  {
    var w0 := w.(clock := t.now);
    OrderIsResting(w);
    SameOwners(w, w0);
    AdvanceAllIsSound(w0, t, due);
    TurnsKeepClock(w0, t, due);
    if !AdvanceAll(w0, t, due).raised {
      var w1 := AdvanceAll(w0, t, due).w;
      SettlingExecutesNothing(w1, t, 0);
      SameOwners(w1, SettleFrom(w1, t, 0));
      ExpiryIsSound(SettleFrom(w1, t, 0), t, 0);
      ExpiryKeepsClock(SettleFrom(w1, t, 0), t, 0);
    }
  }

  lemma {:induction false} TurnsKeepClock(w: World, t: TickEnv, ids: seq<JourneyId>)
    ensures AdvanceAll(w, t, ids).w.clock == w.clock
    decreases |ids|
  {
    if ids != [] && !AdvanceOne(w, t, ids[0]).raised { TurnsKeepClock(AdvanceOne(w, t, ids[0]).w, t, ids[1..]); }
  }

  lemma {:induction false} ExpiryKeepsClock(w: World, t: TickEnv, from: nat)
    ensures ExpireFrom(w, t, from).w.clock == w.clock
    decreases |w.journeys| - from
  {
    if from < |w.journeys| {
      if Stale(w.journeys[from], t) {
        var r := ExpireOne(w, t, from);
        if !r.raised && |r.w.journeys| == |w.journeys| { ExpiryKeepsClock(r.w, t, from + 1); }
      } else {
        ExpiryKeepsClock(w, t, from + 1);
      }
    }
  }
}
