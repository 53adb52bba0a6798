/** When a tick raises, and what the rollback that follows leaves behind. */
module Raises {
  import opened Domain
  import opened Rows
  import opened Policy
  import opened Decision
  import opened Journey
  import opened Gateway
  import opened Ledger
  import opened Recovery
  import opened RecoveryProofs
  import opened TurnShape
  import opened TurnLimits
  import opened Orchestrator
  import opened Safety
  import opened Operations
  import KeyStore

  // ------------------------------------------------------- turns never grant an approval

  lemma NextStepGrantsNothing(c: Cell, env: Env, budget: BudgetState)
    requires c.j.actions != [] && Last(c.j).status != Approved && NextStepOrClose(c, env, budget).Some?
    ensures var j := NextStepOrClose(c, env, budget).value.j;
            j.actions != [] && Last(j).status != Approved
  {
    if c.j.stepIndex + 1 < |c.j.plan| {
      ReplanGrantsNothing(c, env, budget);
    } else {
      GiveUpGrantsNothing(c, env.now);
    }
  }

  lemma ReplanGrantsNothing(c: Cell, env: Env, budget: BudgetState)
    requires c.j.stepIndex + 1 < |c.j.plan| && Replan(c, env, budget).Some?
    ensures var j := Replan(c, env, budget).value.j;
            j.actions != [] && Last(j).status != Approved
  {
    ReplanRaisesIff(c, env, budget);
  }

  lemma GiveUpGrantsNothing(c: Cell, now: Time)
    requires GiveUp(c, now).Some?
    ensures GiveUp(c, now).value.j.actions == c.j.actions
  {
  }

  lemma VerifyGrantsNothing(c: Cell, env: Env, budget: BudgetState)
    requires c.j.actions != [] && Last(c.j).status != Approved && Verify(c, env, budget).Some?
    ensures var j := Verify(c, env, budget).value.j;
            j.actions != [] && Last(j).status != Approved
  {
    var (c1, status) := Ascertain(c, env);
    assert c1.j == c.j;
    if status == GwFailed { NextStepGrantsNothing(SetLast(c1, Last(c1.j).(status := Failed)), env, budget); }
  }

  lemma AwaitingGrantsNothing(c: Cell, env: Env, budget: BudgetState, status: GatewayStatus)
    requires c.j.actions != [] && Last(c.j).status != Approved && AwaitVerdict(c, env, budget, status).Some?
    ensures var j := AwaitVerdict(c, env, budget, status).value.j;
            j.actions != [] && Last(j).status != Approved
  {
    var verifying := c.(j := Move(c.j, Verifying, env.now).value);
    if status != GwPending { VerifyGrantsNothing(verifying, env, budget); }
  }

  lemma ChargedStatus(c: Cell, env: Env, ask: Ask)
    requires c.j.actions != []
    ensures var j := Charge(c, env, ask).0.j;
            j.actions != [] && Last(j).status in {Cancelled, Executing, Succeeded, Failed}
  {
    var r := Execute(c, env, ask);
    assert Charge(c, env, ask).0.j.actions == r.0.j.actions;
  }

  lemma PerformGrantsNothing(c: Cell, env: Env, budget: BudgetState, ask: Ask)
    requires c.j.actions != [] && Perform(c, env, budget, ask).Some?
    ensures var j := Perform(c, env, budget, ask).value.j;
            j.actions != [] && Last(j).status != Approved
  {
    var executing := c.(j := Move(c.j, JExecuting, env.now).value);
    ChargedStatus(executing, env, ask);
    var (charged, status) := Charge(executing, env, ask);
    AwaitingGrantsNothing(charged, env, budget, status);
  }

  lemma SkipGrantsNothing(c: Cell, env: Env)
    requires c.j.actions != [] && Last(c.j).status == Blocked && SkipBlocked(c, env).Some?
    ensures var j := SkipBlocked(c, env).value.j;
            j.actions != [] && Last(j).status != Approved
  {
    NextStepGrantsNothing(CountFutile(c, Last(c.j).reasons), env, BudgetOf(c.j, c.ev, env.spec));
  }

  /** After a turn the last action is approved only if it was before and is not due yet. */
  lemma TurnGrantsNothing(c: Cell, env: Env)
    requires c.j.actions != [] && Advance(c, env).Some?
    ensures var j := Advance(c, env).value.j;
            j.actions != [] && (Last(j).status == Approved ==>
              Last(c.j).status == Approved && Last(c.j).scheduledAt > env.now && j == c.j.(nextActionAt := j.nextActionAt))
  {
    var a := Last(c.j);
    match a.status
    case AwaitingApproval =>
    case Blocked => SkipGrantsNothing(c, env);
    case Planned | Approved =>
      if a.scheduledAt <= env.now { DueGrantsNothing(c, env); }
    case Executing | Succeeded | Failed | Cancelled | Skipped => ResolveGrantsNothing(c, env);
  }

  lemma DueGrantsNothing(c: Cell, env: Env)
    requires c.j.actions != [] && Due(c, env).Some?
    ensures var j := Due(c, env).value.j;
            j.actions != [] && Last(j).status != Approved
  {
    var ask := AskNow(c, env);
    var verdict := Gate(env.spec, ask);
    match verdict.verdict
    case RequireApproval =>
    case Block => NextStepGrantsNothing(Refused(c, verdict), env, ask.budget);
    case Allow => PerformGrantsNothing(c, env, ask.budget, ask);
  }

  lemma ResolveGrantsNothing(c: Cell, env: Env)
    requires c.j.actions != [] && Last(c.j).status != Approved && Resolve(c, env).Some?
    ensures var j := Resolve(c, env).value.j;
            j.actions != [] && Last(j).status != Approved
  {
    VerifyGrantsNothing(c.(j := Move(c.j, Verifying, env.now).value), env, BudgetOf(c.j, c.ev, env.spec));
  }

  // ------------------------------------------------------ the turns of a tick, on any book

  /** Every journey has its own event, and the rows it refers to exist. */
  predicate RowsApart(w: World) {
    && (forall id :: 0 <= id < |w.journeys| ==> RowsExist(w, id))
    && (forall i, k :: 0 <= i < k < |w.journeys| ==> w.journeys[i].event != w.journeys[k].event)
  }

  /** Open journeys whose last action goes by a key of its own. */
  predicate Ready(w: World, ids: seq<JourneyId>) {
    && OpenBatch(w, ids)
    && (forall i :: 0 <= i < |ids| ==>
          w.journeys[ids[i]].actions != [] && Last(w.journeys[ids[i]]).key.ActionKey?
          && Last(w.journeys[ids[i]]).key.journey == ids[i])
  }

  lemma InOrderIsReady(w: World, ids: seq<JourneyId>)
    requires Inv(w) && OpenBatch(w, ids)
    ensures RowsApart(w) && Ready(w, ids)
  {
    forall id | 0 <= id < |w.journeys| ensures RowsExist(w, id) {
      assert EventRowOk(w, w.events[w.journeys[id].event]);
    }
    forall i | 0 <= i < |ids|
      ensures w.journeys[ids[i]].actions != [] && Last(w.journeys[ids[i]]).key.ActionKey?
              && Last(w.journeys[ids[i]]).key.journey == ids[i]
    {
      LastKeyIsOwn(w, ids[i]);
    }
  }

  /** The transition table does not let this journey's turn begin. */
  predicate StuckAt(w: World, t: TickEnv, id: JourneyId) {
    RowsExist(w, id) && Stuck(CellOf(w, id), TurnEnv(w, t, id))
  }

  /** This journey's turn will charge: its action is due, the gate allows it, the table too. */
  predicate ChargesAt(w: World, t: TickEnv, id: JourneyId) {
    RowsExist(w, id) && Charging(CellOf(w, id), TurnEnv(w, t, id))
  }

  predicate WaitsAt(w: World, t: TickEnv, id: JourneyId) {
    RowsExist(w, id) && (w.journeys[id].actions == [] || Target(CellOf(w, id), TurnEnv(w, t, id)).None?)
  }

  /** What a turn will do depends on the rows of its journey alone. */
  predicate SameTurn(w: World, w': World, t: TickEnv, k: JourneyId) {
    && (StuckAt(w', t, k) <==> StuckAt(w, t, k)) && (ChargesAt(w', t, k) <==> ChargesAt(w, t, k))
    && (WaitsAt(w', t, k) <==> WaitsAt(w, t, k))
  }

  lemma SameRowsSameTurn(w: World, w': World, t: TickEnv, k: JourneyId)
    requires RowsExist(w, k) && k < |w'.journeys| && w'.journeys[k] == w.journeys[k]
    requires w.journeys[k].event < |w'.events| && w'.events[w.journeys[k].event] == EventOf(w, k)
    requires w'.customers == w.customers
    ensures SameTurn(w, w', t, k)
  {
    if w.journeys[k].actions != [] { SameTarget(CellOf(w, k), CellOf(w', k), TurnEnv(w, t, k), TurnEnv(w', t, k)); }
  }

  /** A turn, seen from the other rows: they stay as they are, and so does what they will do. */
  ghost predicate OnlyTurned(w: World, w': World, t: TickEnv, id: JourneyId) {
    && |w'.journeys| == |w.journeys| && RowsApart(w')
    && (forall k :: 0 <= k < |w.journeys| && k != id ==> w'.journeys[k] == w.journeys[k] && SameTurn(w, w', t, k))
  }

  /** A turn, seen from its own row. */
  ghost predicate OwnTurn(w: World, w': World, t: TickEnv, id: JourneyId)
    requires id < |w.journeys| == |w'.journeys|
  {
    var j, j' := w.journeys[id], w'.journeys[id];
    && j'.createdAt == j.createdAt && j'.customer == j.customer
    && (if WaitsAt(w, t, id) then j' == j.(nextActionAt := j'.nextActionAt)
        else j'.state in {Verifying, JPlanned, JAwaitingApproval, Closed})
  }

  ghost predicate KeptByTurn(w: World, w': World, t: TickEnv, id: JourneyId) {
    && RowsExist(w, id) && RowsExist(w', id) && w.journeys[id].actions != []
    && TurnKeeps(CellOf(w, id), CellOf(w', id), TurnEnv(w, t, id))
  }

  lemma TurnOnAnyBook(w: World, t: TickEnv, id: JourneyId)
    requires id < |w.journeys| && RowsApart(w) && Ready(w, [id])
    ensures AdvanceOne(w, t, id).raised <==> StuckAt(w, t, id)
    ensures !AdvanceOne(w, t, id).raised ==>
              var w' := AdvanceOne(w, t, id).w;
              OnlyTurned(w, w', t, id) && OwnTurn(w, w', t, id) && KeptByTurn(w, w', t, id)
  {
    assert [id][0] == id;
    var c, env := CellOf(w, id), TurnEnv(w, t, id);
    AnyTurnRaisesIff(c, env);
    if Advance(c, env).Some? {
      AnyTurnKeeps(c, env);
      CellTurned(w, t, id, Advance(c, env).value);
    }
  }

  lemma CellTurned(w: World, t: TickEnv, id: JourneyId, c': Cell)
    requires RowsApart(w) && id < |w.journeys| && w.journeys[id].actions != []
    requires TurnKeeps(CellOf(w, id), c', TurnEnv(w, t, id))
    ensures var w' := WithCell(w, id, c');
            OnlyTurned(w, w', t, id) && KeptByTurn(w, w', t, id)
  {
    var w' := WithCell(w, id, c');
    forall k | 0 <= k < |w.journeys| ensures RowsExist(w', k) {
      assert RowsExist(w, k) && w'.journeys[k].event == w.journeys[k].event;
    }
    forall k | 0 <= k < |w.journeys| && k != id ensures SameTurn(w, w', t, k) {
      assert w.journeys[k].event != w.journeys[id].event;
      SameRowsSameTurn(w, w', t, k);
    }
  }

  lemma RestIsReady(w: World, w': World, t: TickEnv, ids: seq<JourneyId>)
    requires Ready(w, ids) && ids != [] && OnlyTurned(w, w', t, ids[0])
    ensures Ready(w', ids[1..])
  {
    assert forall i :: 0 <= i < |ids[1..]| ==> ids[1..][i] == ids[i + 1];
  }

  predicate AnyStuck(w: World, t: TickEnv, ids: seq<JourneyId>) {
    exists i :: 0 <= i < |ids| && StuckAt(w, t, ids[i])
  }

  /** The k-th turn is taken: none before it raises. */
  predicate Reached(w: World, t: TickEnv, ids: seq<JourneyId>, k: nat) {
    k < |ids| && forall i :: 0 <= i < k ==> !StuckAt(w, t, ids[i])
  }

  lemma ReachedLater(w: World, w': World, t: TickEnv, ids: seq<JourneyId>)
    requires Ready(w, ids) && ids != [] && OnlyTurned(w, w', t, ids[0]) && !StuckAt(w, t, ids[0])
    ensures AnyStuck(w', t, ids[1..]) <==> AnyStuck(w, t, ids)
    ensures forall k :: 1 <= k < |ids| ==> (Reached(w', t, ids[1..], k - 1) <==> Reached(w, t, ids, k))
    ensures forall k :: 1 <= k < |ids| ==> SameTurn(w, w', t, ids[k])
  {
    forall k | 1 <= k < |ids| ensures SameTurn(w, w', t, ids[k]) { assert ids[k] != ids[0]; }
    LaterStuck(w, w', t, ids);
    LaterReached(w, w', t, ids);
  }

  lemma LaterStuck(w: World, w': World, t: TickEnv, ids: seq<JourneyId>)
    requires ids != [] && !StuckAt(w, t, ids[0]) && forall k :: 1 <= k < |ids| ==> SameTurn(w, w', t, ids[k])
    ensures AnyStuck(w', t, ids[1..]) <==> AnyStuck(w, t, ids)
  {
    if AnyStuck(w, t, ids) {
      var i :| 0 <= i < |ids| && StuckAt(w, t, ids[i]);
      assert SameTurn(w, w', t, ids[i]) && ids[1..][i - 1] == ids[i];
    }
    if AnyStuck(w', t, ids[1..]) {
      var i :| 0 <= i < |ids[1..]| && StuckAt(w', t, ids[1..][i]);
      assert SameTurn(w, w', t, ids[i + 1]);
    }
  }

  lemma LaterReached(w: World, w': World, t: TickEnv, ids: seq<JourneyId>)
    requires ids != [] && !StuckAt(w, t, ids[0]) && forall k :: 1 <= k < |ids| ==> SameTurn(w, w', t, ids[k])
    ensures forall k :: 1 <= k < |ids| ==> (Reached(w', t, ids[1..], k - 1) <==> Reached(w, t, ids, k))
  {
    forall k | 1 <= k < |ids| ensures Reached(w', t, ids[1..], k - 1) <==> Reached(w, t, ids, k) {
      if Reached(w', t, ids[1..], k - 1) {
        forall i | 0 <= i < k ensures !StuckAt(w, t, ids[i]) {
          if i > 0 { assert SameTurn(w, w', t, ids[i]) && !StuckAt(w', t, ids[1..][i - 1]); }
        }
      }
      if Reached(w, t, ids, k) {
        forall i | 0 <= i < k - 1 ensures !StuckAt(w', t, ids[1..][i]) {
          assert SameTurn(w, w', t, ids[i + 1]) && !StuckAt(w, t, ids[i + 1]);
        }
      }
    }
  }

  /** After the turns of `ids` a journey is approved exactly if it was and its turn, if any, only
      waited. */
  predicate StaysApproved(w: World, w': World, t: TickEnv, ids: seq<JourneyId>, id: JourneyId)
    requires id < |w.journeys| == |w'.journeys|
  {
    var j, j' := w.journeys[id], w'.journeys[id];
    && (j'.state == JApproved <==> j.state == JApproved && (id !in ids || WaitsAt(w, t, id)))
    && j'.createdAt == j.createdAt
  }

  lemma RestStaysApproved(w: World, w1: World, w2: World, t: TickEnv, ids: seq<JourneyId>)
    requires Ready(w, ids) && ids != [] && |w1.journeys| == |w.journeys| == |w2.journeys|
    requires OnlyTurned(w, w1, t, ids[0]) && OwnTurn(w, w1, t, ids[0])
    requires forall k: JourneyId :: k < |w.journeys| ==> StaysApproved(w1, w2, t, ids[1..], k)
    ensures forall k: JourneyId :: k < |w.journeys| ==> StaysApproved(w, w2, t, ids, k)
  {
    forall k: JourneyId | k < |w.journeys| ensures StaysApproved(w, w2, t, ids, k) {
      assert StaysApproved(w1, w2, t, ids[1..], k);
      assert k in ids <==> k == ids[0] || k in ids[1..];
      if k == ids[0] { assert k !in ids[1..]; }
    }
  }

  /** The turns of a tick raise exactly when one of the journeys is stuck as it stands now. */
  lemma {:induction false} TurnsRaiseIff(w: World, t: TickEnv, ids: seq<JourneyId>)
    requires RowsApart(w) && Ready(w, ids)
    ensures AdvanceAll(w, t, ids).raised <==> AnyStuck(w, t, ids)
    ensures var w' := AdvanceAll(w, t, ids).w;
            RowsApart(w') && |w'.journeys| == |w.journeys| && w.trace <= w'.trace
            && (!AnyStuck(w, t, ids) ==> forall id: JourneyId :: id < |w.journeys| ==> StaysApproved(w, w', t, ids, id))
    decreases |ids|
  {
    if ids != [] {
      assert Ready(w, [ids[0]]);
      TurnOnAnyBook(w, t, ids[0]);
      if !StuckAt(w, t, ids[0]) {
        var w1 := AdvanceOne(w, t, ids[0]).w;
        RestIsReady(w, w1, t, ids);
        ReachedLater(w, w1, t, ids);
        TurnsRaiseIff(w1, t, ids[1..]);
        if !AnyStuck(w, t, ids) { RestStaysApproved(w, w1, AdvanceAll(w1, t, ids[1..]).w, t, ids); }
      }
    }
  }

  // ------------------------------------------------------------------- when a tick raises

  lemma ExpireOneRaisesIff(w: World, t: TickEnv, id: JourneyId)
    requires Inv(w) && id < |w.journeys| && Open(w.journeys[id])
    ensures ExpireOne(w, t, id).raised <==> w.journeys[id].state == JApproved
  {
    assert EventRowOk(w, w.events[w.journeys[id].event]);
    assert JourneyOk(w, id);
  }

  lemma {:induction false} ExpiryRaisesIff(w: World, t: TickEnv, from: nat)
    requires Inv(w)
    ensures ExpireFrom(w, t, from).raised <==>
            exists id :: from <= id < |w.journeys| && w.journeys[id].state == JApproved && Stale(w.journeys[id], t)
    decreases |w.journeys| - from
  {
    if from < |w.journeys| {
      if Stale(w.journeys[from], t) {
        ExpireOneRaisesIff(w, t, from);
        if !ExpireOne(w, t, from).raised {
          ExpireOneKeepsInv(w, t, from);
          var w' := ExpireOne(w, t, from).w;
          assert forall k :: from + 1 <= k < |w.journeys| ==> w'.journeys[k] == w.journeys[k];
          ExpiryRaisesIff(w', t, from + 1);
        }
      } else {
        ExpiryRaisesIff(w, t, from + 1);
      }
    }
  }

  /** Approved, past its time to live, and still approved once the turns are over. */
  predicate StillApproved(w: World, t: TickEnv, due: seq<JourneyId>, id: JourneyId) {
    && id < |w.journeys| && w.journeys[id].state == JApproved && Stale(w.journeys[id], t)
    && (id !in due || WaitsAt(w, t, id))
  }

  /** On the rows before the tick: a due journey is stuck, or an approved one will have expired. */
  predicate TickRaises(w: World, t: TickEnv, due: seq<JourneyId>) {
    && t.spec.automationEnabled
    && (AnyStuck(w, t, due) || exists id :: 0 <= id < |w.journeys| && StillApproved(w, t, due, id))
  }

  lemma ExpiryAfterTurns(w: World, w1: World, t: TickEnv, due: seq<JourneyId>)
    requires |w1.journeys| == |w.journeys|
    requires forall id: JourneyId :: id < |w.journeys| ==> StaysApproved(w, w1, t, due, id)
    ensures (exists id :: 0 <= id < |w1.journeys| && w1.journeys[id].state == JApproved && Stale(w1.journeys[id], t))
            <==> exists id :: 0 <= id < |w.journeys| && StillApproved(w, t, due, id)
    ensures forall id: JourneyId :: id < |w.journeys| ==>
              (w1.journeys[id].state == JApproved && Stale(w1.journeys[id], t) <==> StillApproved(w, t, due, id))
  {
    forall id: JourneyId | id < |w.journeys|
      ensures w1.journeys[id].state == JApproved && Stale(w1.journeys[id], t) <==> StillApproved(w, t, due, id)
    {
      assert StaysApproved(w, w1, t, due, id);
    }
  }

  lemma ClockKeepsReady(w: World, ids: seq<JourneyId>, now: Time)
    requires RowsApart(w) && Ready(w, ids)
    ensures RowsApart(w.(clock := now)) && Ready(w.(clock := now), ids)
  {
    forall id | 0 <= id < |w.journeys| ensures RowsExist(w.(clock := now), id) { assert RowsExist(w, id); }
  }

  lemma ClockChangesNoTurn(w: World, t: TickEnv, due: seq<JourneyId>, now: Time)
    requires RowsApart(w) && OpenBatch(w, due)
    ensures var w0 := w.(clock := now);
            && (AnyStuck(w0, t, due) <==> AnyStuck(w, t, due))
            && (forall k :: Reached(w0, t, due, k) <==> Reached(w, t, due, k))
            && (forall id :: 0 <= id < |w.journeys| ==> SameTurn(w, w0, t, id))
            && (forall id: JourneyId :: StillApproved(w0, t, due, id) <==> StillApproved(w, t, due, id))
  {
    var w0 := w.(clock := now);
    forall id | 0 <= id < |w.journeys| ensures SameTurn(w, w0, t, id) { SameRowsSameTurn(w, w0, t, id); }
    forall i | 0 <= i < |due| ensures StuckAt(w0, t, due[i]) <==> StuckAt(w, t, due[i]) {
      assert SameTurn(w, w0, t, due[i]);
    }
  }

  /** Whether a tick raises can be told from the rows before it, paused journeys included. */
  lemma AnyTickRaisesIff(w: World, t: TickEnv, due: seq<JourneyId>)
    requires Inv(w) && OpenBatch(w, due)
    ensures Tick(w, t, due).raised <==> TickRaises(w, t, due)
  {
    if t.spec.automationEnabled {
      var w0 := w.(clock := t.now);
      InOrderIsReady(w, due);
      ClockIsFree(w, t.now);
      ClockKeepsReady(w, due, t.now);
      ClockChangesNoTurn(w, t, due, t.now);
      TurnsRaiseIff(w0, t, due);
      if !AnyStuck(w, t, due) {
        var w1 := AdvanceAll(w0, t, due).w;
        AdvanceAllKeepsInv(w0, t, due);
        SettleKeepsInv(w1, t, 0);
        ExpiryRaisesIff(SettleFrom(w1, t, 0), t, 0);
        ExpiryAfterTurns(w0, w1, t, due);
      }
    }
  }

  predicate LegalBook(w: World) {
    forall id :: 0 <= id < |w.journeys| ==> w.journeys[id].actions != [] && Legal(w.journeys[id])
  }

  /** The action was approved, is due, fails its re-check, and the plan has a step left. */
  predicate TurnedDown(w: World, t: TickEnv, id: JourneyId) {
    && RowsExist(w, id) && w.journeys[id].actions != []
    && ApprovedThenBlocked(CellOf(w, id), TurnEnv(w, t, id))
  }

  /** Approved, past its time to live, and not carried out by this tick. */
  predicate LeftApproved(w: World, t: TickEnv, due: seq<JourneyId>, id: JourneyId) {
    && id < |w.journeys| && w.journeys[id].actions != []
    && w.journeys[id].state == JApproved && Stale(w.journeys[id], t)
    && (id !in due || Last(w.journeys[id]).scheduledAt > t.now)
  }

  predicate AnyTurnedDown(w: World, t: TickEnv, ids: seq<JourneyId>) {
    exists i :: 0 <= i < |ids| && TurnedDown(w, t, ids[i])
  }

  lemma LegalRowStuckIff(w: World, t: TickEnv, id: JourneyId)
    requires Inv(w) && LegalBook(w) && id < |w.journeys| && Open(w.journeys[id])
    ensures StuckAt(w, t, id) <==> TurnedDown(w, t, id)
  {
    assert EventRowOk(w, w.events[w.journeys[id].event]);
    assert JourneyOk(w, id);
    StuckIffTurnedDown(CellOf(w, id), TurnEnv(w, t, id));
  }

  /** Where nobody paused a journey, a tick raises in exactly two situations, both about approved
      actions: one is turned down on its re-check with a step of the plan left, or one is still
      approved when its journey expires. */
  lemma TickRaisesIff(w: World, t: TickEnv, due: seq<JourneyId>)
    requires Inv(w) && LegalBook(w) && OpenBatch(w, due) && t.spec.automationEnabled
    ensures Tick(w, t, due).raised <==>
            AnyTurnedDown(w, t, due) || exists id: JourneyId :: LeftApproved(w, t, due, id)
  {
    AnyTickRaisesIff(w, t, due);
    LegalSituations(w, t, due);
    if id: JourneyId :| LeftApproved(w, t, due, id) { assert StillApproved(w, t, due, id); }
  }

  lemma LegalSituations(w: World, t: TickEnv, due: seq<JourneyId>)
    requires Inv(w) && LegalBook(w) && OpenBatch(w, due)
    ensures AnyStuck(w, t, due) <==> AnyTurnedDown(w, t, due)
    ensures forall id: JourneyId :: StillApproved(w, t, due, id) <==> LeftApproved(w, t, due, id)
  {
    forall i | 0 <= i < |due| ensures StuckAt(w, t, due[i]) <==> TurnedDown(w, t, due[i]) {
      LegalRowStuckIff(w, t, due[i]);
    }
    forall id: JourneyId ensures StillApproved(w, t, due, id) <==> LeftApproved(w, t, due, id) {
      LegalRowLeftIff(w, t, due, id);
    }
  }

  lemma LegalRowLeftIff(w: World, t: TickEnv, due: seq<JourneyId>, id: JourneyId)
    requires Inv(w) && LegalBook(w)
    ensures StillApproved(w, t, due, id) <==> LeftApproved(w, t, due, id)
  {
    if id < |w.journeys| && w.journeys[id].state == JApproved {
      assert EventRowOk(w, w.events[w.journeys[id].event]);
      assert Legal(w.journeys[id]);
    }
  }

  // --------------------------------------------------------------------- what a tick sends

  /** The journey's turn is taken and charges, as its rows stand before the tick. */
  predicate Charged(w: World, t: TickEnv, ids: seq<JourneyId>, id: JourneyId) {
    exists k :: 0 <= k < |ids| && ids[k] == id && Reached(w, t, ids, k) && ChargesAt(w, t, id)
  }

  /** Some due journey will be charged before anything raises. */
  predicate TickCharges(w: World, t: TickEnv, due: seq<JourneyId>) {
    t.spec.automationEnabled && exists k :: 0 <= k < |due| && Reached(w, t, due, k) && ChargesAt(w, t, due[k])
  }

  predicate Executes(trace: seq<GatewayCall>, from: nat) {
    exists i :: from <= i < |trace| && trace[i].ExecuteCall?
  }

  function OwnerOf(j: Journey, id: JourneyId): Owner
    requires j.actions != []
  {
    ByAction(id, Last(j).sequence)
  }

  lemma ReachedFirst(w: World, t: TickEnv, ids: seq<JourneyId>)
    requires ids != []
    ensures Reached(w, t, ids, 0)
    ensures forall k :: 1 <= k < |ids| && Reached(w, t, ids, k) ==> !StuckAt(w, t, ids[0])
  {
  }

  /** The other journeys of the list, and whether their turns are taken, after the first turn. */
  predicate SameRest(w: World, w1: World, t: TickEnv, ids: seq<JourneyId>) {
    forall k :: 1 <= k < |ids| ==>
      && ids[k] < |w.journeys| && ids[k] < |w1.journeys| && w1.journeys[ids[k]] == w.journeys[ids[k]]
      && SameTurn(w, w1, t, ids[k]) && (Reached(w1, t, ids[1..], k - 1) <==> Reached(w, t, ids, k))
  }

  /** The rest of the turns, after the first one was taken. */
  lemma AfterFirst(w: World, t: TickEnv, ids: seq<JourneyId>) returns (w1: World)
    requires RowsApart(w) && Ready(w, ids) && ids != [] && !StuckAt(w, t, ids[0])
    ensures AdvanceOne(w, t, ids[0]) == Run(w1, false) && AdvanceAll(w, t, ids) == AdvanceAll(w1, t, ids[1..])
    ensures RowsApart(w1) && Ready(w1, ids[1..]) && KeptByTurn(w, w1, t, ids[0])
    ensures SameRest(w, w1, t, ids)
  {
    assert Ready(w, [ids[0]]);
    TurnOnAnyBook(w, t, ids[0]);
    w1 := AdvanceOne(w, t, ids[0]).w;
    RestIsReady(w, w1, t, ids);
    ReachedLater(w, w1, t, ids);
  }

  lemma FirstIsStuck(w: World, t: TickEnv, ids: seq<JourneyId>)
    requires RowsApart(w) && Ready(w, ids) && ids != [] && StuckAt(w, t, ids[0])
    ensures AdvanceAll(w, t, ids) == Run(w, true)
  {
    AnyTurnRaisesIff(CellOf(w, ids[0]), TurnEnv(w, t, ids[0]));
  }

  /** Every execute a tick adds is the charge of a due journey whose turn was taken. */
  lemma {:induction false} SentBy(w: World, t: TickEnv, ids: seq<JourneyId>, trace: seq<GatewayCall>, i: nat)
    returns (k: nat)
    requires RowsApart(w) && Ready(w, ids) && trace == AdvanceAll(w, t, ids).w.trace
    requires |w.trace| <= i < |trace| && trace[i].ExecuteCall?
    ensures Reached(w, t, ids, k) && ChargesAt(w, t, ids[k]) && trace[i].key == Last(w.journeys[ids[k]]).key
    decreases |ids|, 1
  {
    if StuckAt(w, t, ids[0]) {
      FirstIsStuck(w, t, ids);
      assert false;
    } else {
      var w1 := AfterFirst(w, t, ids);
      k := SentByRest(w, w1, t, ids, trace, i);
    }
  }

  lemma {:induction false} SentByRest(w: World, w1: World, t: TickEnv, ids: seq<JourneyId>, trace: seq<GatewayCall>,
                                      i: nat) returns (k: nat)
    requires ids != [] && !StuckAt(w, t, ids[0]) && trace == AdvanceAll(w1, t, ids[1..]).w.trace
    requires RowsApart(w1) && Ready(w1, ids[1..]) && KeptByTurn(w, w1, t, ids[0])
    requires SameRest(w, w1, t, ids)
    requires |w.trace| <= i < |trace| && trace[i].ExecuteCall?
    ensures Reached(w, t, ids, k) && ChargesAt(w, t, ids[k]) && trace[i].key == Last(w.journeys[ids[k]]).key
    decreases |ids|, 0
  {
    if i >= |w1.trace| {
      var m := SentBy(w1, t, ids[1..], trace, i);
      k := m + 1;
      assert ids[1..][m] == ids[k] && Reached(w1, t, ids[1..], k - 1);
      assert SameTurn(w, w1, t, ids[k]);
    } else {
      k := 0;
      TurnsRaiseIff(w1, t, ids[1..]);
      assert trace[i] == w1.trace[i];
      SentFirst(w, w1, t, ids[0], i);
    }
  }

  lemma SentFirst(w: World, w1: World, t: TickEnv, id: JourneyId, i: nat)
    requires KeptByTurn(w, w1, t, id) && |w.trace| <= i < |w1.trace| && w1.trace[i].ExecuteCall?
    ensures ChargesAt(w, t, id) && w1.trace[i].key == Last(w.journeys[id]).key
  {
  }

  /** A charge goes out unless somebody else holds the key. */
  lemma {:induction false} ChargeGoesOut(w: World, t: TickEnv, ids: seq<JourneyId>, k: nat) returns (i: nat)
    requires RowsApart(w) && Ready(w, ids) && Reached(w, t, ids, k) && ChargesAt(w, t, ids[k])
    requires OwnOrFree(w.keys, Last(w.journeys[ids[k]]).key, OwnerOf(w.journeys[ids[k]], ids[k]))
    ensures var trace := AdvanceAll(w, t, ids).w.trace;
            |w.trace| <= i < |trace| && trace[i].ExecuteCall? && trace[i].key == Last(w.journeys[ids[k]]).key
    decreases |ids|
  {
    ReachedFirst(w, t, ids);
    var w1 := AfterFirst(w, t, ids);
    if k == 0 {
      TurnsRaiseIff(w1, t, ids[1..]);
      var key := Last(w.journeys[ids[0]]).key;
      i :| |w.trace| <= i < |w1.trace| && w1.trace[i].ExecuteCall? && w1.trace[i].key == key;
      assert AdvanceAll(w, t, ids).w.trace[i] == w1.trace[i];
    } else {
      assert SameTurn(w, w1, t, ids[k]) && ids[1..][k - 1] == ids[k];
      KeepsOwnPast(w, w1, t, ids, k);
      i := ChargeGoesOut(w1, t, ids[1..], k - 1);
    }
  }

  lemma KeepsOwnPast(w: World, w1: World, t: TickEnv, ids: seq<JourneyId>, k: nat)
    requires Ready(w, ids) && 1 <= k < |ids| && KeptByTurn(w, w1, t, ids[0])
    requires OwnOrFree(w.keys, Last(w.journeys[ids[k]]).key, OwnerOf(w.journeys[ids[k]], ids[k]))
    ensures OwnOrFree(w1.keys, Last(w.journeys[ids[k]]).key, OwnerOf(w.journeys[ids[k]], ids[k]))
    ensures |w.trace| <= |w1.trace|
  {
  }

  lemma TickSendsTurns(w: World, t: TickEnv, due: seq<JourneyId>)
    requires RowsApart(w) && Ready(w, due) && t.spec.automationEnabled
    ensures var sent, trace := AdvanceAll(w.(clock := t.now), t, due).w.trace, Tick(w, t, due).w.trace;
            w.trace <= sent <= trace && NoExecute(sent, trace)
  {
    var w0 := w.(clock := t.now);
    ClockKeepsReady(w, due, t.now);
    TurnsRaiseIff(w0, t, due);
    if !AdvanceAll(w0, t, due).raised {
      var w1 := AdvanceAll(w0, t, due).w;
      SettlingExecutesNothing(w1, t, 0);
      ExpiryCallsNothing(SettleFrom(w1, t, 0), t, 0);
    }
  }

  /** An action that was not executed is reserved by nobody. */
  lemma ChargeIsFree(w: World, t: TickEnv, id: JourneyId)
    requires Inv(w) && id < |w.journeys| && ChargesAt(w, t, id)
    ensures IdemKey(Last(w.journeys[id]).key) !in w.keys
  {
    assert JourneyOk(w, id);
    LastIsExecuted(id, w.journeys[id]);
    LastKeyIsOwn(w, id);
  }

  /** Whatever else holds of the book, an execute of a tick is a charge foreseen in its rows. */
  lemma SentWasCharged(w: World, t: TickEnv, due: seq<JourneyId>, i: nat) returns (k: nat)
    requires RowsApart(w) && Ready(w, due) && t.spec.automationEnabled
    requires |w.trace| <= i < |Tick(w, t, due).w.trace| && Tick(w, t, due).w.trace[i].ExecuteCall?
    ensures Reached(w, t, due, k) && ChargesAt(w, t, due[k])
    ensures Tick(w, t, due).w.trace[i].key == Last(w.journeys[due[k]]).key
  {
    var w0 := w.(clock := t.now);
    ClockKeepsReady(w, due, t.now);
    TickSendsTurns(w, t, due);
    assert Tick(w, t, due).w.trace[i] == AdvanceAll(w0, t, due).w.trace[i];
    k := SentBy(w0, t, due, AdvanceAll(w0, t, due).w.trace, i);
    ClockChangesNoTurn(w, t, due, t.now);
    assert SameTurn(w, w0, t, due[k]);
  }

  /** Whatever else holds of the book, a charge foreseen in its rows is sent unless somebody else
      holds the key. */
  lemma ChargedIsSent(w: World, t: TickEnv, due: seq<JourneyId>, k: nat)
    requires RowsApart(w) && Ready(w, due) && t.spec.automationEnabled
    requires Reached(w, t, due, k) && ChargesAt(w, t, due[k])
    requires OwnOrFree(w.keys, Last(w.journeys[due[k]]).key, OwnerOf(w.journeys[due[k]], due[k]))
    ensures Sends(w.trace, Tick(w, t, due).w.trace, Last(w.journeys[due[k]]).key)
  {
    var w0 := w.(clock := t.now);
    ClockKeepsReady(w, due, t.now);
    ClockChangesNoTurn(w, t, due, t.now);
    assert Reached(w0, t, due, k) && SameTurn(w, w0, t, due[k]);
    TickSendsTurns(w, t, due);
    var i := ChargeGoesOut(w0, t, due, k);
    assert Tick(w, t, due).w.trace[i] == AdvanceAll(w0, t, due).w.trace[i];
  }

  /** A tick executes something exactly when a due journey will be charged before anything raises. */
  lemma TickExecutesIff(w: World, t: TickEnv, due: seq<JourneyId>)
    requires Inv(w) && OpenBatch(w, due)
    ensures Executes(Tick(w, t, due).w.trace, |w.trace|) <==> TickCharges(w, t, due)
  {
    if t.spec.automationEnabled {
      InOrderIsReady(w, due);
      var trace := Tick(w, t, due).w.trace;
      if i :| |w.trace| <= i < |trace| && trace[i].ExecuteCall? {
        var k := SentWasCharged(w, t, due, i);
      }
      if k: nat :| k < |due| && Reached(w, t, due, k) && ChargesAt(w, t, due[k]) {
        ChargeIsFree(w, t, due[k]);
        ChargedIsSent(w, t, due, k);
      }
    }
  }

  // ----------------------------------------------------------------- what a rollback leaves

  /** Executed in `w`, seen from a call's key. */
  predicate ExecutedIn(j: Journey, sequence: nat) {
    sequence < |j.actions| && j.actions[sequence].executedAt.Some?
  }

  /** What separates two points of one tick: calls were only added, each new execute is of an
      action that had not been executed, and without one no action was executed. */
  ghost predicate Later(w: World, w': World) {
    && |w'.journeys| == |w.journeys| && w.trace <= w'.trace
    && (forall id, i :: 0 <= id < |w.journeys| && ExecutedIn(w.journeys[id], i) ==> ExecutedIn(w'.journeys[id], i))
    && (forall i :: |w.trace| <= i < |w'.trace| && w'.trace[i].ExecuteCall? ==>
          && w'.trace[i].key.ActionKey? && w'.trace[i].key.journey < |w.journeys|
          && !ExecutedIn(w.journeys[w'.trace[i].key.journey], w'.trace[i].key.sequence))
    && (!Executes(w'.trace, |w.trace|) ==>
          forall id, i :: 0 <= id < |w.journeys| && ExecutedIn(w'.journeys[id], i) ==> ExecutedIn(w.journeys[id], i))
  }

  lemma LaterIsTransitive(w: World, w1: World, w2: World)
    requires Later(w, w1) && Later(w1, w2)
    ensures Later(w, w2)
  {
    forall i | |w.trace| <= i < |w2.trace| && w2.trace[i].ExecuteCall?
      ensures w2.trace[i].key.ActionKey? && w2.trace[i].key.journey < |w.journeys|
      ensures !ExecutedIn(w.journeys[w2.trace[i].key.journey], w2.trace[i].key.sequence)
    {
      if i < |w1.trace| { assert w2.trace[i] == w1.trace[i]; }
    }
    if !Executes(w2.trace, |w.trace|) {
      assert !Executes(w2.trace, |w1.trace|);
      ExecutesStay(w1.trace, w2.trace, |w.trace|);
    }
  }

  lemma ExecutesStay(trace: seq<GatewayCall>, trace': seq<GatewayCall>, from: nat)
    requires trace <= trace'
    ensures Executes(trace, from) ==> Executes(trace', from)
  {
    if Executes(trace, from) {
      var i :| from <= i < |trace| && trace[i].ExecuteCall?;
      assert trace'[i] == trace[i];
    }
  }

  lemma TurnExecutes(c: Cell, c': Cell, env: Env)
    requires c.j.actions != [] && c'.j.actions != []
    requires c'.j.plan == c.j.plan && ActionsStep(c, c') && ExecutionStep(c, c', env.now) && TraceStep(c, c', env)
    ensures forall i :: ExecutedIn(c.j, i) ==> ExecutedIn(c'.j, i)
    ensures forall i :: |c.trace| <= i < |c'.trace| && c'.trace[i].ExecuteCall? ==>
              c'.trace[i].key == Last(c.j).key && Last(c.j).executedAt.None?
    ensures !Executes(c'.trace, |c.trace|) ==> forall i :: ExecutedIn(c'.j, i) ==> ExecutedIn(c.j, i)
  {
    TurnOnlyExecutes(c, c', env.now);
    var n, calls := |c.j.actions| - 1, c'.trace[|c.trace|..];
    assert forall i :: |c.trace| <= i < |c'.trace| ==> c'.trace[i] == calls[i - |c.trace|];
    if calls != [] && Last(c.j).executedAt.None? {
      assert calls[0].ExecuteCall? && c'.trace[|c.trace|] == calls[0];
    }
    forall i: nat | ExecutedIn(c'.j, i) && !Executes(c'.trace, |c.trace|) ensures ExecutedIn(c.j, i) {
      if i < n { assert c'.j.actions[i] == c'.j.actions[..n][i] == c.j.actions[..n][i]; }
    }
  }

  lemma TurnIsLater(w: World, t: TickEnv, id: JourneyId)
    requires Inv(w) && id < |w.journeys| && Open(w.journeys[id])
    ensures Later(w, AdvanceOne(w, t, id).w)
  {
    assert EventRowOk(w, w.events[w.journeys[id].event]);
    assert JourneyOk(w, id);
    var c, env := CellOf(w, id), TurnEnv(w, t, id);
    if Advance(c, env).Some? {
      AdvanceRests(c, env);
      var c' := Advance(c, env).value;
      FootprintActions(c, c', env);
      TurnExecutes(c, c', env);
      LastKeyIsOwn(w, id);
      var n := |c.j.actions| - 1;
      assert ActionOk(id, c.j.plan, n, c.j.actions[n]);
      CellIsLater(w, id, c');
    }
  }

  lemma CellIsLater(w: World, id: JourneyId, c': Cell)
    requires RowsExist(w, id) && w.trace <= c'.trace
    requires forall i :: ExecutedIn(w.journeys[id], i) ==> ExecutedIn(c'.j, i)
    requires forall i :: |w.trace| <= i < |c'.trace| && c'.trace[i].ExecuteCall? ==>
               && c'.trace[i].key.ActionKey? && c'.trace[i].key.journey == id
               && !ExecutedIn(w.journeys[id], c'.trace[i].key.sequence)
    requires !Executes(c'.trace, |w.trace|) ==> forall i :: ExecutedIn(c'.j, i) ==> ExecutedIn(w.journeys[id], i)
    ensures Later(w, WithCell(w, id, c'))
  {
  }

  lemma {:induction false} TurnsAreLater(w: World, t: TickEnv, ids: seq<JourneyId>)
    requires Inv(w) && OpenBatch(w, ids)
    ensures Inv(AdvanceAll(w, t, ids).w) && Later(w, AdvanceAll(w, t, ids).w)
    decreases |ids|
  {
    if ids != [] {
      TurnIsLater(w, t, ids[0]);
      if !AdvanceOne(w, t, ids[0]).raised {
        AdvanceOneKeepsInv(w, t, ids[0]);
        AdvanceOneFrame(w, t, ids[0]);
        var w' := AdvanceOne(w, t, ids[0]).w;
        assert forall i :: 0 <= i < |ids[1..]| ==> ids[1..][i] == ids[i + 1];
        TurnsAreLater(w', t, ids[1..]);
        LaterIsTransitive(w, w', AdvanceAll(w', t, ids[1..]).w);
      }
    }
  }

  lemma {:induction false} SettlingIsLater(w: World, t: TickEnv, from: nat)
    requires Inv(w)
    ensures Later(w, SettleFrom(w, t, from))
    decreases |w.events| - from
  {
    if from < |w.events| {
      if Settles(w.events[from], t) {
        var w' := SettleOne(w, t, from);
        SettleOneKeepsInv(w, t, from);
        assert Later(w, w');
        SettlingIsLater(w', t, from + 1);
        LaterIsTransitive(w, w', SettleFrom(w', t, from + 1));
      } else {
        SettlingIsLater(w, t, from + 1);
      }
    }
  }

  lemma ExpireOneIsLater(w: World, t: TickEnv, id: JourneyId)
    requires Inv(w) && id < |w.journeys| && Open(w.journeys[id]) && !ExpireOne(w, t, id).raised
    ensures Later(w, ExpireOne(w, t, id).w)
  {
    assert EventRowOk(w, w.events[w.journeys[id].event]);
    assert JourneyOk(w, id);
    ExpireRests(id, CellOf(w, id), t.now);
    CellIsLater(w, id, ExpireCell(CellOf(w, id), t.now).value);
  }

  lemma {:induction false} ExpiryIsLater(w: World, t: TickEnv, from: nat)
    requires Inv(w)
    ensures Inv(ExpireFrom(w, t, from).w) && Later(w, ExpireFrom(w, t, from).w)
    decreases |w.journeys| - from
  {
    if from < |w.journeys| {
      if Stale(w.journeys[from], t) {
        if !ExpireOne(w, t, from).raised {
          ExpireOneKeepsInv(w, t, from);
          ExpireOneIsLater(w, t, from);
          var w' := ExpireOne(w, t, from).w;
          ExpiryIsLater(w', t, from + 1);
          LaterIsTransitive(w, w', ExpireFrom(w', t, from + 1).w);
        }
      } else {
        ExpiryIsLater(w, t, from + 1);
      }
    }
  }

  lemma TickBodyIsLater(w: World, t: TickEnv, due: seq<JourneyId>)
    requires Inv(w) && OpenBatch(w, due)
    ensures Inv(TickBody(w, t, due).w) && Later(w, TickBody(w, t, due).w)
  {
    var w0 := w.(clock := t.now);
    ClockIsFree(w, t.now);
    TurnsAreLater(w0, t, due);
    assert Later(w, w0);
    LaterIsTransitive(w, w0, AdvanceAll(w0, t, due).w);
    if !AdvanceAll(w0, t, due).raised {
      var w1 := AdvanceAll(w0, t, due).w;
      SettleKeepsInv(w1, t, 0);
      var w2 := SettleFrom(w1, t, 0);
      SettlingIsLater(w1, t, 0);
      LaterIsTransitive(w, w1, w2);
      ExpiryIsLater(w2, t, 0);
      LaterIsTransitive(w, w2, ExpireFrom(w2, t, 0).w);
    }
  }

  /** A cell whose tables are older than its key store and its calls. */
  lemma OldRowKeeps(id: JourneyId, c: Cell, c': Cell)
    requires CellOk(id, c) && c'.j == c.j && c'.ev == c.ev && c'.gw.unresolved == {}
    requires c.trace <= c'.trace
    requires forall i :: |c.trace| <= i < |c'.trace| ==> !c'.trace[i].ExecuteCall?
    requires StoreOk(id, c.j, c'.keys)
    ensures CellOk(id, c')
  {
    forall i | 0 <= i < |c'.trace| && OwnExecute(id, c'.trace[i]) ensures CallMatches(c'.j, c'.trace[i]) {
      assert i < |c.trace| && c'.trace[i] == c.trace[i];
    }
    if Last(c.j).status == Succeeded {
      var i :| 0 <= i < |c.trace| && c.trace[i].key == Last(c.j).key && Success(c.trace[i]);
      assert c'.trace[i] == c.trace[i];
    }
  }

  lemma OldStoreOk(w: World, w': World, id: JourneyId)
    requires Inv(w) && Inv(w') && Later(w, w') && !Executes(w'.trace, |w.trace|) && id < |w.journeys|
    requires w'.journeys[id].plan == w.journeys[id].plan
    ensures StoreOk(id, w.journeys[id], w'.keys)
  {
    assert JourneyOk(w, id) && JourneyOk(w', id);
    forall key | IdemKey(key) in w'.keys && key.ActionKey? && key.journey == id
      ensures key.sequence < |w.journeys[id].actions| && w.journeys[id].actions[key.sequence].key == key
      ensures w.journeys[id].actions[key.sequence].executedAt.Some?
    {
      assert ExecutedIn(w'.journeys[id], key.sequence);
      assert ExecutedIn(w.journeys[id], key.sequence);
      assert ActionOk(id, w.journeys[id].plan, key.sequence, w.journeys[id].actions[key.sequence]);
      assert ActionOk(id, w'.journeys[id].plan, key.sequence, w'.journeys[id].actions[key.sequence]);
    }
  }

  /** Plans do not change during a tick. */
  predicate SamePlans(w: World, w': World) {
    |w'.journeys| == |w.journeys| && forall id :: 0 <= id < |w.journeys| ==> w'.journeys[id].plan == w.journeys[id].plan
  }

  lemma TurnKeepsPlan(w: World, t: TickEnv, id: JourneyId)
    requires Inv(w) && id < |w.journeys| && Open(w.journeys[id]) && !AdvanceOne(w, t, id).raised
    ensures SamePlans(w, AdvanceOne(w, t, id).w)
  {
    assert EventRowOk(w, w.events[w.journeys[id].event]);
    assert JourneyOk(w, id);
    AdvanceRests(CellOf(w, id), TurnEnv(w, t, id));
  }

  lemma ExpireOneKeepsPlan(w: World, t: TickEnv, id: JourneyId)
    requires Inv(w) && id < |w.journeys| && Open(w.journeys[id]) && !ExpireOne(w, t, id).raised
    ensures SamePlans(w, ExpireOne(w, t, id).w)
  {
    assert EventRowOk(w, w.events[w.journeys[id].event]);
    assert JourneyOk(w, id);
    ExpireRests(id, CellOf(w, id), t.now);
  }

  lemma {:induction false} TurnsKeepPlans(w: World, t: TickEnv, ids: seq<JourneyId>)
    requires Inv(w) && OpenBatch(w, ids)
    ensures SamePlans(w, AdvanceAll(w, t, ids).w)
    decreases |ids|
  {
    if ids != [] && !AdvanceOne(w, t, ids[0]).raised {
      TurnKeepsPlan(w, t, ids[0]);
      AdvanceOneKeepsInv(w, t, ids[0]);
      AdvanceOneFrame(w, t, ids[0]);
      assert forall i :: 0 <= i < |ids[1..]| ==> ids[1..][i] == ids[i + 1];
      TurnsKeepPlans(AdvanceOne(w, t, ids[0]).w, t, ids[1..]);
    }
  }

  lemma {:induction false} ExpiryKeepsPlans(w: World, t: TickEnv, from: nat)
    requires Inv(w)
    ensures SamePlans(w, ExpireFrom(w, t, from).w)
    decreases |w.journeys| - from
  {
    if from < |w.journeys| {
      if Stale(w.journeys[from], t) {
        if !ExpireOne(w, t, from).raised {
          ExpireOneKeepsPlan(w, t, from);
          ExpireOneKeepsInv(w, t, from);
          ExpiryKeepsPlans(ExpireOne(w, t, from).w, t, from + 1);
        }
      } else {
        ExpiryKeepsPlans(w, t, from + 1);
      }
    }
  }

  lemma TickKeepsPlans(w: World, t: TickEnv, due: seq<JourneyId>)
    requires Inv(w) && OpenBatch(w, due)
    ensures SamePlans(w, TickBody(w, t, due).w)
  {
    var w0 := w.(clock := t.now);
    ClockIsFree(w, t.now);
    TurnsKeepPlans(w0, t, due);
    if !AdvanceAll(w0, t, due).raised {
      var w1 := AdvanceAll(w0, t, due).w;
      AdvanceAllKeepsInv(w0, t, due);
      SettleKeepsInv(w1, t, 0);
      ExpiryKeepsPlans(SettleFrom(w1, t, 0), t, 0);
    }
  }

  lemma RolledBackTrace(w: World, w': World)
    requires Inv(w) && Inv(w') && Later(w, w')
    ensures TraceSound(RolledBack(w, w')) && KeysSound(RolledBack(w, w'))
  {
    var r := RolledBack(w, w');
    forall i | 0 <= i < |r.trace| ensures CallOk(r.trace, i) && KnownCall(r, r.trace[i]) {
      assert CallOk(w'.trace, i) && KnownCall(w', w'.trace[i]);
    }
  }

  lemma RolledBackRows(w: World, w': World)
    requires Inv(w) && Inv(w') && Later(w, w') && SamePlans(w, w') && !Executes(w'.trace, |w.trace|)
    ensures var r := RolledBack(w, w');
            forall id :: 0 <= id < |w.journeys| ==> RowsExist(r, id) && JourneyOk(r, id)
  {
    var r := RolledBack(w, w');
    forall id | 0 <= id < |w.journeys| ensures RowsExist(r, id) && JourneyOk(r, id) {
      assert EventRowOk(w, w.events[w.journeys[id].event]);
      assert JourneyOk(w, id);
      OldStoreOk(w, w', id);
      OldRowKeeps(id, CellOf(w, id), CellOf(r, id));
    }
  }

  lemma RolledBackLedger(w: World, w': World)
    requires Inv(w)
    ensures TablesOk(RolledBack(w, w')) && LedgerSound(RolledBack(w, w'))
  {
    var r := RolledBack(w, w');
    forall e | 0 <= e < |r.events| ensures EventRowOk(r, r.events[e]) { assert EventRowOk(w, w.events[e]); }
    forall p | 0 <= p < |r.ledger| ensures EntryOk(r, r.ledger[p]) { assert EntryOk(w, w.ledger[p]); }
    forall id | 0 <= id < |r.journeys| && r.journeys[id].actions != [] && Last(r.journeys[id]).status == Succeeded
      ensures Booked(r.ledger, id)
    {
      assert Booked(w.ledger, id);
    }
  }

  /** After a tick that raised, the book is in order exactly when no due journey was to be charged
      before the first stuck one, or at all if only the expiry raises. Otherwise an action that went
      out is recorded as if it had not. */
  lemma RollbackKeepsInvIff(w: World, t: TickEnv, due: seq<JourneyId>)
    requires Inv(w) && OpenBatch(w, due) && TickRaises(w, t, due)
    ensures Tick(w, t, due).raised
    ensures Inv(Tick(w, t, due).w) <==> !TickCharges(w, t, due)
  {
    AnyTickRaisesIff(w, t, due);
    TickExecutesIff(w, t, due);
    UnexecutedRollbackIff(w, t, due);
  }

  lemma UnexecutedRollbackIff(w: World, t: TickEnv, due: seq<JourneyId>)
    requires Inv(w) && OpenBatch(w, due) && Tick(w, t, due).raised
    ensures Inv(Tick(w, t, due).w) <==> !Executes(Tick(w, t, due).w.trace, |w.trace|)
  {
    var w' := TickBody(w, t, due).w;
    var r := RolledBack(w, w');
    TickBodyIsLater(w, t, due);
    TickKeepsPlans(w, t, due);
    if Executes(r.trace, |w.trace|) {
      var i :| |w.trace| <= i < |r.trace| && r.trace[i].ExecuteCall?;
      var id := r.trace[i].key.journey;
      if Inv(r) {
        assert EventRowOk(r, r.events[r.journeys[id].event]);
        assert JourneyOk(r, id) && OwnExecute(id, r.trace[i]);
        assert false;
      }
    } else {
      RolledBackTrace(w, w');
      RolledBackRows(w, w');
      RolledBackLedger(w, w');
    }
  }
}
