/** Supervised runs make progress: however operations come, a journey that gets its turns ends closed
    or in a human's hands. */
module Progress {
  import opened Domain
  import opened Rows
  import opened Policy
  import Decision
  import opened Journey
  import opened Recovery
  import opened RecoveryProofs
  import opened TurnLimits
  import opened Orchestrator
  import opened Safety
  import opened Operations
  import opened Raises
  import opened Runs

  // ------------------------------------------------------------------- nearer to the end

  predicate Measured(j: Journey) { j.actions != [] && j.stepIndex < |j.plan| }

  /** The journey is handled, or no further from its end than before, and closer if it had a turn. */
  predicate Nears(j: Journey, j': Journey, turned: bool) {
    && (Handled(j) ==> Handled(j'))
    && (!Handled(j) ==>
          Handled(j') || (Measured(j) && Measured(j') && Remaining(j') + One(turned) <= Remaining(j)))
  }

  lemma NearsOn(j: Journey, j1: Journey, j2: Journey, turned: bool, later: bool)
    requires Nears(j, j1, turned) && Nears(j1, j2, later)
    ensures Nears(j, j2, turned || later)
  {
  }

  lemma StaysNear(w: World, id: JourneyId, j': Journey)
    requires Inv(w) && id < |w.journeys|
    requires j' == w.journeys[id].(nextActionAt := j'.nextActionAt) || j'.state == Closed
    ensures Nears(w.journeys[id], j', false)
  {
    assert EventRowOk(w, w.events[w.journeys[id].event]);
    assert JourneyOk(w, id);
  }

  /** Whether the clock holds up a turn can be told from the journey's row. */
  lemma SameWait(c: Cell, c': Cell, env: Env, env': Env)
    requires c'.j == c.j && c.j.actions != [] && env'.now == env.now && env'.speedup == env.speedup
    ensures WaitsForClock(c', env') <==> WaitsForClock(c, env)
  {
  }

  // --------------------------------------------------------------------------- a turn

  lemma WaitingTurn(c: Cell, env: Env)
    requires CellOk(env.id, c) && Open(c.j) && Legal(c.j) && WaitsForClock(c, env)
    ensures Advance(c, env).Some?
    ensures var j := Advance(c, env).value.j;
            Measured(j) && Open(j) && Last(j) == Last(c.j) && Remaining(j) == Remaining(c.j)
  {
  }

  lemma TurnNearsEnd(c: Cell, env: Env)
    requires CellOk(env.id, c) && Open(c.j) && Legal(c.j) && Advance(c, env).Some?
    ensures Nears(c.j, Advance(c, env).value.j, !WaitsForClock(c, env))
  {
    if Handled(c.j) {
      HandledStays(env.id, Turning(c, env));
    } else if WaitsForClock(c, env) {
      WaitingTurn(c, env);
    } else {
      TurnNears(env.id, Turning(c, env));
    }
  }

  /** The tick gives this journey a turn that the clock does not hold up. */
  predicate Moves(w: World, t: TickEnv, ids: seq<JourneyId>, id: JourneyId) {
    id in ids && RowsExist(w, id) && w.journeys[id].actions != [] && !WaitsForClock(CellOf(w, id), TurnEnv(w, t, id))
  }

  lemma AdvanceOneNears(w: World, t: TickEnv, id: JourneyId)
    requires Inv(w) && Fine(w, t.spec, true) && id < |w.journeys| && Open(w.journeys[id])
    requires !AdvanceOne(w, t, id).raised
    ensures RowsExist(w, id) && w.journeys[id].actions != [] && id < |AdvanceOne(w, t, id).w.journeys|
    ensures Nears(w.journeys[id], AdvanceOne(w, t, id).w.journeys[id], !WaitsForClock(CellOf(w, id), TurnEnv(w, t, id)))
  {
    assert EventRowOk(w, w.events[w.journeys[id].event]);
    assert JourneyOk(w, id);
    TurnNearsEnd(CellOf(w, id), TurnEnv(w, t, id));
  }

  lemma RestMoves(w: World, w1: World, t: TickEnv, ids: seq<JourneyId>, id: JourneyId)
    requires Inv(w) && Inv(w1) && OpenBatch(w, ids) && ids != [] && id < |w.journeys| == |w1.journeys|
    requires id != ids[0] ==> w1.journeys[id] == w.journeys[id]
    ensures Moves(w, t, ids, id) <==> if id == ids[0] then Moves(w, t, [id], id) else Moves(w1, t, ids[1..], id)
    ensures id == ids[0] ==> id !in ids[1..]
  {
    assert ids == [ids[0]] + ids[1..];
    if id != ids[0] {
      assert EventRowOk(w, w.events[w.journeys[id].event]) && EventRowOk(w1, w1.events[w1.journeys[id].event]);
      assert JourneyOk(w, id);
      SameWait(CellOf(w, id), CellOf(w1, id), TurnEnv(w, t, id), TurnEnv(w1, t, id));
    }
  }

  lemma {:induction false} TurnsNear(w: World, t: TickEnv, ids: seq<JourneyId>, id: JourneyId)
    requires Inv(w) && Fine(w, t.spec, true) && OpenBatch(w, ids) && id < |w.journeys|
    requires !AdvanceAll(w, t, ids).raised
    ensures id < |AdvanceAll(w, t, ids).w.journeys|
    ensures Nears(w.journeys[id], AdvanceAll(w, t, ids).w.journeys[id], Moves(w, t, ids, id))
    decreases |ids|
  {
    if ids == [] {
      StaysNear(w, id, w.journeys[id]);
    } else {
      FirstTurnNears(w, t, ids, id);
      var w1 := AdvanceOne(w, t, ids[0]).w;
      TurnsNear(w1, t, ids[1..], id);
      RestMoves(w, w1, t, ids, id);
      NearsOn(w.journeys[id], w1.journeys[id], AdvanceAll(w, t, ids).w.journeys[id],
              id == ids[0] && Moves(w, t, [id], id), Moves(w1, t, ids[1..], id));
    }
  }

  lemma FirstTurnNears(w: World, t: TickEnv, ids: seq<JourneyId>, id: JourneyId)
    requires Inv(w) && Fine(w, t.spec, true) && OpenBatch(w, ids) && ids != [] && id < |w.journeys|
    requires !AdvanceOne(w, t, ids[0]).raised
    ensures var w1 := AdvanceOne(w, t, ids[0]).w;
            && Inv(w1) && Fine(w1, t.spec, true) && OpenBatch(w1, ids[1..]) && |w1.journeys| == |w.journeys|
            && Nears(w.journeys[id], w1.journeys[id], id == ids[0] && Moves(w, t, [id], id))
            && (id != ids[0] ==> w1.journeys[id] == w.journeys[id])
  {
    AdvanceOneKeepsInv(w, t, ids[0]);
    AdvanceOneKeepsFine(w, t, ids[0], true);
    AdvanceOneFrame(w, t, ids[0]);
    assert forall i :: 0 <= i < |ids[1..]| ==> ids[1..][i] == ids[i + 1];
    if id == ids[0] { AdvanceOneNears(w, t, id); } else { StaysNear(w, id, w.journeys[id]); }
  }

  // ---------------------------------------------------------------------- an operation

  lemma {:induction false} SettleKeepsRows(w: World, t: TickEnv, from: nat)
    ensures SettleFrom(w, t, from).journeys == w.journeys
    decreases |w.events| - from
  {
    if from < |w.events| {
      SettleKeepsRows(if Settles(w.events[from], t) then SettleOne(w, t, from) else w, t, from + 1);
    }
  }

  /** A row that expiry has left alone, or closed. */
  predicate SameOrClosed(w: World, w': World, id: JourneyId) {
    && id < |w.journeys| == |w'.journeys|
    && (w'.journeys[id] == w.journeys[id] || w'.journeys[id].state == Closed)
  }

  lemma {:induction false} ExpiryCloses(w: World, t: TickEnv, from: nat, id: JourneyId)
    requires id < |w.journeys|
    ensures SameOrClosed(w, ExpireFrom(w, t, from).w, id)
    decreases |w.journeys| - from
  {
    if from < |w.journeys| {
      if Stale(w.journeys[from], t) {
        ExpireOneCloses(w, t, from, id);
        var r := ExpireOne(w, t, from);
        if !r.raised { ExpiryCloses(r.w, t, from + 1, id); }
      } else {
        ExpiryCloses(w, t, from + 1, id);
      }
    }
  }

  lemma ExpireOneCloses(w: World, t: TickEnv, from: JourneyId, id: JourneyId)
    requires id < |w.journeys|
    ensures SameOrClosed(w, ExpireOne(w, t, from).w, id)
  {
  }

  lemma TickNears(w: World, t: TickEnv, due: seq<JourneyId>, id: JourneyId)
    requires Inv(w) && Fine(w, t.spec, true) && OpenBatch(w, due) && id < |w.journeys|
    requires !(TickRaises(w, t, due) && TickCharges(w, t, due))
    ensures id < |Tick(w, t, due).w.journeys|
    ensures Nears(w.journeys[id], Tick(w, t, due).w.journeys[id],
                  t.spec.automationEnabled && !TickRaises(w, t, due) && Moves(w, t, due, id))
  {
    AnyTickRaisesIff(w, t, due);
    if t.spec.automationEnabled && !TickRaises(w, t, due) {
      TickBodyNears(w, t, due, id);
    } else {
      StaysNear(w, id, w.journeys[id]);
    }
  }

  lemma TickBodyNears(w: World, t: TickEnv, due: seq<JourneyId>, id: JourneyId)
    requires Inv(w) && Fine(w, t.spec, true) && OpenBatch(w, due) && id < |w.journeys| && !TickBody(w, t, due).raised
    ensures id < |TickBody(w, t, due).w.journeys|
    ensures Nears(w.journeys[id], TickBody(w, t, due).w.journeys[id], Moves(w, t, due, id))
  {
    var w0 := w.(clock := t.now);
    ClockIsFree(w, t.now);
    SameFine(w, w0, t.spec, true);
    TurnsNear(w0, t, due, id);
    AdvanceAllKeepsInv(w0, t, due);
    var w1 := AdvanceAll(w0, t, due).w;
    SettleKeepsRows(w1, t, 0);
    ExpiryCloses(SettleFrom(w1, t, 0), t, 0, id);
    StaysNear(w1, id, TickBody(w, t, due).w.journeys[id]);
    assert Moves(w0, t, due, id) <==> Moves(w, t, due, id) by { ClockMovesNobody(w, t, due, id); }
    NearsOn(w.journeys[id], w1.journeys[id], TickBody(w, t, due).w.journeys[id], Moves(w0, t, due, id), false);
  }

  lemma ClockMovesNobody(w: World, t: TickEnv, due: seq<JourneyId>, id: JourneyId)
    ensures Moves(w.(clock := t.now), t, due, id) <==> Moves(w, t, due, id)
  {
    if RowsExist(w, id) && w.journeys[id].actions != [] {
      var w0 := w.(clock := t.now);
      SameWait(CellOf(w, id), CellOf(w0, id), TurnEnv(w, t, id), TurnEnv(w0, t, id));
    }
  }

  lemma {:induction false} ScanKeepsRow(w: World, s: ScanEnv, ids: seq<EventId>, id: JourneyId)
    requires id < |w.journeys|
    ensures id < |ScanAll(w, s, ids).0.journeys| && ScanAll(w, s, ids).0.journeys[id] == w.journeys[id]
    decreases |ids|
  {
    if ids != [] {
      if Scannable(w, s, ids[0]) {
        ScanOneKeepsRow(w, s, ids[0], id);
        ScanKeepsRow(ScanOne(w, s, ids[0]).0, s, ids[1..], id);
      } else {
        ScanKeepsRow(w, s, ids[1..], id);
      }
    }
  }

  lemma ScanOneKeepsRow(w: World, s: ScanEnv, e: EventId, id: JourneyId)
    requires id < |w.journeys| && Scannable(w, s, e)
    ensures id < |ScanOne(w, s, e).0.journeys| && ScanOne(w, s, e).0.journeys[id] == w.journeys[id]
  {
    if WorthPursuing(w.events[e], w.customers[w.events[e].customer], s.spec) {
      ActOnKeepsRow(w, s, e, Diagnosed(w.events[e], s.facts[e]), Assess(w, s, e), id);
    }
  }

  lemma ActOnKeepsRow(w: World, s: ScanEnv, e: EventId, d: Event, outcome: Decision.Outcome, id: JourneyId)
    requires Scannable(w, s, e) && (outcome.chosen.action != DoNothing ==> outcome.plan != []) && id < |w.journeys|
    ensures id < |ActOn(w, s, e, d, outcome).0.journeys| && ActOn(w, s, e, d, outcome).0.journeys[id] == w.journeys[id]
  {
  }

  /** A human decides on this journey. */
  predicate Decides(op: Op, id: JourneyId) {
    (op.ApproveOp? || op.CommandOp?) && op.id == id
  }

  /** The operation is a tick that does not raise and gives this journey a turn that the clock does not
      hold up. */
  predicate TurnOf(w: World, op: Op, id: JourneyId) {
    && op.TickOp? && op.tick.spec.automationEnabled && !TickRaises(w, op.tick, op.due)
    && Moves(w, op.tick, op.due, id)
  }

  lemma StepNears(w: World, op: Op, spec: PolicySpec, id: JourneyId)
    requires Inv(w) && Fine(w, spec, true) && Orderly(w, op, spec) && id < |w.journeys| && !Decides(op, id)
    ensures id < |Do(w, op).w.journeys| && Nears(w.journeys[id], Do(w, op).w.journeys[id], TurnOf(w, op, id))
  {
    match op
    case ScanOp(scan, ids) =>
      ScanKeepsRow(w.(clock := scan.now), scan, ids, id);
      StaysNear(w, id, w.journeys[id]);
    case TickOp(tick, due) => TickNears(w, tick, due, id);
    case ApproveOp(_, _) => StaysNear(w, id, w.journeys[id]);
    case CommandOp(_, _, _) => StaysNear(w, id, w.journeys[id]);
  }

  // ------------------------------------------------------------------------------ a run

  /** The turns a journey gets in a run, those not counted that the clock holds up or that a raise
      undoes. */
  function Turns(w: World, ops: seq<Op>, id: JourneyId): nat
    decreases |ops|
  {
    if ops == [] then 0 else One(TurnOf(w, ops[0], id)) + Turns(Do(w, ops[0]).w, ops[1..], id)
  }

  /** Operations of supervised runs among which no human decides on this journey. */
  predicate LeftAlone(ops: seq<Op>, id: JourneyId) {
    forall i :: 0 <= i < |ops| ==> Supervised(ops[i]) && !Decides(ops[i], id)
  }

  lemma {:induction false} RunNears(w: World, ops: seq<Op>, spec: PolicySpec, id: JourneyId)
    requires Inv(w) && Fine(w, spec, true) && OrderlyRun(w, ops, spec) && LeftAlone(ops, id) && id < |w.journeys|
    ensures id < |Final(w, ops).journeys|
    ensures var j, j' := w.journeys[id], Final(w, ops).journeys[id];
            Handled(j') || (!Handled(j) && Measured(j) && Measured(j') && Remaining(j') + Turns(w, ops, id) <= Remaining(j))
    decreases |ops|
  {
    if ops == [] {
      StaysNear(w, id, w.journeys[id]);
    } else {
      StepNears(w, ops[0], spec, id);
      StepKeepsOrder(w, ops[0], spec, true);
      assert forall i :: 0 <= i < |ops[1..]| ==> ops[1..][i] == ops[i + 1];
      RunNears(Do(w, ops[0]).w, ops[1..], spec, id);
    }
  }

  /** From any state a supervised run can reach, whatever scans, ticks and decisions about other journeys
      come in whatever order: a journey that has had as many turns as its measure, which is at most four
      for each step of its plan, is closed or waits for a human. */
  lemma JourneysComeToAnEnd(w: World, start: World, before: seq<Op>, ops: seq<Op>, spec: PolicySpec, id: JourneyId)
    requires Reachable(w, start, before, spec) && (forall i :: 0 <= i < |before| ==> Supervised(before[i]))
    requires OrderlyRun(w, ops, spec) && LeftAlone(ops, id) && id < |w.journeys|
    ensures Measured(w.journeys[id]) && Remaining(w.journeys[id]) <= 4 * |w.journeys[id].plan| <= 16
    ensures id < |Final(w, ops).journeys|
    ensures Turns(w, ops, id) >= Remaining(w.journeys[id]) ==> Handled(Final(w, ops).journeys[id])
  {
    UntouchedIsFine(start, spec);
    RunKeepsOrder(start, before, spec, true);
    assert EventRowOk(w, w.events[w.journeys[id].event]);
    assert JourneyOk(w, id);
    RunNears(w, ops, spec, id);
    RunKeepsOrder(w, ops, spec, true);
    EndsHandled(Final(w, ops), id);
  }

  /** A journey that nothing remains of is closed. */
  lemma EndsHandled(w: World, id: JourneyId)
    requires Inv(w) && id < |w.journeys|
    ensures Measured(w.journeys[id]) && (Remaining(w.journeys[id]) == 0 ==> Handled(w.journeys[id]))
  {
    assert EventRowOk(w, w.events[w.journeys[id].event]);
    assert JourneyOk(w, id);
  }
}
