/** Every retry that reached the gateway is on its mandate's ledger, and nothing else is. */
module Presentations {
  import opened Domain
  import opened Rows
  import opened Policy
  import Decision
  import opened Journey
  import opened Gateway
  import opened Recovery
  import opened RecoveryProofs
  import opened TurnLimits
  import opened Orchestrator
  import opened Safety
  import opened Operations
  import opened Raises

  /** A retry that went out for an event of this mandate. */
  predicate IsPresentation(call: GatewayCall, events: EventTable, m: MandateId) {
    && call.ExecuteCall? && call.ask.action == RetryPayment
    && call.event < |events| && events[call.event].mandate == Some(m)
  }

  function Presented(trace: seq<GatewayCall>, events: EventTable, m: MandateId): set<int> {
    set i | 0 <= i < |trace| && IsPresentation(trace[i], events, m)
  }

  predicate SameMandates(w: World, start: World) {
    |w.events| == |start.events| && forall e :: 0 <= e < |w.events| ==> w.events[e].mandate == start.events[e].mandate
  }

  /** The attempts of every mandate are those it started with and one for each presentation. */
  predicate Counted(w: World, start: World) {
    && SameMandates(w, start) && |w.mandates| == |start.mandates|
    && forall m :: 0 <= m < |w.mandates| ==>
         w.mandates[m].attemptsUsed == start.mandates[m].attemptsUsed + |Presented(w.trace, start.events, m)|
  }

  // ------------------------------------------------------------------ one cell changes

  lemma PresentedNext(trace: seq<GatewayCall>, call: GatewayCall, events: EventTable, m: MandateId)
    ensures |Presented(trace + [call], events, m)|
            == |Presented(trace, events, m)| + One(IsPresentation(call, events, m))
  {
    var before, after := Presented(trace, events, m), Presented(trace + [call], events, m);
    if IsPresentation(call, events, m) {
      assert after == before + {|trace|};
    } else {
      assert after == before;
    }
  }

  lemma PresentedNone(trace: seq<GatewayCall>, trace': seq<GatewayCall>, events: EventTable, m: MandateId)
    requires trace <= trace' && forall i :: |trace| <= i < |trace'| ==> !trace'[i].ExecuteCall?
    ensures Presented(trace', events, m) == Presented(trace, events, m)
  {
  }

  /** One execute, and the query that may follow it. */
  lemma PresentedCalls(trace: seq<GatewayCall>, calls: seq<GatewayCall>, events: EventTable, m: MandateId)
    requires calls != [] && |calls| <= 2 && (|calls| == 2 ==> calls[1].FetchCall?)
    ensures |Presented(trace + calls, events, m)|
            == |Presented(trace, events, m)| + One(IsPresentation(calls[0], events, m))
  {
    PresentedNext(trace, calls[0], events, m);
    if |calls| == 2 {
      PresentedNext(trace + [calls[0]], calls[1], events, m);
      assert trace + [calls[0]] + [calls[1]] == trace + calls;
    } else {
      assert [calls[0]] == calls;
    }
  }

  /** Where nothing was executed and no mandate changed, the count stands. */
  lemma SameCount(w: World, w': World, start: World)
    requires Counted(w, start) && w'.mandates == w.mandates && SameMandates(w', start)
    requires w.trace <= w'.trace && forall i :: |w.trace| <= i < |w'.trace| ==> !w'.trace[i].ExecuteCall?
    ensures Counted(w', start)
  {
    forall m: MandateId | m < |w.mandates|
      ensures Presented(w'.trace, start.events, m) == Presented(w.trace, start.events, m)
    {
      PresentedNone(w.trace, w'.trace, start.events, m);
    }
  }

  /** The turn put one more attempt on the ledger of its mandate. */
  predicate PresentedNow(c: Cell, c': Cell)
    requires c.j.actions != [] && |c.j.actions| <= |c'.j.actions|
  {
    Last(c.j).kind == RetryPayment && NewlyExecuted(c, c')
  }

  lemma TurnPresents(c: Cell, c': Cell, env: Env, events: EventTable, m: MandateId)
    requires Footprint(c, c', env) && c.j.event < |events|
    ensures |Presented(c'.trace, events, m)|
            == |Presented(c.trace, events, m)| + One(PresentedNow(c, c') && events[c.j.event].mandate == Some(m))
  {
    var calls := c'.trace[|c.trace|..];
    assert c'.trace == c.trace + calls;
    if calls == [] {
      assert c'.trace == c.trace;
    } else {
      PresentedCalls(c.trace, calls, events, m);
    }
  }

  lemma CellKeepsCount(w: World, start: World, id: JourneyId, c': Cell, env: Env)
    requires Counted(w, start) && RowsExist(w, id) && Footprint(CellOf(w, id), c', env)
    ensures Counted(WithCell(w, id, c'), start)
  {
    var c, w' := CellOf(w, id), WithCell(w, id, c');
    forall m: MandateId | m < |w.mandates|
      ensures w'.mandates[m].attemptsUsed == start.mandates[m].attemptsUsed + |Presented(w'.trace, start.events, m)|
    {
      TurnPresents(c, c', env, start.events, m);
    }
  }

  // --------------------------------------------------------------------------- ticks

  lemma AdvanceOneKeepsCount(w: World, start: World, t: TickEnv, id: JourneyId)
    requires Inv(w) && Counted(w, start) && id < |w.journeys| && Open(w.journeys[id])
    requires !AdvanceOne(w, t, id).raised
    ensures Counted(AdvanceOne(w, t, id).w, start)
  {
    assert EventRowOk(w, w.events[w.journeys[id].event]);
    assert JourneyOk(w, id);
    var c, env := CellOf(w, id), TurnEnv(w, t, id);
    AdvanceRests(c, env);
    CellKeepsCount(w, start, id, Advance(c, env).value, env);
  }

  lemma {:induction false} AdvanceAllKeepsCount(w: World, start: World, t: TickEnv, ids: seq<JourneyId>)
    requires Inv(w) && Counted(w, start) && OpenBatch(w, ids) && !AdvanceAll(w, t, ids).raised
    ensures Counted(AdvanceAll(w, t, ids).w, start)
    decreases |ids|
  {
    if ids != [] {
      AdvanceOneKeepsInv(w, t, ids[0]);
      AdvanceOneKeepsCount(w, start, t, ids[0]);
      AdvanceOneFrame(w, t, ids[0]);
      assert forall i :: 0 <= i < |ids[1..]| ==> ids[1..][i] == ids[i + 1];
      AdvanceAllKeepsCount(AdvanceOne(w, t, ids[0]).w, start, t, ids[1..]);
    }
  }

  lemma {:induction false} SettleKeepsCount(w: World, start: World, t: TickEnv, from: nat)
    requires Counted(w, start)
    ensures Counted(SettleFrom(w, t, from), start)
    decreases |w.events| - from
  {
    if from < |w.events| {
      if Settles(w.events[from], t) {
        SameCount(w, SettleOne(w, t, from), start);
        SettleKeepsCount(SettleOne(w, t, from), start, t, from + 1);
      } else {
        SettleKeepsCount(w, start, t, from + 1);
      }
    }
  }

  /** A change of rows that leaves mandates and trace alone. */
  lemma RowKeepsCount(w: World, start: World, id: JourneyId, c': Cell)
    requires Counted(w, start) && RowsExist(w, id)
    requires c' == CellOf(w, id).(j := c'.j, ev := c'.ev, keys := c'.keys) && c'.ev.mandate == EventOf(w, id).mandate
    ensures Counted(WithCell(w, id, c'), start)
  {
    SameCount(w, WithCell(w, id, c'), start);
  }

  lemma {:induction false} ExpireKeepsCount(w: World, start: World, t: TickEnv, from: nat)
    requires Counted(w, start)
    ensures Counted(ExpireFrom(w, t, from).w, start)
    decreases |w.journeys| - from
  {
    if from < |w.journeys| {
      if Stale(w.journeys[from], t) {
        ExpireOneKeepsCount(w, start, t, from);
        var r := ExpireOne(w, t, from);
        if !r.raised && |r.w.journeys| == |w.journeys| { ExpireKeepsCount(r.w, start, t, from + 1); }
      } else {
        ExpireKeepsCount(w, start, t, from + 1);
      }
    }
  }

  lemma ExpireOneKeepsCount(w: World, start: World, t: TickEnv, id: JourneyId)
    requires Counted(w, start)
    ensures Counted(ExpireOne(w, t, id).w, start)
  {
    if RowsExist(w, id) {
      match ExpireCell(CellOf(w, id), t.now)
      case Some(c') => RowKeepsCount(w, start, id, c');
      case None =>
    }
  }

  lemma TickKeepsCount(w: World, start: World, t: TickEnv, due: seq<JourneyId>)
    requires Inv(w) && Counted(w, start) && OpenBatch(w, due) && !Tick(w, t, due).raised
    ensures Counted(Tick(w, t, due).w, start)
  {
    var w0 := w.(clock := t.now);
    SameCount(w, w0, start);
    if t.spec.automationEnabled {
      ClockIsFree(w, t.now);
      AdvanceAllKeepsCount(w0, start, t, due);
      var w1 := AdvanceAll(w0, t, due).w;
      SettleKeepsCount(w1, start, t, 0);
      ExpireKeepsCount(SettleFrom(w1, t, 0), start, t, 0);
    }
  }

  /** A tick that was rolled back before it charged anybody has only asked questions. */
  lemma RolledBackKeepsCount(w: World, start: World, t: TickEnv, due: seq<JourneyId>)
    requires Inv(w) && Counted(w, start) && OpenBatch(w, due) && TickRaises(w, t, due) && !TickCharges(w, t, due)
    ensures Counted(Tick(w, t, due).w, start)
  {
    AnyTickRaisesIff(w, t, due);
    TickExecutesIff(w, t, due);
    InOrderIsReady(w, due);
    TickSendsTurns(w, t, due);
    SameCount(w, Tick(w, t, due).w, start);
  }

  // -------------------------------------------------------------------- scans and humans

  lemma ScanOneKeepsCount(w: World, start: World, s: ScanEnv, id: EventId)
    requires Counted(w, start) && Scannable(w, s, id)
    ensures Counted(ScanOne(w, s, id).0, start)
  {
    ScanOneFrame(w, s, id);
    ScanKeepsMandate(w, s, id, Diagnosed(w.events[id], s.facts[id]), Assess(w, s, id));
    SameCount(w, ScanOne(w, s, id).0, start);
  }

  lemma ScanKeepsMandate(w: World, s: ScanEnv, id: EventId, d: Event, outcome: Decision.Outcome)
    requires Scannable(w, s, id) && (outcome.chosen.action != DoNothing ==> outcome.plan != [])
    requires d.mandate == w.events[id].mandate
    ensures var w' := ActOn(w, s, id, d, outcome).0;
            id < |w'.events| && w'.events[id].mandate == w.events[id].mandate
  {
  }

  lemma {:induction false} ScanAllKeepsCount(w: World, start: World, s: ScanEnv, ids: seq<EventId>)
    requires Counted(w, start)
    ensures Counted(ScanAll(w, s, ids).0, start)
    decreases |ids|
  {
    if ids != [] {
      if Scannable(w, s, ids[0]) {
        ScanOneKeepsCount(w, start, s, ids[0]);
        ScanAllKeepsCount(ScanOne(w, s, ids[0]).0, start, s, ids[1..]);
      } else {
        ScanAllKeepsCount(w, start, s, ids[1..]);
      }
    }
  }

  lemma ScanKeepsCount(w: World, start: World, s: ScanEnv, ids: seq<EventId>)
    requires Counted(w, start)
    ensures Counted(Scan(w, s, ids).0, start)
  {
    SameCount(w, w.(clock := s.now), start);
    ScanAllKeepsCount(w.(clock := s.now), start, s, ids);
  }

  lemma ApplyKeepsCount(w: World, start: World, id: JourneyId, command: Command, now: Time)
    requires Counted(w, start)
    ensures Counted(Apply(w, id, command, now).w, start)
  {
    if RowsExist(w, id) && w.journeys[id].actions != [] {
      match CommandCell(CellOf(w, id), command, now)
      case Some(c') =>
        CommandKeepsMandate(CellOf(w, id), command, now);
        RowKeepsCount(w, start, id, c');
        SameCount(WithCell(w, id, c'), Apply(w, id, command, now).w, start);
      case None => SameCount(w, w.(clock := now), start);
    }
  }

  lemma CommandKeepsMandate(c: Cell, command: Command, now: Time)
    requires c.j.actions != [] && CommandCell(c, command, now).Some?
    ensures var c' := CommandCell(c, command, now).value;
            c' == c.(j := c'.j, ev := c'.ev, keys := c'.keys) && c'.ev.mandate == c.ev.mandate
  {
  }
}
