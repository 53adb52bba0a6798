/** Whole runs: any sequence of scans, ticks and human decisions under one policy, from a book
    that nobody has worked on yet. */
module Runs {
  import opened Domain
  import opened Rows
  import opened Policy
  import opened Decision
  import opened Journey
  import opened Gateway
  import opened Ledger
  import opened Recovery
  import opened RecoveryProofs
  import opened TurnLimits
  import opened Orchestrator
  import opened Safety
  import opened Operations
  import opened Raises
  import opened Locks
  import opened Rollbacks
  import opened MandateBudget
  import opened Presentations
  import KeyStore

  // ---------------------------------------------------------- budgets and legal states

  predicate RowFine(spec: PolicySpec, j: Journey, ev: Event, legal: bool) {
    j.actions != [] && WithinBudget(spec, j, ev) && (legal ==> Legal(j))
  }

  /** Every execute so far went out under this policy. */
  predicate UnderPolicy(trace: seq<GatewayCall>, spec: PolicySpec) {
    forall i :: 0 <= i < |trace| && trace[i].ExecuteCall? ==> trace[i].spec == spec
  }

  /** Every journey is within its budgets and, where nobody paused one, in a legal state. */
  predicate Fine(w: World, spec: PolicySpec, legal: bool) {
    && UnderPolicy(w.trace, spec)
    && forall id :: 0 <= id < |w.journeys| ==>
         RowsExist(w, id) && RowFine(spec, w.journeys[id], EventOf(w, id), legal)
  }

  lemma TurnUnderPolicy(c: Cell, c': Cell, env: Env)
    requires c.j.actions != [] && c'.j.actions != [] && TraceStep(c, c', env) && UnderPolicy(c.trace, env.spec)
    ensures UnderPolicy(c'.trace, env.spec)
  {
    var calls := c'.trace[|c.trace|..];
    forall i | 0 <= i < |c'.trace| && c'.trace[i].ExecuteCall? ensures c'.trace[i].spec == env.spec {
      if i < |c.trace| { assert c'.trace[i] == c.trace[i]; } else { assert c'.trace[i] == calls[i - |c.trace|]; }
    }
  }

  lemma CellKeepsFine(w: World, spec: PolicySpec, legal: bool, id: JourneyId, c': Cell)
    requires Inv(w) && Fine(w, spec, legal) && RowsExist(w, id) && LocalStep(w, id, c')
    requires RowFine(spec, c'.j, c'.ev, legal) && UnderPolicy(c'.trace, spec)
    ensures Fine(WithCell(w, id, c'), spec, legal)
  {
    CellAfter(w, id, c');
  }

  lemma AdvanceOneKeepsFine(w: World, t: TickEnv, id: JourneyId, legal: bool)
    requires Inv(w) && Fine(w, t.spec, legal) && id < |w.journeys| && Open(w.journeys[id])
    requires !AdvanceOne(w, t, id).raised
    ensures Fine(AdvanceOne(w, t, id).w, t.spec, legal)
  {
    assert EventRowOk(w, w.events[w.journeys[id].event]);
    assert JourneyOk(w, id);
    var c, env := CellOf(w, id), TurnEnv(w, t, id);
    AdvanceRests(c, env);
    var c' := Advance(c, env).value;
    BudgetsHold(c, c', env);
    TurnUnderPolicy(c, c', env);
    TurnIsLocal(w, t, id, c');
    CellKeepsFine(w, t.spec, legal, id, c');
  }

  lemma {:induction false} AdvanceAllKeepsFine(w: World, t: TickEnv, ids: seq<JourneyId>, legal: bool)
    requires Inv(w) && Fine(w, t.spec, legal) && OpenBatch(w, ids)
    requires !AdvanceAll(w, t, ids).raised
    ensures Fine(AdvanceAll(w, t, ids).w, t.spec, legal)
    decreases |ids|
  {
    if ids != [] {
      AdvanceOneKeepsInv(w, t, ids[0]);
      AdvanceOneKeepsFine(w, t, ids[0], legal);
      AdvanceOneFrame(w, t, ids[0]);
      var w' := AdvanceOne(w, t, ids[0]).w;
      assert forall i :: 0 <= i < |ids[1..]| ==> ids[1..][i] == ids[i + 1];
      AdvanceAllKeepsFine(w', t, ids[1..], legal);
    }
  }

  /** A change that neither executes nor schedules anything. */
  predicate SpendsNothing(j: Journey, j': Journey) {
    && j'.contactsUsed == j.contactsUsed && j'.retriesUsed == j.retriesUsed
    && j'.discountsUsed == j.discountsUsed && j'.voiceUsed == j.voiceUsed
    && |j'.actions| == |j.actions|
    && forall i :: 0 <= i < |j.actions| ==>
         j'.actions[i].executedAt == j.actions[i].executedAt && j'.actions[i].kind == j.actions[i].kind
  }

  lemma SpendingNothingStaysWithin(spec: PolicySpec, j: Journey, j': Journey, ev: Event, ev': Event)
    requires WithinBudget(spec, j, ev) && SpendsNothing(j, j')
    requires ev'.priorContacts == ev.priorContacts && ev'.retryCount == ev.retryCount
    ensures WithinBudget(spec, j', ev')
  {
    forall i, k | 0 <= i < k < |j'.actions| && IsContact(j'.actions[i]) && IsContact(j'.actions[k])
      ensures j'.actions[k].executedAt.value
              >= j'.actions[i].executedAt.value + spec.contactCooldownMinutes * MINUTE
    {
      assert IsContact(j.actions[i]) && IsContact(j.actions[k]);
    }
  }

  lemma RowKeepsFine(w: World, spec: PolicySpec, legal: bool, id: JourneyId, c': Cell)
    requires Inv(w) && Fine(w, spec, legal) && RowsExist(w, id)
    requires CellOk(id, c') && RowStep(CellOf(w, id), c') && SpendsNothing(w.journeys[id], c'.j)
    requires legal ==> Legal(c'.j)
    ensures Fine(WithCell(w, id, c'), spec, legal)
  {
    assert JourneyOk(w, id);
    SpendingNothingStaysWithin(spec, w.journeys[id], c'.j, EventOf(w, id), c'.ev);
    CellKeepsFine(w, spec, legal, id, c');
  }

  lemma ExpireOneKeepsFine(w: World, t: TickEnv, id: JourneyId, legal: bool)
    requires Inv(w) && Fine(w, t.spec, legal) && id < |w.journeys| && Open(w.journeys[id])
    requires !ExpireOne(w, t, id).raised
    ensures Fine(ExpireOne(w, t, id).w, t.spec, legal)
  {
    assert JourneyOk(w, id);
    ExpireRests(id, CellOf(w, id), t.now);
    ExpireSpendsNothing(CellOf(w, id), t.now);
    RowKeepsFine(w, t.spec, legal, id, ExpireCell(CellOf(w, id), t.now).value);
  }

  lemma ExpireSpendsNothing(c: Cell, now: Time)
    requires ExpireCell(c, now).Some?
    ensures SpendsNothing(c.j, ExpireCell(c, now).value.j)
  {
  }

  lemma {:induction false} ExpireKeepsFine(w: World, t: TickEnv, from: nat, legal: bool)
    requires Inv(w) && Fine(w, t.spec, legal) && !ExpireFrom(w, t, from).raised
    ensures Fine(ExpireFrom(w, t, from).w, t.spec, legal)
    decreases |w.journeys| - from
  {
    if from < |w.journeys| {
      if Stale(w.journeys[from], t) {
        ExpireOneKeepsInv(w, t, from);
        ExpireOneKeepsFine(w, t, from, legal);
        ExpireKeepsFine(ExpireOne(w, t, from).w, t, from + 1, legal);
      } else {
        ExpireKeepsFine(w, t, from + 1, legal);
      }
    }
  }

  lemma SameFine(w: World, w': World, spec: PolicySpec, legal: bool)
    requires Fine(w, spec, legal) && w'.journeys == w.journeys && UnderPolicy(w'.trace, spec)
    requires |w'.events| == |w.events| && w'.customers == w.customers
    requires forall id :: 0 <= id < |w.journeys| ==>
               RowsExist(w, id) && w'.events[w.journeys[id].event] == EventOf(w, id)
    ensures Fine(w', spec, legal)
  {
  }

  lemma {:induction false} SettleKeepsFine(w: World, t: TickEnv, from: nat, legal: bool)
    requires Inv(w) && Fine(w, t.spec, legal)
    ensures Fine(SettleFrom(w, t, from), t.spec, legal)
    decreases |w.events| - from
  {
    if from < |w.events| {
      if Settles(w.events[from], t) {
        UnownedEvent(w, from);
        SettleOneKeepsInv(w, t, from);
        SameFine(w, SettleOne(w, t, from), t.spec, legal);
        SettleKeepsFine(SettleOne(w, t, from), t, from + 1, legal);
      } else {
        SettleKeepsFine(w, t, from + 1, legal);
      }
    }
  }

  lemma TickKeepsFine(w: World, t: TickEnv, due: seq<JourneyId>, legal: bool)
    requires Inv(w) && Fine(w, t.spec, legal) && OpenBatch(w, due) && !Tick(w, t, due).raised
    ensures Fine(Tick(w, t, due).w, t.spec, legal)
  {
    var w0 := w.(clock := t.now);
    ClockIsFree(w, t.now);
    SameFine(w, w0, t.spec, legal);
    if t.spec.automationEnabled {
      AdvanceAllKeepsInv(w0, t, due);
      AdvanceAllKeepsFine(w0, t, due, legal);
      var w1 := AdvanceAll(w0, t, due).w;
      SettleKeepsInv(w1, t, 0);
      SettleKeepsFine(w1, t, 0, legal);
      ExpireKeepsFine(SettleFrom(w1, t, 0), t, 0, legal);
    }
  }

  lemma NewJourneyIsFine(spec: PolicySpec, id: JourneyId, e: EventId, ev: Event, plan: seq<PlanStep>, j: Journey)
    requires JourneyIsNew(id, e, ev, plan, j)
    ensures RowFine(spec, j, ev, true)
  {
  }

  lemma ScanOneKeepsFine(w: World, s: ScanEnv, id: EventId, legal: bool)
    requires Inv(w) && Fine(w, s.spec, legal) && FreshEvent(w, id) && Scannable(w, s, id)
    ensures Fine(ScanOne(w, s, id).0, s.spec, legal)
  {
    var w' := ScanOne(w, s, id).0;
    UnownedEvent(w, id);
    ScanOneFrame(w, s, id);
    if ReachesClaim(w, s, id) {
      AssessedPlanOk(w, s, id);
      var d := Diagnosed(w.events[id], s.facts[id]);
      var j := ClaimAndStartShape(w, s, id, d, Assess(w, s, id));
      if w'.journeys == w.journeys {
        SameFine(w, w', s.spec, legal);
      } else {
        NewJourneyIsFine(s.spec, |w.journeys|, id, d.(status := InRecovery), Assess(w, s, id).plan, j);
        OpeningKeepsFine(w, w', s.spec, legal, j);
      }
    } else {
      SameFine(w, w', s.spec, legal);
    }
  }

  lemma OpeningKeepsFine(w: World, w': World, spec: PolicySpec, legal: bool, j: Journey)
    requires Inv(w) && Fine(w, spec, legal) && w'.journeys == w.journeys + [j] && w'.customers == w.customers
    requires w'.trace == w.trace
    requires |w'.events| == |w.events| && j.event < |w'.events| && w'.events[j.event].customer < |w.customers|
    requires forall e :: 0 <= e < |w.events| && e != j.event ==> w'.events[e] == w.events[e]
    requires forall id :: 0 <= id < |w.journeys| ==> w.journeys[id].event != j.event
    requires RowFine(spec, j, w'.events[j.event], legal)
    ensures Fine(w', spec, legal)
  {
    forall id | 0 <= id < |w'.journeys|
      ensures RowsExist(w', id) && RowFine(spec, w'.journeys[id], EventOf(w', id), legal)
    {
      if id < |w.journeys| {
        assert RowsExist(w, id) && w'.journeys[id] == w.journeys[id];
        assert EventOf(w', id) == EventOf(w, id);
      }
    }
  }

  lemma {:induction false} ScanAllKeepsFine(w: World, s: ScanEnv, ids: seq<EventId>, legal: bool)
    requires Inv(w) && Fine(w, s.spec, legal) && FreshBatch(w, ids)
    ensures Fine(ScanAll(w, s, ids).0, s.spec, legal)
    decreases |ids|
  {
    if ids != [] {
      assert forall i :: 0 <= i < |ids[1..]| ==> ids[1..][i] == ids[i + 1];
      if Scannable(w, s, ids[0]) {
        ScanOneKeepsInv(w, s, ids[0]);
        ScanOneKeepsFine(w, s, ids[0], legal);
        ScanOneFrame(w, s, ids[0]);
        ScanAllKeepsFine(ScanOne(w, s, ids[0]).0, s, ids[1..], legal);
      } else {
        ScanAllKeepsFine(w, s, ids[1..], legal);
      }
    }
  }

  lemma ScanKeepsFine(w: World, s: ScanEnv, ids: seq<EventId>, legal: bool)
    requires Inv(w) && Fine(w, s.spec, legal) && FreshBatch(w, ids)
    ensures Fine(Scan(w, s, ids).0, s.spec, legal)
  {
    ClockIsFree(w, s.now);
    SameFine(w, w.(clock := s.now), s.spec, legal);
    ScanAllKeepsFine(w.(clock := s.now), s, ids, legal);
  }

  lemma ApproveKeepsFine(w: World, id: JourneyId, now: Time, spec: PolicySpec, legal: bool)
    requires Inv(w) && Fine(w, spec, legal) && AwaitsApproval(w, id)
    ensures Fine(Approve(w, id, now), spec, legal)
  {
    assert EventRowOk(w, w.events[w.journeys[id].event]);
    assert JourneyOk(w, id);
    var c := CellOf(w, id);
    var c' := c.(j := ApproveRow(c.j, now));
    ApproveRests(id, c, now);
    RowKeepsFine(w, spec, legal, id, c');
    SameWorld(w, id, c');
    RowStepKeepsInv(w, id, c');
    SameFine(WithCell(w, id, c'), Approve(w, id, now), spec, legal);
  }

  lemma CommandSpendsNothing(id: JourneyId, c: Cell, command: Command, now: Time)
    requires CellOk(id, c) && CommandCell(c, command, now).Some?
    ensures SpendsNothing(c.j, CommandCell(c, command, now).value.j)
    ensures command == Reject || command == Stop ==> Legal(CommandCell(c, command, now).value.j)
  {
    match command
    case Reject => RejectSpendsNothing(c, now);
    case Stop => StopSpendsNothing(c, now);
    case Pause =>
    case Resume =>
  }

  lemma RejectSpendsNothing(c: Cell, now: Time)
    requires c.j.actions != [] && RejectCell(c, now).Some?
    ensures SpendsNothing(c.j, RejectCell(c, now).value.j) && RejectCell(c, now).value.j.state == Closed
  {
  }

  lemma StopSpendsNothing(c: Cell, now: Time)
    requires StopCell(c, now).Some?
    ensures SpendsNothing(c.j, StopCell(c, now).value.j) && StopCell(c, now).value.j.state == Closed
  {
  }

  lemma ApplyKeepsFine(w: World, id: JourneyId, command: Command, now: Time, spec: PolicySpec, legal: bool)
    requires Inv(w) && Fine(w, spec, legal) && !Apply(w, id, command, now).raised
    requires command == Reject ==> AwaitsApproval(w, id)
    requires legal ==> command == Reject || command == Stop
    ensures Fine(Apply(w, id, command, now).w, spec, legal)
  {
    assert JourneyOk(w, id);
    var c := CellOf(w, id);
    CommandRests(id, c, command, now);
    CommandSpendsNothing(id, c, command, now);
    var c' := CommandCell(c, command, now).value;
    RowKeepsFine(w, spec, legal, id, c');
    RowStepKeepsInv(w, id, c');
    SameFine(WithCell(w, id, c'), Apply(w, id, command, now).w, spec, legal);
  }

  lemma FewerExecutes(w: World, t: TickEnv, due: seq<JourneyId>)
    requires Inv(w) && OpenBatch(w, due) && TickRaises(w, t, due) && !TickCharges(w, t, due)
    requires UnderPolicy(w.trace, t.spec)
    ensures UnderPolicy(Tick(w, t, due).w.trace, t.spec)
  {
    TickExecutesIff(w, t, due);
    InOrderIsReady(w, due);
    TickSendsTurns(w, t, due);
    var trace := Tick(w, t, due).w.trace;
    forall i | 0 <= i < |trace| && trace[i].ExecuteCall? ensures trace[i].spec == t.spec {
      assert i < |w.trace| && trace[i] == w.trace[i];
    }
  }

  /** A tick that raised before it charged anybody has only asked questions. */
  lemma RolledBackKeepsFine(w: World, t: TickEnv, due: seq<JourneyId>, legal: bool)
    requires Inv(w) && Fine(w, t.spec, legal) && OpenBatch(w, due)
    requires TickRaises(w, t, due) && !TickCharges(w, t, due)
    ensures Inv(Tick(w, t, due).w) && Fine(Tick(w, t, due).w, t.spec, legal)
  {
    RollbackKeepsInvIff(w, t, due);
    FewerExecutes(w, t, due);
    SameFine(w, Tick(w, t, due).w, t.spec, legal);
  }

  // ---------------------------------------------------------------------------- runs

  datatype Op =
    | ScanOp(scan: ScanEnv, ids: seq<EventId>)
    | TickOp(tick: TickEnv, due: seq<JourneyId>)
    | ApproveOp(id: JourneyId, at: Time)
    | CommandOp(id: JourneyId, command: Command, at: Time)

  function At(op: Op): Time {
    match op
    case ScanOp(scan, _) => scan.now
    case TickOp(tick, _) => tick.now
    case ApproveOp(_, at) => at
    case CommandOp(_, _, at) => at
  }

  function Do(w: World, op: Op): Run {
    match op
    case ScanOp(scan, ids) => Run(Scan(w, scan, ids).0, false)
    case TickOp(tick, due) => Tick(w, tick, due)
    case ApproveOp(id, at) => if AwaitsApproval(w, id) then Run(Approve(w, id, at), false) else Run(w, true)
    case CommandOp(id, command, at) => Apply(w, id, command, at)
  }

  function Final(w: World, ops: seq<Op>): World
    decreases |ops|
  {
    if ops == [] then w else Final(Do(w, ops[0]).w, ops[1..])
  }

  /** Scans and ticks work on the rows their queries return, and only actions in the approval queue
      are approved or rejected. Operations may raise. */
  predicate Queried(w: World, op: Op) {
    match op
    case ScanOp(_, ids) => FreshBatch(w, ids)
    case TickOp(_, due) => OpenBatch(w, due)
    case ApproveOp(id, _) => AwaitsApproval(w, id)
    case CommandOp(id, command, _) => command == Reject ==> AwaitsApproval(w, id)
  }

  /** All under one policy, and no tick charges a customer and then raises, going by the rows before
      it. Operations may raise otherwise, and the clock and the locks are not restricted. */
  predicate Orderly(w: World, op: Op, spec: PolicySpec) {
    && Queried(w, op)
    && (op.ScanOp? ==> op.scan.spec == spec)
    && (op.TickOp? ==> op.tick.spec == spec && !(TickRaises(w, op.tick, op.due) && TickCharges(w, op.tick, op.due)))
  }

  /** No scan claims a customer one of whose open journeys is unprotected. */
  predicate ScansGuarded(w: World, op: Op) {
    op.ScanOp? ==> ClaimsGuarded(w, op.scan, op.ids)
  }

  /** Time does not run backwards, no lock has run out when a scan claims customers, only open
      journeys are stopped, and no tick that raises has closed a journey whose lock has time left. */
  predicate Careful(w: World, op: Op) {
    && w.clock <= At(op)
    && match op
       case ScanOp(scan, _) => LocksLive(w, scan.now)
       case TickOp(tick, due) =>
         TickRaises(w, tick, due) ==>
           forall id :: 0 <= id < |w.journeys| && Open(w.journeys[id]) && LockEnd(w.journeys[id]) > tick.now ==>
             !ClosedBeforeRaise(w, tick, due, id)
       case ApproveOp(_, _) => true
       case CommandOp(id, command, _) => command == Stop ==> id < |w.journeys| && Open(w.journeys[id])
  }

  predicate Supervised(op: Op) {
    op.CommandOp? ==> op.command == Reject || op.command == Stop
  }

  predicate OrderlyRun(w: World, ops: seq<Op>, spec: PolicySpec)
    decreases |ops|
  {
    ops == [] || (Orderly(w, ops[0], spec) && OrderlyRun(Do(w, ops[0]).w, ops[1..], spec))
  }

  predicate GuardedRun(w: World, ops: seq<Op>)
    decreases |ops|
  {
    ops == [] || (Queried(w, ops[0]) && ScansGuarded(w, ops[0]) && GuardedRun(Do(w, ops[0]).w, ops[1..]))
  }

  predicate CarefulRun(w: World, ops: seq<Op>)
    decreases |ops|
  {
    ops == [] || (Careful(w, ops[0]) && CarefulRun(Do(w, ops[0]).w, ops[1..]))
  }

  /** A book that nobody has worked on yet. */
  ghost predicate Untouched(w: World) {
    && w.journeys == [] && w.keys == map[] && w.trace == [] && w.ledger == [] && w.gw.unresolved == {}
    && forall e :: 0 <= e < |w.events| ==> EventRowOk(w, w.events[e])
  }

  /** The states that orderly operations under one policy can reach. */
  ghost predicate Reachable(w: World, start: World, ops: seq<Op>, spec: PolicySpec) {
    Untouched(start) && OrderlyRun(start, ops, spec) && w == Final(start, ops)
  }

  // ------------------------------------------------------------------- what a step keeps

  lemma StepKeepsOrder(w: World, op: Op, spec: PolicySpec, legal: bool)
    requires Inv(w) && Fine(w, spec, legal) && Orderly(w, op, spec) && (legal ==> Supervised(op))
    ensures Inv(Do(w, op).w) && Fine(Do(w, op).w, spec, legal)
  {
    match op
    case ScanOp(scan, ids) =>
      ScanKeepsInv(w, scan, ids);
      ScanKeepsFine(w, scan, ids, legal);
    case TickOp(tick, due) => TickKeepsOrder(w, tick, due, legal);
    case ApproveOp(id, at) =>
      ApproveKeepsInv(w, id, at);
      ApproveKeepsFine(w, id, at, spec, legal);
    case CommandOp(id, command, at) => CommandKeepsOrder(w, id, command, at, spec, legal);
  }

  lemma TickKeepsOrder(w: World, t: TickEnv, due: seq<JourneyId>, legal: bool)
    requires Inv(w) && Fine(w, t.spec, legal) && OpenBatch(w, due)
    requires !(TickRaises(w, t, due) && TickCharges(w, t, due))
    ensures Inv(Tick(w, t, due).w) && Fine(Tick(w, t, due).w, t.spec, legal)
  {
    AnyTickRaisesIff(w, t, due);
    if TickRaises(w, t, due) {
      RolledBackKeepsFine(w, t, due, legal);
    } else {
      TickKeepsInv(w, t, due);
      TickKeepsFine(w, t, due, legal);
    }
  }

  lemma CommandKeepsOrder(w: World, id: JourneyId, command: Command, at: Time, spec: PolicySpec, legal: bool)
    requires Inv(w) && Fine(w, spec, legal) && (command == Reject ==> AwaitsApproval(w, id))
    requires legal ==> command == Reject || command == Stop
    ensures Inv(Apply(w, id, command, at).w) && Fine(Apply(w, id, command, at).w, spec, legal)
  {
    if Apply(w, id, command, at).raised {
      ClockIsFree(w, at);
      SameFine(w, w.(clock := at), spec, legal);
    } else {
      ApplyKeepsInv(w, id, command, at);
      ApplyKeepsFine(w, id, command, at, spec, legal);
    }
  }

  lemma StepKeepsOwners(w: World, op: Op)
    requires LocksSound(w) && Resting(w) && Queried(w, op) && ScansGuarded(w, op)
    ensures LocksSound(Do(w, op).w) && Resting(Do(w, op).w)
  {
    match op
    case ScanOp(scan, ids) => ScanIsSound(w, scan, ids);
    case TickOp(tick, due) => TickIsSound(w, tick, due);
    case ApproveOp(id, at) => ApproveIsSound(w, id, at);
    case CommandOp(id, command, at) => ApplyIsSound(w, id, command, at);
  }

  lemma StepKeepsMandates(w: World, op: Op, spec: PolicySpec, initial: MandateTable)
    requires Sound(w, spec.npciMaxAttempts, initial) && Orderly(w, op, spec) && ScansGuarded(w, op)
    ensures MandateInv(Do(w, op).w, spec.npciMaxAttempts, initial)
  {
    var limit := spec.npciMaxAttempts;
    match op
    case ScanOp(scan, ids) => ScanKeepsBudget(w, scan, ids, initial);
    case TickOp(tick, due) =>
      AnyTickRaisesIff(w, tick, due);
      if TickRaises(w, tick, due) {
        SameBudget(w, Tick(w, tick, due).w, limit, initial);
      } else {
        TickKeepsBudget(w, tick, due, limit, initial);
      }
    case ApproveOp(id, at) => ApproveKeepsBudget(w, id, at, limit, initial);
    case CommandOp(id, command, at) =>
      if Apply(w, id, command, at).raised {
        ClockKeepsSound(w, at, limit, initial);
      } else {
        ApplyKeepsBudget(w, id, command, at, limit, initial);
      }
  }

  lemma StepKeepsCount(w: World, op: Op, spec: PolicySpec, start: World)
    requires Inv(w) && Counted(w, start) && Orderly(w, op, spec)
    ensures Counted(Do(w, op).w, start)
  {
    match op
    case ScanOp(scan, ids) => ScanKeepsCount(w, start, scan, ids);
    case TickOp(tick, due) =>
      AnyTickRaisesIff(w, tick, due);
      if TickRaises(w, tick, due) {
        RolledBackKeepsCount(w, start, tick, due);
      } else {
        TickKeepsCount(w, start, tick, due);
      }
    case ApproveOp(id, at) => SameCount(w, Approve(w, id, at), start);
    case CommandOp(id, command, at) => ApplyKeepsCount(w, start, id, command, at);
  }

  lemma StepKeepsLocks(w: World, op: Op, spec: PolicySpec)
    requires Inv(w) && LockInv(w) && Orderly(w, op, spec) && Careful(w, op)
    ensures LockInv(Do(w, op).w)
  {
    match op
    case ScanOp(scan, ids) =>
      OrderIsResting(w);
      LiveIsGuarded(w, scan.now);
      GuardedClaims(w, scan, ids);
      ScanIsSound(w, scan, ids);
    case TickOp(tick, due) =>
      AnyTickRaisesIff(w, tick, due);
      if TickRaises(w, tick, due) { RollbackKeepsLocksIff(w, tick, due); } else { TickKeepsLocks(w, tick, due); }
    case ApproveOp(id, at) => ApproveKeepsLocks(w, id, at);
    case CommandOp(id, command, at) =>
      if Apply(w, id, command, at).raised { ClockKeepsLocks(w, at); } else { ApplyKeepsLocks(w, id, command, at); }
  }

  /** Everything an orderly step keeps, whether it raises or not. */
  lemma StepKeepsAll(w: World, op: Op, spec: PolicySpec, initial: MandateTable, legal: bool)
    requires Inv(w) && Fine(w, spec, legal) && Orderly(w, op, spec) && (legal ==> Supervised(op))
    ensures var w' := Do(w, op).w;
            && Inv(w') && Fine(w', spec, legal)
            && (LocksSound(w) && ScansGuarded(w, op) ==> LocksSound(w'))
            && (Sound(w, spec.npciMaxAttempts, initial) && ScansGuarded(w, op) ==> Sound(w', spec.npciMaxAttempts, initial))
            && (LockInv(w) && Careful(w, op) ==> LockInv(w'))
  {
    StepKeepsOrder(w, op, spec, legal);
    OrderIsResting(w);
    if LocksSound(w) && ScansGuarded(w, op) { StepKeepsOwners(w, op); }
    if Sound(w, spec.npciMaxAttempts, initial) && ScansGuarded(w, op) { StepKeepsMandates(w, op, spec, initial); }
    if LockInv(w) && Careful(w, op) { StepKeepsLocks(w, op, spec); }
  }

  // -------------------------------------------------------------------- what a run keeps

  lemma {:induction false} RunKeepsOrder(w: World, ops: seq<Op>, spec: PolicySpec, legal: bool)
    requires Inv(w) && Fine(w, spec, legal) && OrderlyRun(w, ops, spec)
    requires legal ==> forall i :: 0 <= i < |ops| ==> Supervised(ops[i])
    ensures Inv(Final(w, ops)) && Fine(Final(w, ops), spec, legal)
    decreases |ops|
  {
    if ops != [] {
      StepKeepsOrder(w, ops[0], spec, legal);
      assert forall i :: 0 <= i < |ops[1..]| ==> ops[1..][i] == ops[i + 1];
      RunKeepsOrder(Do(w, ops[0]).w, ops[1..], spec, legal);
    }
  }

  lemma {:induction false} RunKeepsOwners(w: World, ops: seq<Op>)
    requires LocksSound(w) && Resting(w) && GuardedRun(w, ops)
    ensures LocksSound(Final(w, ops))
    decreases |ops|
  {
    if ops != [] {
      StepKeepsOwners(w, ops[0]);
      RunKeepsOwners(Do(w, ops[0]).w, ops[1..]);
    }
  }

  lemma {:induction false} RunKeepsMandates(w: World, ops: seq<Op>, spec: PolicySpec, initial: MandateTable)
    requires Sound(w, spec.npciMaxAttempts, initial) && Fine(w, spec, false)
    requires OrderlyRun(w, ops, spec) && GuardedRun(w, ops)
    ensures Sound(Final(w, ops), spec.npciMaxAttempts, initial)
    decreases |ops|
  {
    if ops != [] {
      StepKeepsAll(w, ops[0], spec, initial, false);
      RunKeepsMandates(Do(w, ops[0]).w, ops[1..], spec, initial);
    }
  }

  lemma {:induction false} RunKeepsLocks(w: World, ops: seq<Op>, spec: PolicySpec)
    requires Inv(w) && Fine(w, spec, false) && LockInv(w) && OrderlyRun(w, ops, spec) && CarefulRun(w, ops)
    ensures LockInv(Final(w, ops))
    decreases |ops|
  {
    if ops != [] {
      StepKeepsAll(w, ops[0], spec, w.mandates, false);
      RunKeepsLocks(Do(w, ops[0]).w, ops[1..], spec);
    }
  }

  lemma {:induction false} RunKeepsCount(w: World, ops: seq<Op>, spec: PolicySpec, start: World)
    requires Inv(w) && Fine(w, spec, false) && Counted(w, start) && OrderlyRun(w, ops, spec)
    ensures Counted(Final(w, ops), start)
    decreases |ops|
  {
    if ops != [] {
      StepKeepsOrder(w, ops[0], spec, false);
      StepKeepsCount(w, ops[0], spec, start);
      RunKeepsCount(Do(w, ops[0]).w, ops[1..], spec, start);
    }
  }

  lemma UntouchedIsFine(w: World, spec: PolicySpec)
    requires Untouched(w)
    ensures Sound(w, spec.npciMaxAttempts, w.mandates) && Fine(w, spec, true) && LockInv(w) && Resting(w)
  {
    forall customer ensures LockOk(w, customer) {}
  }

  lemma ReachableIsFine(w: World, start: World, ops: seq<Op>, spec: PolicySpec)
    requires Reachable(w, start, ops, spec)
    ensures Inv(w) && Fine(w, spec, false)
  {
    UntouchedIsFine(start, spec);
    RunKeepsOrder(start, ops, spec, false);
  }

  // ------------------------------------------------------------- what a run guarantees

  /** No action is charged twice: executes carry distinct keys, each went out under an ALLOW given
      at that instant for that action, one that timed out was followed at once by a state query,
      and no key is left unresolved. */
  lemma ChargedAtMostOnce(w: World, start: World, ops: seq<Op>, spec: PolicySpec)
    requires Reachable(w, start, ops, spec)
    ensures w.gw.unresolved == {}
    ensures forall i, k :: 0 <= i < k < |w.trace| && w.trace[i].ExecuteCall? && w.trace[k].ExecuteCall? ==>
              w.trace[i].key != w.trace[k].key
    ensures forall i :: 0 <= i < |w.trace| && w.trace[i].ExecuteCall? ==>
              && Gate(w.trace[i].spec, w.trace[i].ask).verdict == Allow
              && w.trace[i].key.ActionKey? && w.trace[i].key.journey < |w.journeys|
              && CallMatches(w.journeys[w.trace[i].key.journey], w.trace[i])
              && (w.trace[i].answer == TimedOut ==>
                    i + 1 < |w.trace| && w.trace[i + 1].FetchCall? && w.trace[i + 1].key == w.trace[i].key)
  {
    ReachableIsFine(w, start, ops, spec);
    forall i | 0 <= i < |w.trace| && w.trace[i].ExecuteCall?
      ensures CallOk(w.trace, i) && KnownCall(w, w.trace[i])
      ensures CallMatches(w.journeys[w.trace[i].key.journey], w.trace[i])
    {
      assert CallOk(w.trace, i) && KnownCall(w, w.trace[i]);
      var id := w.trace[i].key.journey;
      assert RowsExist(w, id) && JourneyOk(w, id);
      assert OwnExecute(id, w.trace[i]);
    }
  }

  /** Every execute kept every limit of the policy, and nothing that needs a human's approval was
      ever executed: approving an action does not exempt it from the re-check that stopped it. */
  lemma ExecutesKeepThePolicy(w: World, start: World, ops: seq<Op>, spec: PolicySpec, i: nat)
    requires Reachable(w, start, ops, spec) && i < |w.trace| && w.trace[i].ExecuteCall?
    ensures var ask := w.trace[i].ask;
            && WithinLimits(spec, ask)
            && (Catalog(ask.action).touchesGateway ==> ask.event.amount < spec.humanApprovalAmount)
            && (ask.action == Voice ==> ask.event.amount < spec.voiceApprovalAmount)
            && ask.discountPct <= spec.discountApprovalPct && ask.action != HumanEscalation
  {
    ReachableIsFine(w, start, ops, spec);
    ChargedAtMostOnce(w, start, ops, spec);
    var call := w.trace[i];
    var j := w.journeys[call.key.journey];
    assert JourneyOk(w, call.key.journey);
    assert ActionOk(call.key.journey, j.plan, call.key.sequence, j.actions[call.key.sequence]);
    BlockedIffBeyondLimits(spec, call.ask);
    AllowIsBelowApproval(spec, call.ask);
  }

  /** No customer has two open journeys, whatever raised or was charged twice on the way and whatever
      the clock did, provided no scan claims a customer with an unprotected one. */
  lemma NeverTwoOwners(w: World, start: World, ops: seq<Op>)
    requires Untouched(start) && GuardedRun(start, ops) && w == Final(start, ops)
    ensures forall i, k :: 0 <= i < k < |w.journeys| && Open(w.journeys[i]) && Open(w.journeys[k]) ==>
              w.journeys[i].customer != w.journeys[k].customer
  {
    UntouchedIsFine(start, DEFAULT_POLICY);
    RunKeepsOwners(start, ops);
  }

  /** In a careful run, and while locks are live, a journey is open exactly when the store's lock names
      it. */
  lemma LocksNameOpenJourneys(w: World, start: World, ops: seq<Op>, spec: PolicySpec, id: JourneyId)
    requires Reachable(w, start, ops, spec) && CarefulRun(start, ops) && id < |w.journeys|
    ensures LocksLive(w, w.clock) ==> (Open(w.journeys[id]) <==> HoldsLock(w, id))
    ensures LockInv(w)
  {
    UntouchedIsFine(start, spec);
    RunKeepsLocks(start, ops, spec);
    if LocksLive(w, w.clock) { LockedIffOpen(w, id); }
  }

  /** A mandate's ledger shows every retry that went out for it, once, and nothing else. */
  lemma AttemptsAreCounted(w: World, start: World, ops: seq<Op>, spec: PolicySpec)
    requires Reachable(w, start, ops, spec)
    ensures SameMandates(w, start) && |w.mandates| == |start.mandates|
    ensures forall m :: 0 <= m < |w.mandates| ==>
              w.mandates[m].attemptsUsed == start.mandates[m].attemptsUsed + |Presented(w.trace, w.events, m)|
  {
    UntouchedIsFine(start, spec);
    RunKeepsCount(start, ops, spec, start);
    forall m: MandateId | m < |w.mandates|
      ensures w.mandates[m].attemptsUsed == start.mandates[m].attemptsUsed + |Presented(w.trace, w.events, m)|
    {
      assert Presented(w.trace, w.events, m) == Presented(w.trace, start.events, m);
    }
  }

  /** No mandate is presented beyond what the network's limit leaves of it, by however many journeys:
      so many retries of its events, and no more, have gone out. */
  lemma MandatesStayWithinLimit(w: World, start: World, ops: seq<Op>, spec: PolicySpec)
    requires Reachable(w, start, ops, spec) && GuardedRun(start, ops)
    ensures |w.mandates| == |start.mandates|
    ensures forall m :: 0 <= m < |w.mandates| ==>
              && w.mandates[m].attemptsUsed <= MaxInt(start.mandates[m].attemptsUsed, spec.npciMaxAttempts)
              && |Presented(w.trace, w.events, m)| <= MaxInt(0, spec.npciMaxAttempts - start.mandates[m].attemptsUsed)
  {
    UntouchedIsFine(start, spec);
    RunKeepsMandates(start, ops, spec, start.mandates);
    AttemptsAreCounted(w, start, ops, spec);
  }

  /** What the policy leaves a journey for its event. */
  function Allowance(spec: PolicySpec, ev: Event, meter: Meter): int {
    MaxInt(0, match meter
              case ContactMeter => spec.maxContacts - ev.priorContacts
              case RetryMeter => spec.maxRetries - ev.retryCount
              case OfferMeter => spec.maxDiscountOffers
              case CallMeter => spec.maxVoiceAttempts)
  }

  /** The executes of a journey that a meter counts. */
  function Sent(trace: seq<GatewayCall>, id: JourneyId, meter: Meter): set<int> {
    set i | 0 <= i < |trace| && OwnExecute(id, trace[i]) && Ticks(meter, trace[i].ask.action)
  }

  /** Every budget of the policy holds for every journey: for the calls that went out for it as for its
      counters. And its contacts keep the cooldown. */
  lemma JourneysStayWithinBudget(w: World, start: World, ops: seq<Op>, spec: PolicySpec, id: JourneyId)
    requires Reachable(w, start, ops, spec) && id < |w.journeys|
    ensures RowsExist(w, id) && WithinBudget(spec, w.journeys[id], EventOf(w, id))
    ensures forall meter :: |Sent(w.trace, id, meter)| <= Allowance(spec, EventOf(w, id), meter)
    ensures EventOf(w, id).contactsUsed == w.journeys[id].contactsUsed
    ensures EventOf(w, id).recoveryCost == w.journeys[id].cost
  {
    ReachableIsFine(w, start, ops, spec);
    assert JourneyOk(w, id);
    forall meter ensures |Sent(w.trace, id, meter)| <= Allowance(spec, EventOf(w, id), meter) {
      SentWithin(w, spec, id, meter);
    }
  }

  lemma SentWithin(w: World, spec: PolicySpec, id: JourneyId, meter: Meter)
    requires Inv(w) && Fine(w, spec, false) && RowsExist(w, id)
    ensures |Sent(w.trace, id, meter)| <= Allowance(spec, EventOf(w, id), meter)
  {
    assert JourneyOk(w, id);
    MeterCounts(w.trace, Sent(w.trace, id, meter), w.journeys[id].actions, meter);
  }

  /** This call executed one of these actions, and the meter counted it. */
  predicate Metered(call: GatewayCall, actions: seq<Action>, meter: Meter) {
    && call.key.ActionKey? && call.key.sequence < |actions|
    && var a := actions[call.key.sequence];
       a.key == call.key && a.executedAt.Some? && Ticks(meter, a.kind)
  }

  lemma {:induction false} MeterCounts(trace: seq<GatewayCall>, calls: set<int>, actions: seq<Action>, meter: Meter)
    requires forall i :: i in calls ==> 0 <= i < |trace| && Metered(trace[i], actions, meter)
    requires forall i, k :: i in calls && k in calls && trace[i].key == trace[k].key ==> i == k
    ensures |calls| <= Count(actions, meter)
    decreases |actions|
  {
    if calls != {} {
      var any := Member(calls);
      assert Metered(trace[any], actions, meter);
      var n := |actions| - 1;
      if i :| i in calls && trace[i].key.sequence == n {
        MeterCounts(trace, calls - {i}, actions[..n], meter);
      } else {
        MeterCounts(trace, calls, actions[..n], meter);
      }
    }
  }

  /** A journey never executes more than its plan, and a plan has at most four steps. */
  lemma FewExecutes(w: World, start: World, ops: seq<Op>, spec: PolicySpec, id: JourneyId)
    requires Reachable(w, start, ops, spec) && id < |w.journeys|
    ensures |set i | 0 <= i < |w.trace| && OwnExecute(id, w.trace[i])| <= |w.journeys[id].plan| <= 4
  {
    ReachableIsFine(w, start, ops, spec);
    assert RowsExist(w, id) && JourneyOk(w, id);
    var j := w.journeys[id];
    var calls := set i | 0 <= i < |w.trace| && OwnExecute(id, w.trace[i]);
    SequencesCount(w.trace, calls, |j.actions|);
  }

  lemma Member<T>(s: set<T>) returns (x: T)
    requires s != {}
    ensures x in s
  {
    x :| x in s;
  }

  /** Calls with distinct keys of one journey have distinct sequence numbers below n. */
  lemma {:induction false} SequencesCount(trace: seq<GatewayCall>, calls: set<int>, n: nat)
    requires forall i :: i in calls ==> 0 <= i < |trace| && trace[i].key.ActionKey? && trace[i].key.sequence < n
    requires forall i, k :: i in calls && k in calls && trace[i].key.sequence == trace[k].key.sequence ==> i == k
    ensures |calls| <= n
  {
    if calls != {} {
      var any := Member(calls);
      assert trace[any].key.sequence < n;
      if exists i :: i in calls && trace[i].key.sequence == n - 1 {
        var i :| i in calls && trace[i].key.sequence == n - 1;
        SequencesCount(trace, calls - {i}, n - 1);
      } else {
        SequencesCount(trace, calls, n - 1);
      }
    }
  }

  /** Events of the holdout never get a journey, an execute or an entry. */
  lemma HoldoutUntouched(w: World, start: World, ops: seq<Op>, spec: PolicySpec, e: EventId)
    requires Reachable(w, start, ops, spec) && e < |w.events| && w.events[e].cohort == Control
    ensures forall id :: 0 <= id < |w.journeys| ==> w.journeys[id].event != e
    ensures forall i :: 0 <= i < |w.trace| && w.trace[i].ExecuteCall? ==> w.trace[i].event != e
    ensures forall p :: 0 <= p < |w.ledger| ==> w.ledger[p].event != e
  {
    ReachableIsFine(w, start, ops, spec);
    UnownedEvent(w, e);
    forall i | 0 <= i < |w.trace| && w.trace[i].ExecuteCall? ensures w.trace[i].event != e {
      ChargedAtMostOnce(w, start, ops, spec);
    }
    forall p | 0 <= p < |w.ledger| ensures w.ledger[p].event != e { assert EntryOk(w, w.ledger[p]); }
  }

  /** Every event gets at most one journey and is booked at most once; a booking is backed by a success
      the gateway reported for an action of that event, its parts add up to the amount, and so does
      the ledger. */
  lemma BookingsAreSound(w: World, start: World, ops: seq<Op>, spec: PolicySpec)
    requires Reachable(w, start, ops, spec)
    ensures forall i, k :: 0 <= i < k < |w.journeys| ==> w.journeys[i].event != w.journeys[k].event
    ensures forall p, q :: 0 <= p < q < |w.ledger| ==> w.ledger[p].event != w.ledger[q].event
    ensures forall p :: 0 <= p < |w.ledger| ==> BackedEntry(w, w.ledger[p])
    ensures var t := TotalsOf(w.ledger);
            t.entries == |w.ledger| && t.incremental == t.gross - t.organic - t.cost
  {
    ReachableIsFine(w, start, ops, spec);
    forall p | 0 <= p < |w.ledger| ensures BackedEntry(w, w.ledger[p]) {
      assert EntryOk(w, w.ledger[p]);
      assert JourneyOk(w, w.ledger[p].journey);
    }
    forall p, q | 0 <= p < q < |w.ledger| ensures w.ledger[p].event != w.ledger[q].event {
      assert EntryOk(w, w.ledger[p]) && EntryOk(w, w.ledger[q]);
      assert w.ledger[p].journey != w.ledger[q].journey;
    }
    forall p | 0 <= p < |w.ledger|
      ensures w.ledger[p].incremental == w.ledger[p].gross - w.ledger[p].organic - w.ledger[p].cost
    {
      assert EntryOk(w, w.ledger[p]);
    }
    TotalsAddUp(w.ledger);
  }

  ghost predicate BackedEntry(w: World, entry: LedgerEntry) {
    && RowsExist(w, entry.journey)
    && var j, ev := w.journeys[entry.journey], EventOf(w, entry.journey);
       && entry.event == j.event && ev.status == Recovered && j.state == Closed && j.actions != []
       && entry.gross + DiscountPaise(ev.amount, Last(j).discountPct) == ev.amount
       && exists i :: 0 <= i < |w.trace| && w.trace[i].key == Last(j).key && Success(w.trace[i])
  }

  lemma DiscountIsPaid(amount: nat, pct: real)
    requires pct >= 0.0
    ensures DiscountPaise(amount, pct) >= 0
  {
    assert amount as real * pct >= 0.0;
  }

  lemma BookingCostsMore(a: Action, amount: nat)
    requires a.kind != DoNothing && a.discountPct >= 0.0
    ensures BookingCost(a, amount) > 0
  {
    DiscountIsPaid(amount, a.discountPct);
  }

  /** The money a journey cost is what its executed actions cost and, exactly if it is recovered, what
      its ledger entry says on top: the action that recovered the money is paid for twice. The two
      differ unless the entry costs nothing, and no action is free. */
  lemma RecoveryIsChargedTwice(w: World, start: World, ops: seq<Op>, spec: PolicySpec, id: JourneyId)
    requires Reachable(w, start, ops, spec) && id < |w.journeys|
    ensures RowsExist(w, id) && w.journeys[id].actions != []
    ensures var j, ev := w.journeys[id], EventOf(w, id);
            && ev.recoveryCost == j.cost && (ev.status == Recovered <==> Booked(w.ledger, id))
            && (j.cost == CostOf(j.actions) <==> ev.status != Recovered || BookingCost(Last(j), ev.amount) == 0)
            && (ev.status == Recovered && Last(j).discountPct >= 0.0 ==> j.cost > CostOf(j.actions))
            && forall p :: 0 <= p < |w.ledger| && w.ledger[p].journey == id ==>
                 && j.cost == CostOf(j.actions) + w.ledger[p].cost
                 && j.cost == CostOf(j.actions[..|j.actions| - 1]) + 2 * Catalog(Last(j).kind).cost
                              + DiscountPaise(ev.amount, Last(j).discountPct)
  {
    ReachableIsFine(w, start, ops, spec);
    BookedIffRecovered(w, id);
    var j := w.journeys[id];
    assert JourneyOk(w, id);
    assert ActionOk(id, j.plan, |j.actions| - 1, Last(j));
    if Last(j).discountPct >= 0.0 { BookingCostsMore(Last(j), EventOf(w, id).amount); }
  }

  lemma BookedIffRecovered(w: World, id: JourneyId)
    requires Inv(w) && id < |w.journeys|
    ensures RowsExist(w, id) && w.journeys[id].actions != []
    ensures EventOf(w, id).status == Recovered <==> Booked(w.ledger, id)
    ensures forall p :: 0 <= p < |w.ledger| && w.ledger[p].journey == id ==>
              w.ledger[p].cost == BookingCost(Last(w.journeys[id]), EventOf(w, id).amount)
  {
    assert EventRowOk(w, w.events[w.journeys[id].event]);
    assert JourneyOk(w, id);
    LastIsExecuted(id, w.journeys[id]);
    forall p | 0 <= p < |w.ledger| && w.ledger[p].journey == id
      ensures w.ledger[p].cost == BookingCost(Last(w.journeys[id]), EventOf(w, id).amount)
      ensures EventOf(w, id).status == Recovered
    {
      assert EntryOk(w, w.ledger[p]);
    }
  }

  /** Where nobody paused a journey, each one rests in a state that matches its last action, its
      actions follow its plan, and its log is a walk through the transition table. */
  lemma JourneysRestLegally(w: World, start: World, ops: seq<Op>, spec: PolicySpec, id: JourneyId)
    requires Reachable(w, start, ops, spec) && id < |w.journeys|
    requires forall i :: 0 <= i < |ops| ==> Supervised(ops[i])
    ensures w.journeys[id].actions != [] && Legal(w.journeys[id])
    ensures IsWalk(w.journeys[id].transitions, w.journeys[id].state)
    ensures ActionsOk(id, w.journeys[id])
  {
    UntouchedIsFine(start, spec);
    RunKeepsOrder(start, ops, spec, true);
    assert JourneyOk(w, id);
  }
}
