/** The recovery journey: its row, the actions it schedules, and the state machine that bounds
    what it can do next. */
module Journey {
  import opened Domain
  import opened Rows
  import opened Decision

  type JourneyId = nat

  datatype JourneyState =
    | Detected | Analyzing | JPlanned | JAwaitingApproval | JApproved | JExecuting | Verifying
    | JRecovered | Closed | JBlocked | JFailed | Paused | Expired

  predicate IsTerminal(s: JourneyState) {
    s in {JRecovered, Closed, JBlocked, JFailed, Expired}
  }

  function AllowedTransitions(s: JourneyState): set<JourneyState> {
    match s
    case Detected => {Analyzing, JBlocked, Closed}
    case Analyzing => {JPlanned, Closed, JBlocked, JRecovered}
    case JPlanned => {JAwaitingApproval, JExecuting, JBlocked, JFailed, Paused, Closed, Expired}
    case JAwaitingApproval => {JApproved, JBlocked, Closed, Expired, Paused}
    case JApproved => {JExecuting, JAwaitingApproval, JBlocked, JFailed, Paused, Closed}
    case JExecuting => {Verifying, JFailed, JBlocked, Paused, Closed}
    case Verifying => {JRecovered, JPlanned, JAwaitingApproval, JFailed, Closed, Expired, Paused}
    case Paused => {JPlanned, Closed, Expired, JApproved}
    case JRecovered => {Closed}
    case JFailed => {Closed, JPlanned}
    case JBlocked => {Closed, JPlanned}
    case Expired => {Closed}
    case Closed => {}
  }

  /** The idempotency key of a charge: a digest of journey, action and sequence, which is taken
      to be collision free. Holdout events are looked up under a key of their own. */
  datatype Key =
    | ActionKey(journey: JourneyId, action: ActionType, sequence: nat)
    | ControlKey(event: EventId)

  datatype Action = Action(
    kind: ActionType,
    sequence: nat,
    status: ActionStatus,
    key: Key,
    scheduledAt: Time,
    executedAt: Option<Time>,
    cost: nat,
    discountPct: real,
    reasons: seq<PolicyRule>,
    resolveAfterSeconds: nat)

  datatype Transition = Transition(source: JourneyState, target: JourneyState, at: Time)

  datatype Journey = Journey(
    event: EventId,
    customer: CustomerId,
    state: JourneyState,
    plan: seq<PlanStep>,
    stepIndex: nat,
    nextActionAt: Option<Time>,
    createdAt: Time,
    closedAt: Option<Time>,
    contactsUsed: nat,
    retriesUsed: nat,
    discountsUsed: nat,
    voiceUsed: nat,
    npciAttemptsUsed: nat,
    futilePrevented: nat,
    recoveredAmount: int,
    cost: int,
    transitions: seq<Transition>,
    actions: seq<Action>)

  function NewJourney(event: EventId, customer: CustomerId, plan: seq<PlanStep>, now: Time): Journey {
    Journey(event, customer, Detected, plan, 0, None, now, None, 0, 0, 0, 0, 0, 0, 0, 0, [], [])
  }

  predicate Open(j: Journey) { !IsTerminal(j.state) }

  /** Moves a journey, or fails where the source raises an invalid-transition error. Moving to
      the state it is in already changes nothing. */
  function Move(j: Journey, target: JourneyState, now: Time): Option<Journey> {
    if j.state == target then Some(j)
    else if target !in AllowedTransitions(j.state) then None
    else
      var moved := j.(state := target, transitions := j.transitions + [Transition(j.state, target, now)]);
      Some(if IsTerminal(target) then moved.(closedAt := Some(now), nextActionAt := None) else moved)
  }

  /** The log is a connected walk through the transition table, from Detected to `end`. */
  predicate IsWalk(log: seq<Transition>, end: JourneyState) {
    if log == [] then end == Detected
    else
      var last := log[|log| - 1];
      last.target == end && last.target in AllowedTransitions(last.source)
      && IsWalk(log[..|log| - 1], last.source)
  }

  /** Nothing but the state, its log and the two times that go with them differs. */
  predicate Restated(j: Journey, k: Journey) {
    k == j.(state := k.state, transitions := k.transitions, closedAt := k.closedAt, nextActionAt := k.nextActionAt)
  }

  lemma MoveExtendsWalk(j: Journey, target: JourneyState, now: Time)
    requires IsWalk(j.transitions, j.state)
    requires Move(j, target, now).Some?
    ensures var j' := Move(j, target, now).value;
            && IsWalk(j'.transitions, j'.state) && j'.state == target && j.transitions <= j'.transitions
            && Restated(j, j')
  {
    if j.state != target {
      var log := j.transitions + [Transition(j.state, target, now)];
      assert log[..|log| - 1] == j.transitions;
    }
  }

  /** Every step of a walk is in the table and starts where the previous one ended. */
  lemma {:induction false} WalkIsConnected(log: seq<Transition>, end: JourneyState, i: nat)
    requires IsWalk(log, end) && i < |log|
    ensures log[i].target in AllowedTransitions(log[i].source)
    ensures log[i].source == (if i == 0 then Detected else log[i - 1].target)
    ensures i == |log| - 1 ==> log[i].target == end
    decreases |log|
  {
    var shorter := log[..|log| - 1];
    if i < |log| - 1 {
      WalkIsConnected(shorter, log[|log| - 1].source, i);
    } else if shorter != [] {
      assert shorter[|shorter| - 1] == log[i - 1];
    }
  }

  /** Closed is absorbing, and no journey that has walked into it can have left it before. */
  lemma {:induction false} ClosedOnlyAtEnd(log: seq<Transition>, end: JourneyState, i: nat)
    requires IsWalk(log, end) && i < |log| && log[i].target == Closed
    ensures i == |log| - 1
    decreases |log|
  {
    if i < |log| - 1 {
      WalkIsConnected(log, end, i + 1);
      assert false;
    }
  }
}
