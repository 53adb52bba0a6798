/** The payment gateway contract, with the behaviour of the deterministic simulator: an execute
    may time out, and the state behind a timed-out key is only learned by asking for it. */
module Gateway {
  import opened Domain
  import opened Rows
  import opened Journey

  /** Simulator state: how many executes will still time out, what a timed-out one turns out to
      have done, and the keys whose real state nobody has asked for yet. */
  datatype Simulator = Simulator(timeouts: int, succeedAfterTimeout: bool, unresolved: set<Key>)

  datatype ExecuteAnswer = TimedOut | Answered(status: GatewayStatus)

  /** Which keys the outside world has paid, or will have paid when asked. */
  type Paid = set<Key>

  function TakeTimeout(g: Simulator): (Simulator, bool) {
    if g.timeouts <= 0 then (g, false) else (g.(timeouts := g.timeouts - 1), true)
  }

  function ExecuteAt(g: Simulator, key: Key, action: ActionType, paid: Paid): (Simulator, ExecuteAnswer) {
    var (g1, timedOut) := TakeTimeout(g);
    if timedOut then (g1.(unresolved := g1.unresolved + {key}), TimedOut)
    else if action == RetryPayment then (g1, Answered(if key in paid then GwSucceeded else GwFailed))
    else (g1, Answered(GwPending))
  }

  function FetchAt(g: Simulator, key: Key, paid: Paid): (Simulator, bool) {
    if key in g.unresolved
    then (g.(unresolved := g.unresolved - {key}), g.succeedAfterTimeout)
    else (g, key in paid)
  }

  /** Seconds until the outcome of a dispatched action can be asked for. */
  function ResolveDelay(action: ActionType): nat {
    60 * match action
         case PaymentLink => 35
         case AltPaymentMethod => 30
         case WhatsApp => 40
         case Sms => 55
         case Email => 90
         case Voice => 25
         case Discount => 45
         case PromiseFollowup => 120
         case HumanEscalation => 180
         case ReregisterMandate => 40
         case AmendMandateCap => 35
         case SendPdn => 20
         case SwitchRail => 30
         case RetryPayment | DoNothing => 60
  }

  class RazorpaySimulator {
    var timeoutsRemaining: int
    var succeedAfterTimeout: bool
    var unresolved: set<Key>

    ghost function State(): Simulator
      reads this
    {
      Simulator(timeoutsRemaining, succeedAfterTimeout, unresolved)
    }

    constructor ()
      ensures State() == Simulator(0, true, {})
    {
      timeoutsRemaining, succeedAfterTimeout, unresolved := 0, true, {};
    }

    method Execute(key: Key, action: ActionType, paid: Paid) returns (answer: ExecuteAnswer)
      modifies this
      ensures (State(), answer) == ExecuteAt(old(State()), key, action, paid)
      ensures unresolved == old(unresolved) + if answer == TimedOut then {key} else {}
      ensures answer == TimedOut <==> old(timeoutsRemaining) > 0
      ensures answer.Answered? && answer.status != GwPending ==> action == RetryPayment
    {
      if timeoutsRemaining > 0 {
        timeoutsRemaining := timeoutsRemaining - 1;
        unresolved := unresolved + {key};
        return TimedOut;
      }
      if action == RetryPayment {
        answer := Answered(if key in paid then GwSucceeded else GwFailed);
      } else {
        answer := Answered(GwPending);
      }
    }

    method FetchState(key: Key, paid: Paid) returns (succeeded: bool)
      modifies this
      ensures (State(), succeeded) == FetchAt(old(State()), key, paid)
      ensures unresolved == old(unresolved) - {key} && timeoutsRemaining == old(timeoutsRemaining)
      ensures key in old(unresolved) ==> succeeded == succeedAfterTimeout
    {
      if key in unresolved {
        unresolved := unresolved - {key};
        return succeedAfterTimeout;
      }
      succeeded := key in paid;
    }
  }

  /** Asking after a timeout settles the key: the pair leaves nothing unresolved, and the answer
      is the one that was decided when the call timed out, whatever the outside world says now. */
  lemma AskingResolves(g: Simulator, key: Key, action: ActionType, paid: Paid, later: Paid)
    requires ExecuteAt(g, key, action, paid).1 == TimedOut && key !in g.unresolved
    ensures var (g', succeeded) := FetchAt(ExecuteAt(g, key, action, paid).0, key, later);
            g' == g.(timeouts := g.timeouts - 1) && succeeded == g.succeedAfterTimeout
  {
    assert g.unresolved + {key} - {key} == g.unresolved;
  }
}
