/** Domain vocabulary: the enumerations, the intervention catalog and the cause library
    that every other module shares. */
module Domain {

  /** Failure-compatible, so that a step that raises propagates through `:-`. */
  datatype Option<+T> = None | Some(value: T) {
    predicate IsFailure() { None? }

    function PropagateFailure<U>(): Option<U>
      requires None?
    {
      None
    }

    function Extract(): T
      requires Some?
    {
      value
    }
  }

  datatype EventKind = PaymentFailure | CartAbandonment | SubscriptionFailure | OverdueInvoice

  datatype EventStatus = AtRisk | InRecovery | Recovered | Lost | Suppressed

  datatype Cohort = Control | Treatment

  datatype CauseLayer = CustomerLayer | PaymentLayer | MerchantLayer | SystemicLayer | IntentLayer
                      | ReceivableLayer | RegulatoryLayer

  datatype RootCause =
    | InsufficientBalance | AuthFriction | ExpiredInstrument | WrongInstrumentDetails
    | DeliberateAbandonment | TransientBankDecline | HardBankDecline | RouteTimeout
    | CheckoutLatency | MerchantMisconfiguration | RouteDegradation | MethodDegradation
    | PriceSensitivity | SessionDropoff | BuyerCashflow | ApprovalBottleneck | DisputedInvoice
    | MandateAbsent | MandateRevoked | MandateCapExceeded | PdnMissing | AfaThresholdBreach
    | ExecutionWindowMiss | UnknownCause

  datatype ActionType =
    | DoNothing | RetryPayment | PaymentLink | AltPaymentMethod | WhatsApp | Sms | Email | Voice
    | Discount | HumanEscalation | PromiseFollowup | ReregisterMandate | AmendMandateCap
    | SendPdn | SwitchRail

  datatype ActionStatus =
    | Planned | AwaitingApproval | Approved | Executing | Succeeded | Failed | Blocked | Cancelled | Skipped

  datatype Verdict = Allow | RequireApproval | Block

  datatype PolicyRule =
    | AutomationDisabled | JourneyPaused | CustomerOptedOut | ContactBudgetExhausted
    | RetryBudgetExhausted | DiscountBudgetExhausted | VoiceBudgetExhausted | CooldownActive
    | QuietHours | HighValueApproval | DiscountApproval | VoiceApproval | AlreadyRecovered
    | DegradationActive | DuplicateAction | CollisionDetected | RetryFutile | NpciBudgetExhausted
    | OutsideExecutionWindow | PdnPreconditionUnmet

  datatype GatewayStatus = GwSucceeded | GwFailed | GwPending

  /** One row of the intervention catalog. Costs are paise, friction and priors are rates. */
  datatype Intervention = Intervention(
    cost: nat,
    friction: real,
    baseSuccess: real,
    consumesContact: bool,
    touchesGateway: bool,
    discountPct: real)

  function Catalog(action: ActionType): Intervention {
    match action
    case DoNothing => Intervention(0, 0.0, 0.0, false, false, 0.0)
    case RetryPayment => Intervention(200, 0.02, 0.22, false, true, 0.0)
    case PaymentLink => Intervention(300, 0.12, 0.34, true, true, 0.0)
    case AltPaymentMethod => Intervention(250, 0.10, 0.36, true, true, 0.0)
    case WhatsApp => Intervention(65, 0.15, 0.40, true, false, 0.0)
    case Sms => Intervention(25, 0.18, 0.30, true, false, 0.0)
    case Email => Intervention(5, 0.06, 0.22, true, false, 0.0)
    case Voice => Intervention(900, 0.55, 0.52, true, false, 0.0)
    case Discount => Intervention(65, 0.20, 0.46, true, false, 8.0)
    case HumanEscalation => Intervention(12_000, 0.30, 0.62, false, false, 0.0)
    case PromiseFollowup => Intervention(65, 0.16, 0.44, true, false, 0.0)
    case ReregisterMandate => Intervention(150, 0.25, 0.48, true, true, 0.0)
    case AmendMandateCap => Intervention(100, 0.18, 0.52, true, true, 0.0)
    case SendPdn => Intervention(20, 0.08, 0.35, true, false, 0.0)
    case SwitchRail => Intervention(250, 0.12, 0.38, true, true, 0.0)
  }

  /** The actions each loss class may use, in catalog order. */
  function AllowedActions(kind: EventKind): seq<ActionType> {
    match kind
    case PaymentFailure =>
      [RetryPayment, PaymentLink, AltPaymentMethod, WhatsApp, Sms, Email, Voice, Discount,
       HumanEscalation, ReregisterMandate, AmendMandateCap, SendPdn, SwitchRail, DoNothing]
    case CartAbandonment =>
      [PaymentLink, WhatsApp, Sms, Email, Discount, DoNothing]
    case SubscriptionFailure =>
      [RetryPayment, PaymentLink, AltPaymentMethod, WhatsApp, Sms, Email, Voice, HumanEscalation,
       ReregisterMandate, AmendMandateCap, SendPdn, SwitchRail, DoNothing]
    case OverdueInvoice =>
      [PaymentLink, Email, WhatsApp, Sms, Voice, PromiseFollowup, HumanEscalation, DoNothing]
  }

  function Layer(cause: RootCause): CauseLayer {
    match cause
    case TransientBankDecline | HardBankDecline | RouteTimeout | UnknownCause => PaymentLayer
    case InsufficientBalance | AuthFriction | ExpiredInstrument | WrongInstrumentDetails => CustomerLayer
    case RouteDegradation | MethodDegradation => SystemicLayer
    case CheckoutLatency | MerchantMisconfiguration => MerchantLayer
    case PriceSensitivity | SessionDropoff | DeliberateAbandonment => IntentLayer
    case BuyerCashflow | ApprovalBottleneck | DisputedInvoice => ReceivableLayer
    case MandateAbsent | MandateRevoked | MandateCapExceeded | PdnMissing | AfaThresholdBreach
       | ExecutionWindowMiss => RegulatoryLayer
  }

  predicate Transient(cause: RootCause) {
    cause in {TransientBankDecline, InsufficientBalance, AuthFriction, RouteTimeout, RouteDegradation,
              MethodDegradation, CheckoutLatency, SessionDropoff, BuyerCashflow, ApprovalBottleneck,
              ExecutionWindowMiss}
  }

  /** The causes for which repeating the charge is guaranteed to be declined again. */
  predicate RetryIsFutile(cause: RootCause) {
    Layer(cause) == RegulatoryLayer && cause != ExecutionWindowMiss
  }

  // Instants are microseconds since the epoch, UTC.
  type Time = int

  const MINUTE: int := 60_000_000
  const HOUR: int := 3_600_000_000
  const DAY: int := 86_400_000_000

  /** Minute of the day in Indian Standard Time, which is UTC + 5:30. */
  function IstMinuteOfDay(t: Time): (m: nat)
    ensures m < 1440
  {
    (t / MINUTE + 330) % 1440
  }

  /** 10:00-13:00 IST, when the network refuses mandate presentations. */
  predicate InPeakWindow(t: Time) {
    600 <= IstMinuteOfDay(t) < 780
  }

  /** A wait, shortened by the demo clock dial. */
  function Scaled(seconds: nat, speedup: real): int {
    (seconds as real * 1_000_000.0 / MaxReal(speedup, 1.0)).Floor
  }

  /** Conversion to an integer the way the source does it: towards zero. */
  function Truncate(x: real): int {
    if x >= 0.0 then x.Floor else -((-x).Floor)
  }

  function MaxInt(a: int, b: int): int { if a >= b then a else b }

  function MaxReal(a: real, b: real): real { if a >= b then a else b }

  function MinReal(a: real, b: real): real { if a <= b then a else b }
}
