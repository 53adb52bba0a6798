/** The root-cause investigator: candidate causes start at their prior weight and are re-weighted
    by four passes of evidence; the ranking is normalised. */
module RootCauses {
  import opened Domain

  const MIN_CANDIDATE_WEIGHT := 0.02
  const UNLISTED_WEIGHT := 0.05
  const MAX_CANDIDATES: nat := 4

  datatype FailureCode =
    | InsufficientFunds | AuthenticationFailed | CardExpired | InvalidVpa | PaymentCancelled | OtpTimeout
    | LimitExceeded | IssuerDeclined | IssuerUnavailable | PspUnavailable | GatewayTimeout | GatewayError
    | CheckoutError | ConfigurationError | CheckoutTimeout | PriceHesitation | MethodUnavailable | InvoiceUnpaid
    | PromiseBroken | MandateNotFound | MandateWithdrawn | MandateAmountExceeds | PdnNotDelivered | AfaRequired
    | MandatePaused

  /** A cause and its weight. The list keeps the order in which causes came up. */
  datatype Weighted = Weighted(cause: RootCause, weight: real)

  /** The facts of one event and its customer that the investigator looks at. */
  datatype Case = Case(code: Option<FailureCode>, kind: EventKind, retryCount: nat, checkoutSeconds: nat,
                       cartItems: nat, amount: nat, averageOrder: nat, paymentCount: nat, successRate: real,
                       dueDate: Option<Time>, now: Time)

  datatype Signal = Signal(routeDegraded: bool, routeRatio: real, methodDegraded: bool, methodRatio: real)

  function Priors(code: FailureCode): seq<Weighted> {
    match code
    case InsufficientFunds => [Weighted(InsufficientBalance, 0.92)]
    case AuthenticationFailed => [Weighted(AuthFriction, 0.74), Weighted(TransientBankDecline, 0.18)]
    case OtpTimeout => [Weighted(AuthFriction, 0.88)]
    case CardExpired => [Weighted(ExpiredInstrument, 0.95)]
    case InvalidVpa => [Weighted(WrongInstrumentDetails, 0.90)]
    case PaymentCancelled => [Weighted(DeliberateAbandonment, 0.62), Weighted(AuthFriction, 0.24)]
    case LimitExceeded => [Weighted(HardBankDecline, 0.58), Weighted(InsufficientBalance, 0.30)]
    case IssuerDeclined => [Weighted(TransientBankDecline, 0.56), Weighted(HardBankDecline, 0.34)]
    case IssuerUnavailable => [Weighted(RouteDegradation, 0.55), Weighted(TransientBankDecline, 0.35)]
    case PspUnavailable => [Weighted(MethodDegradation, 0.60), Weighted(RouteDegradation, 0.30)]
    case GatewayTimeout => [Weighted(RouteTimeout, 0.72), Weighted(RouteDegradation, 0.20)]
    case GatewayError => [Weighted(RouteDegradation, 0.48), Weighted(RouteTimeout, 0.30)]
    case CheckoutError => [Weighted(CheckoutLatency, 0.70)]
    case ConfigurationError => [Weighted(MerchantMisconfiguration, 0.86)]
    case CheckoutTimeout => [Weighted(SessionDropoff, 0.66), Weighted(CheckoutLatency, 0.22)]
    case PriceHesitation => [Weighted(PriceSensitivity, 0.70), Weighted(DeliberateAbandonment, 0.22)]
    case MethodUnavailable => [Weighted(MethodDegradation, 0.68)]
    case InvoiceUnpaid =>
      [Weighted(BuyerCashflow, 0.48), Weighted(ApprovalBottleneck, 0.34), Weighted(DisputedInvoice, 0.14)]
    case PromiseBroken => [Weighted(BuyerCashflow, 0.60), Weighted(DisputedInvoice, 0.26)]
    case MandateNotFound => [Weighted(MandateAbsent, 0.96)]
    case MandateWithdrawn => [Weighted(MandateRevoked, 0.97)]
    case MandateAmountExceeds => [Weighted(MandateCapExceeded, 0.95)]
    case PdnNotDelivered => [Weighted(PdnMissing, 0.94)]
    case AfaRequired => [Weighted(AfaThresholdBreach, 0.96)]
    case MandatePaused => [Weighted(MandateRevoked, 0.70), Weighted(MandateAbsent, 0.20)]
  }

  function StartingWeights(code: Option<FailureCode>): seq<Weighted> {
    if code.Some? then Priors(code.value) else [Weighted(UnknownCause, 1.0)]
  }

  // ------------------------------------------------------------------------ re-weighting

  function WeightOf(ws: seq<Weighted>, cause: RootCause): real {
    if ws == [] then 0.0 else if ws[0].cause == cause then ws[0].weight else WeightOf(ws[1..], cause)
  }

  function Reweighted(w: Weighted, factor: real): Weighted {
    Weighted(w.cause, w.weight * factor)
  }

  /** Multiply a weight; a cause that is not listed joins at the end with a small one. */
  function Boost(ws: seq<Weighted>, cause: RootCause, factor: real): seq<Weighted> {
    if ws == [] then [Weighted(cause, UNLISTED_WEIGHT * factor)]
    else if ws[0].cause == cause then [Reweighted(ws[0], factor)] + ws[1..]
    else [ws[0]] + Boost(ws[1..], cause, factor)
  }

  /** Multiply a weight if the cause is listed at all. */
  function Scale(ws: seq<Weighted>, cause: RootCause, factor: real): seq<Weighted> {
    if ws == [] then []
    else if ws[0].cause == cause then [Reweighted(ws[0], factor)] + ws[1..]
    else [ws[0]] + Scale(ws[1..], cause, factor)
  }

  datatype Step = BoostBy(cause: RootCause, factor: real) | ScaleBy(cause: RootCause, factor: real)

  function Take(ws: seq<Weighted>, step: Step): seq<Weighted> {
    match step
    case BoostBy(cause, factor) => Boost(ws, cause, factor)
    case ScaleBy(cause, factor) => Scale(ws, cause, factor)
  }

  function TakeAll(ws: seq<Weighted>, steps: seq<Step>): seq<Weighted>
    decreases |steps|
  {
    if steps == [] then ws else TakeAll(Take(ws, steps[0]), steps[1..])
  }

  function RouteSteps(s: Signal): seq<Step> {
    if !s.routeDegraded then []
    else [BoostBy(RouteDegradation, 1.0 + 2.6 * MinReal(s.routeRatio / 2.0, 2.0)),
          ScaleBy(TransientBankDecline, 0.55), ScaleBy(HardBankDecline, 0.55)]
  }

  function MethodSteps(s: Signal): seq<Step> {
    if !s.methodDegraded then [] else [BoostBy(MethodDegradation, 1.0 + 2.0 * MinReal(s.methodRatio / 2.0, 2.0))]
  }

  function OrderRatio(c: Case): real {
    c.amount as real / (if c.averageOrder > 1 then c.averageOrder else 1) as real
  }

  function RetrySteps(c: Case): seq<Step> {
    if c.retryCount >= 2 then [BoostBy(HardBankDecline, 2.1), ScaleBy(TransientBankDecline, 0.45)] else []
  }

  function CheckoutSteps(c: Case): seq<Step> {
    if c.kind != CartAbandonment then []
    else if c.checkoutSeconds > 600 then [BoostBy(CheckoutLatency, 2.2)]
    else if c.checkoutSeconds < 75 && c.cartItems <= 1 then [BoostBy(DeliberateAbandonment, 1.9)]
    else []
  }

  function PriceSteps(c: Case): seq<Step> {
    if c.kind == CartAbandonment && OrderRatio(c) > 2.0
    then [BoostBy(PriceSensitivity, 1.7 + MinReal(OrderRatio(c), 6.0) * 0.12)] else []
  }

  function TransactionSteps(c: Case): seq<Step> {
    RetrySteps(c) + CheckoutSteps(c) + PriceSteps(c)
  }

  function CustomerSteps(c: Case): seq<Step> {
    if c.successRate >= 0.9 && c.paymentCount >= 4 then
      [ScaleBy(DeliberateAbandonment, 0.55), ScaleBy(DisputedInvoice, 0.55),
       ScaleBy(TransientBankDecline, 1.35), ScaleBy(AuthFriction, 1.35)]
    else if c.paymentCount <= 1 then [BoostBy(WrongInstrumentDetails, 1.4)]
    else []
  }

  function DaysOverdue(c: Case): real
    requires c.dueDate.Some?
  {
    MaxReal((c.now - c.dueDate.value) as real / DAY as real, 0.0)
  }

  function ReceivableSteps(c: Case): seq<Step> {
    if c.kind != OverdueInvoice || c.dueDate.None? then []
    else
      [if DaysOverdue(c) > 30.0 then BoostBy(DisputedInvoice, 2.0)
       else if DaysOverdue(c) > 12.0 then BoostBy(ApprovalBottleneck, 1.5)
       else BoostBy(BuyerCashflow, 1.4)]
      + (if c.code == Some(PromiseBroken) then [BoostBy(BuyerCashflow, 1.6)] else [])
  }

  /** The evidence of one case: everything but the route signal, which comes first. */
  function CaseSteps(c: Case, s: Signal): seq<Step> {
    MethodSteps(s) + TransactionSteps(c) + CustomerSteps(c) + ReceivableSteps(c)
  }

  function FinalWeights(c: Case, s: Signal): seq<Weighted> {
    TakeAll(TakeAll(StartingWeights(c.code), RouteSteps(s)), CaseSteps(c, s))
  }

  // --------------------------------------------------------------------------- ranking

  function Total(ws: seq<Weighted>): real {
    if ws == [] then 0.0 else ws[0].weight + Total(ws[1..])
  }

  function Normalised(ws: seq<Weighted>, total: real): (r: seq<Weighted>)
    requires total != 0.0
    ensures |r| == |ws| && forall i :: 0 <= i < |ws| ==> r[i] == Weighted(ws[i].cause, ws[i].weight / total)
  {
    if ws == [] then [] else [Weighted(ws[0].cause, ws[0].weight / total)] + Normalised(ws[1..], total)
  }

  function InsertCause(x: Weighted, s: seq<Weighted>): seq<Weighted> {
    if s == [] || s[0].weight <= x.weight then [x] + s else [s[0]] + InsertCause(x, s[1..])
  }

  /** Stable order by falling weight. */
  function RankCauses(s: seq<Weighted>): seq<Weighted> {
    if s == [] then [] else InsertCause(s[0], RankCauses(s[1..]))
  }

  function Worth(s: seq<Weighted>): seq<Weighted> {
    if s == [] then []
    else if s[0].weight >= MIN_CANDIDATE_WEIGHT then [s[0]] + Worth(s[1..]) else Worth(s[1..])
  }

  function Candidates(ranked: seq<Weighted>): seq<Weighted> {
    var shown := Worth(ranked);
    if |shown| <= MAX_CANDIDATES then shown else shown[..MAX_CANDIDATES]
  }

  datatype Diagnosis = Diagnosis(cause: RootCause, confidence: real, candidates: seq<Weighted>)

  function Ranked(ws: seq<Weighted>): seq<Weighted> {
    var total := Total(ws);
    RankCauses(Normalised(ws, if total == 0.0 then 1.0 else total))
  }

  function Investigate(c: Case, s: Signal): Diagnosis {
    var ranked := Ranked(FinalWeights(c, s));
    if ranked == [] then Diagnosis(UnknownCause, 0.0, [])
    else Diagnosis(ranked[0].cause, ranked[0].weight, Candidates(ranked))
  }

  /** The investigator's weights as its passes change them in place. */
  class Weights {
    var listed: seq<Weighted>

    constructor (code: Option<FailureCode>)
      ensures listed == StartingWeights(code)
    {
      var weights := if code.Some? then Priors(code.value) else [];
      if weights == [] {
        weights := [Weighted(UnknownCause, 1.0)];
      }
      listed := weights;
    }

    method IndexOf(cause: RootCause) returns (i: nat)
      ensures FirstAt(listed, cause, i)
    {
      i := 0;
      while i < |listed| && listed[i].cause != cause
        invariant 0 <= i <= |listed|
        invariant forall k :: 0 <= k < i ==> listed[k].cause != cause
      {
        i := i + 1;
      }
    }

    method BoostCause(cause: RootCause, factor: real)
      modifies this
      ensures listed == Boost(old(listed), cause, factor)
    {
      var i := IndexOf(cause);
      if i < |listed| {
        ReplacedAt(listed, cause, factor, i);
        listed := listed[i := Reweighted(listed[i], factor)];
      } else {
        NotListed(listed, cause, factor);
        listed := listed + [Weighted(cause, UNLISTED_WEIGHT * factor)];
      }
    }

    method ScaleCause(cause: RootCause, factor: real)
      modifies this
      ensures listed == Scale(old(listed), cause, factor)
    {
      var i := IndexOf(cause);
      if i < |listed| {
        ReplacedAt(listed, cause, factor, i);
        listed := listed[i := Reweighted(listed[i], factor)];
      } else {
        NotListed(listed, cause, factor);
      }
    }

    method ApplySystemic(s: Signal)
      modifies this
      ensures listed == TakeAll(TakeAll(old(listed), RouteSteps(s)), MethodSteps(s))
    {
      if s.routeDegraded {
        BoostCause(RouteDegradation, 1.0 + 2.6 * MinReal(s.routeRatio / 2.0, 2.0));
        ScaleCause(TransientBankDecline, 0.55);
        ScaleCause(HardBankDecline, 0.55);
        Three(old(listed), RouteSteps(s));
      }
      if s.methodDegraded {
        One(listed, MethodSteps(s));
        BoostCause(MethodDegradation, 1.0 + 2.0 * MinReal(s.methodRatio / 2.0, 2.0));
      }
    }

    method ApplyTransaction(c: Case)
      modifies this
      ensures listed == TakeAll(old(listed), TransactionSteps(c))
    {
      TakeAllAppend(listed, RetrySteps(c) + CheckoutSteps(c), PriceSteps(c));
      TakeAllAppend(listed, RetrySteps(c), CheckoutSteps(c));
      if c.retryCount >= 2 {
        Two(listed, RetrySteps(c));
        BoostCause(HardBankDecline, 2.1);
        ScaleCause(TransientBankDecline, 0.45);
      }
      if c.kind == CartAbandonment {
        if c.checkoutSeconds > 600 {
          One(listed, CheckoutSteps(c));
          BoostCause(CheckoutLatency, 2.2);
        } else if c.checkoutSeconds < 75 && c.cartItems <= 1 {
          One(listed, CheckoutSteps(c));
          BoostCause(DeliberateAbandonment, 1.9);
        }
        var ratio := OrderRatio(c);
        if ratio > 2.0 {
          One(listed, PriceSteps(c));
          BoostCause(PriceSensitivity, 1.7 + MinReal(ratio, 6.0) * 0.12);
        }
      }
    }

    method ApplyCustomer(c: Case)
      modifies this
      ensures listed == TakeAll(old(listed), CustomerSteps(c))
    {
      ghost var before := listed;
      if c.successRate >= 0.9 && c.paymentCount >= 4 {
        ScaleCause(DeliberateAbandonment, 0.55);
        ScaleCause(DisputedInvoice, 0.55);
        ScaleCause(TransientBankDecline, 1.35);
        ScaleCause(AuthFriction, 1.35);
        Four(before, CustomerSteps(c));
      } else if c.paymentCount <= 1 {
        One(before, CustomerSteps(c));
        BoostCause(WrongInstrumentDetails, 1.4);
      }
    }

    method ApplyReceivable(c: Case)
      modifies this
      ensures listed == TakeAll(old(listed), ReceivableSteps(c))
    {
      if c.kind != OverdueInvoice || c.dueDate.None? {
        return;
      }
      ghost var before := listed;
      var days := DaysOverdue(c);
      if days > 30.0 {
        BoostCause(DisputedInvoice, 2.0);
      } else if days > 12.0 {
        BoostCause(ApprovalBottleneck, 1.5);
      } else {
        BoostCause(BuyerCashflow, 1.4);
      }
      ghost var steps := ReceivableSteps(c);
      assert TakeAll(before, steps) == TakeAll(listed, steps[1..]);
      if c.code == Some(PromiseBroken) {
        One(listed, steps[1..]);
        BoostCause(BuyerCashflow, 1.6);
      }
    }
  }

  method InvestigateCase(c: Case, s: Signal) returns (d: Diagnosis)
    ensures d == Investigate(c, s)
  {
    var weights := new Weights(c.code);
    weights.ApplySystemic(s);
    weights.ApplyTransaction(c);
    weights.ApplyCustomer(c);
    weights.ApplyReceivable(c);
    PassesInOrder(TakeAll(StartingWeights(c.code), RouteSteps(s)), c, s);
    var ranked := Ranked(weights.listed);
    d := if ranked == [] then Diagnosis(UnknownCause, 0.0, [])
         else Diagnosis(ranked[0].cause, ranked[0].weight, Candidates(ranked));
  }

  // ---------------------------------------------------------- the passes are lists of steps

  lemma One(ws: seq<Weighted>, steps: seq<Step>)
    requires |steps| == 1
    ensures TakeAll(ws, steps) == Take(ws, steps[0])
  {
    assert steps[1..] == [];
  }

  lemma Two(ws: seq<Weighted>, steps: seq<Step>)
    requires |steps| == 2
    ensures TakeAll(ws, steps) == Take(Take(ws, steps[0]), steps[1])
  {
    One(Take(ws, steps[0]), steps[1..]);
  }

  lemma Three(ws: seq<Weighted>, steps: seq<Step>)
    requires |steps| == 3
    ensures TakeAll(ws, steps) == Take(Take(Take(ws, steps[0]), steps[1]), steps[2])
  {
    Two(Take(ws, steps[0]), steps[1..]);
    assert steps[1..][1] == steps[2];
  }

  lemma Four(ws: seq<Weighted>, steps: seq<Step>)
    requires |steps| == 4
    ensures TakeAll(ws, steps) == Take(Take(Take(Take(ws, steps[0]), steps[1]), steps[2]), steps[3])
  {
    Three(Take(ws, steps[0]), steps[1..]);
    assert steps[1..][1] == steps[2] && steps[1..][2] == steps[3];
  }

  lemma {:induction false} TakeAllAppend(ws: seq<Weighted>, a: seq<Step>, b: seq<Step>)
    ensures TakeAll(ws, a + b) == TakeAll(TakeAll(ws, a), b)
    decreases |a|
  {
    if a == [] {
      assert a + b == b;
    } else {
      assert (a + b)[1..] == a[1..] + b;
      TakeAllAppend(Take(ws, a[0]), a[1..], b);
    }
  }

  lemma PassesInOrder(ws: seq<Weighted>, c: Case, s: Signal)
    ensures TakeAll(ws, CaseSteps(c, s))
            == TakeAll(TakeAll(TakeAll(TakeAll(ws, MethodSteps(s)), TransactionSteps(c)), CustomerSteps(c)),
                       ReceivableSteps(c))
  {
    TakeAllAppend(ws, MethodSteps(s) + TransactionSteps(c) + CustomerSteps(c), ReceivableSteps(c));
    TakeAllAppend(ws, MethodSteps(s) + TransactionSteps(c), CustomerSteps(c));
    TakeAllAppend(ws, MethodSteps(s), TransactionSteps(c));
  }

  predicate FirstAt(ws: seq<Weighted>, cause: RootCause, i: nat) {
    && i <= |ws| && (i < |ws| ==> ws[i].cause == cause)
    && forall k :: 0 <= k < i ==> ws[k].cause != cause
  }

  lemma {:induction false} ReplacedAt(ws: seq<Weighted>, cause: RootCause, factor: real, i: nat)
    requires FirstAt(ws, cause, i) && i < |ws|
    ensures Boost(ws, cause, factor) == ws[i := Reweighted(ws[i], factor)]
    ensures Scale(ws, cause, factor) == ws[i := Reweighted(ws[i], factor)]
  {
    if i > 0 {
      ReplacedAt(ws[1..], cause, factor, i - 1);
      var w := Reweighted(ws[i], factor);
      assert [ws[0]] + ws[1..][i - 1 := w] == ws[i := w];
    } else {
      assert ws[0 := Reweighted(ws[0], factor)] == [Reweighted(ws[0], factor)] + ws[1..];
    }
  }

  lemma {:induction false} NotListed(ws: seq<Weighted>, cause: RootCause, factor: real)
    requires FirstAt(ws, cause, |ws|)
    ensures Boost(ws, cause, factor) == ws + [Weighted(cause, UNLISTED_WEIGHT * factor)]
    ensures Scale(ws, cause, factor) == ws
  {
    if ws != [] {
      NotListed(ws[1..], cause, factor);
      assert ws == [ws[0]] + ws[1..];
    }
  }

  // ------------------------------------------------------- weights stay a proper ranking

  predicate Positive(ws: seq<Weighted>) {
    forall i :: 0 <= i < |ws| ==> ws[i].weight > 0.0
  }

  predicate DistinctCauses(ws: seq<Weighted>) {
    forall i, k :: 0 <= i < k < |ws| ==> ws[i].cause != ws[k].cause
  }

  predicate Gentle(steps: seq<Step>) {
    forall i :: 0 <= i < |steps| ==> steps[i].factor > 0.0
  }

  /** What every list of weights is: not empty, positive, one entry per cause. */
  predicate Proper(ws: seq<Weighted>) {
    ws != [] && Positive(ws) && DistinctCauses(ws)
  }

  lemma FirstOf(ws: seq<Weighted>, cause: RootCause) returns (i: nat)
    ensures FirstAt(ws, cause, i)
  {
    i := 0;
    while i < |ws| && ws[i].cause != cause
      invariant 0 <= i <= |ws|
      invariant forall k :: 0 <= k < i ==> ws[k].cause != cause
    {
      i := i + 1;
    }
  }

  lemma PositiveProduct(a: real, b: real)
    requires a > 0.0 && b > 0.0
    ensures a * b > 0.0
  {
  }

  lemma ReweightedPositive(w: Weighted, factor: real)
    requires w.weight > 0.0 && factor > 0.0
    ensures Reweighted(w, factor).weight > 0.0
  {
    PositiveProduct(w.weight, factor);
  }

  lemma StepKeepsProper(ws: seq<Weighted>, step: Step)
    requires Proper(ws) && step.factor > 0.0
    ensures Proper(Take(ws, step)) && |ws| <= |Take(ws, step)| <= |ws| + (if step.BoostBy? then 1 else 0)
  {
    var i := FirstOf(ws, step.cause);
    if i < |ws| {
      ReplacedAt(ws, step.cause, step.factor, i);
      ReweightedPositive(ws[i], step.factor);
    } else {
      NotListed(ws, step.cause, step.factor);
      PositiveProduct(UNLISTED_WEIGHT, step.factor);
    }
  }

  lemma {:induction false} StepsKeepProper(ws: seq<Weighted>, steps: seq<Step>)
    requires Proper(ws) && Gentle(steps)
    ensures Proper(TakeAll(ws, steps)) && |TakeAll(ws, steps)| <= |ws| + |steps|
    decreases |steps|
  {
    if steps != [] {
      StepKeepsProper(ws, steps[0]);
      assert forall i :: 0 <= i < |steps[1..]| ==> steps[1..][i] == steps[i + 1];
      StepsKeepProper(Take(ws, steps[0]), steps[1..]);
    }
  }

  /** The detector's ratios are never negative. */
  predicate Measured(s: Signal) { s.routeRatio >= 0.0 && s.methodRatio >= 0.0 }

  predicate LeavesRouteAlone(steps: seq<Step>) {
    forall i :: 0 <= i < |steps| ==> steps[i].cause != RouteDegradation
  }

  predicate Mild(steps: seq<Step>, n: nat) {
    Gentle(steps) && LeavesRouteAlone(steps) && |steps| <= n
  }

  lemma MildAppend(a: seq<Step>, b: seq<Step>, m: nat, n: nat)
    requires Mild(a, m) && Mild(b, n)
    ensures Mild(a + b, m + n)
  {
  }

  lemma RatioNotNegative(a: real, b: real)
    requires a >= 0.0 && b > 0.0
    ensures a / b >= 0.0
  {
  }

  lemma PriceIsMild(c: Case)
    ensures Mild(PriceSteps(c), 1)
  {
    RatioNotNegative(c.amount as real, (if c.averageOrder > 1 then c.averageOrder else 1) as real);
  }

  /** Every pass but the route's is a few positive re-weightings of other causes. */
  lemma CaseIsMild(c: Case, s: Signal)
    requires Measured(s)
    ensures Mild(CaseSteps(c, s), 11)
  {
    PriceIsMild(c);
    assert Mild(RetrySteps(c), 2) && Mild(CheckoutSteps(c), 1);
    MildAppend(RetrySteps(c), CheckoutSteps(c), 2, 1);
    MildAppend(RetrySteps(c) + CheckoutSteps(c), PriceSteps(c), 3, 1);
    assert Mild(MethodSteps(s), 1) && Mild(CustomerSteps(c), 4);
    ReceivableIsMild(c);
    MildAppend(MethodSteps(s), TransactionSteps(c), 1, 4);
    MildAppend(MethodSteps(s) + TransactionSteps(c), CustomerSteps(c), 5, 4);
    MildAppend(MethodSteps(s) + TransactionSteps(c) + CustomerSteps(c), ReceivableSteps(c), 9, 2);
  }

  lemma ReceivableIsMild(c: Case)
    ensures Mild(ReceivableSteps(c), 2)
  {
  }

  lemma RouteIsGentle(s: Signal)
    requires Measured(s)
    ensures Gentle(RouteSteps(s)) && |RouteSteps(s)| <= 3
  {
  }

  lemma StartIsProper(code: Option<FailureCode>)
    ensures Proper(StartingWeights(code)) && |StartingWeights(code)| <= 3
  {
  }

  /** Through all passes the weights stay positive, one per cause, and few. */
  lemma FinalWeightsProper(c: Case, s: Signal)
    requires Measured(s)
    ensures Proper(FinalWeights(c, s)) && |FinalWeights(c, s)| <= 17
  {
    StartIsProper(c.code);
    RouteIsGentle(s);
    CaseIsMild(c, s);
    StepsKeepProper(StartingWeights(c.code), RouteSteps(s));
    StepsKeepProper(TakeAll(StartingWeights(c.code), RouteSteps(s)), CaseSteps(c, s));
  }

  // ----------------------------------------------------------------------- the posterior

  lemma {:induction false} TotalPositive(ws: seq<Weighted>)
    requires Positive(ws)
    ensures Total(ws) >= 0.0 && (ws != [] ==> Total(ws) > 0.0)
  {
    if ws != [] { TotalPositive(ws[1..]); }
  }

  lemma QuotientSum(a: real, b: real, t: real)
    requires t != 0.0
    ensures a / t + b / t == (a + b) / t
  {
  }

  lemma {:induction false} NormalisedTotal(ws: seq<Weighted>, t: real)
    requires t != 0.0
    ensures Total(Normalised(ws, t)) == Total(ws) / t
  {
    if ws != [] {
      NormalisedTotal(ws[1..], t);
      QuotientSum(ws[0].weight, Total(ws[1..]), t);
    }
  }

  predicate Falling(ws: seq<Weighted>) {
    forall i, k :: 0 <= i < k < |ws| ==> ws[i].weight >= ws[k].weight
  }

  lemma {:induction false} InsertPermutes(x: Weighted, ws: seq<Weighted>)
    ensures multiset(InsertCause(x, ws)) == multiset{x} + multiset(ws)
  {
    if ws != [] && ws[0].weight > x.weight {
      InsertPermutes(x, ws[1..]);
      assert ws == [ws[0]] + ws[1..];
    }
  }

  lemma InsertedIs(x: Weighted, ws: seq<Weighted>, w: Weighted)
    requires w in InsertCause(x, ws)
    ensures w == x || w in ws
  {
    InsertPermutes(x, ws);
    assert w in multiset(InsertCause(x, ws));
  }

  lemma {:induction false} InsertFalls(x: Weighted, ws: seq<Weighted>)
    requires Falling(ws)
    ensures Falling(InsertCause(x, ws))
  {
    if ws != [] && ws[0].weight > x.weight {
      InsertFalls(x, ws[1..]);
      var t := InsertCause(x, ws[1..]);
      forall i | 0 <= i < |t| ensures t[i].weight <= ws[0].weight { InsertedIs(x, ws[1..], t[i]); }
    }
  }

  lemma {:induction false} InsertAdds(x: Weighted, ws: seq<Weighted>)
    ensures Total(InsertCause(x, ws)) == x.weight + Total(ws) && |InsertCause(x, ws)| == |ws| + 1
  {
    if ws != [] && ws[0].weight > x.weight { InsertAdds(x, ws[1..]); }
  }

  lemma {:induction false} RankAdds(ws: seq<Weighted>)
    ensures Total(RankCauses(ws)) == Total(ws) && |RankCauses(ws)| == |ws|
  {
    if ws != [] {
      RankAdds(ws[1..]);
      InsertAdds(ws[0], RankCauses(ws[1..]));
    }
  }

  /** Ranking permutes into falling weight. */
  lemma {:induction false} RankKeeps(ws: seq<Weighted>)
    ensures Falling(RankCauses(ws)) && multiset(RankCauses(ws)) == multiset(ws)
  {
    if ws != [] {
      RankKeeps(ws[1..]);
      InsertPermutes(ws[0], RankCauses(ws[1..]));
      InsertFalls(ws[0], RankCauses(ws[1..]));
      assert ws == [ws[0]] + ws[1..];
    }
  }

  lemma {:induction false} TotalAtMost(ws: seq<Weighted>, top: real)
    requires forall i :: 0 <= i < |ws| ==> ws[i].weight <= top
    ensures Total(ws) <= top * |ws| as real
  {
    if ws != [] { TotalAtMost(ws[1..], top); }
  }

  lemma {:induction false} WorthKeeps(ws: seq<Weighted>)
    requires Falling(ws)
    ensures Falling(Worth(ws)) && (forall w :: w in Worth(ws) <==> w in ws && w.weight >= MIN_CANDIDATE_WEIGHT)
    ensures ws != [] && ws[0].weight >= MIN_CANDIDATE_WEIGHT ==> Worth(ws) != [] && Worth(ws)[0] == ws[0]
  {
    if ws != [] {
      WorthKeeps(ws[1..]);
      assert ws == [ws[0]] + ws[1..];
      forall w | w in Worth(ws[1..]) ensures w.weight <= ws[0].weight { assert w in ws[1..]; }
    }
  }

  /** The normalised ranking sums to one and falls. */
  lemma RankingSumsToOne(ws: seq<Weighted>)
    requires Proper(ws)
    ensures Ranked(ws) != [] && |Ranked(ws)| == |ws| && Total(Ranked(ws)) == 1.0 && Falling(Ranked(ws))
  {
    TotalPositive(ws);
    NormalisedTotal(ws, Total(ws));
    WholeOfItself(Total(ws));
    RankAdds(Normalised(ws, Total(ws)));
    RankKeeps(Normalised(ws, Total(ws)));
  }

  lemma WholeOfItself(t: real)
    requires t != 0.0
    ensures t / t == 1.0
  {
  }

  lemma TopIsLarge(ranked: seq<Weighted>)
    requires ranked != [] && Falling(ranked) && Total(ranked) == 1.0 && |ranked| <= 17
    ensures 1.0 <= ranked[0].weight * 17.0 && ranked[0].weight >= MIN_CANDIDATE_WEIGHT
  {
    TotalAtMost(ranked, ranked[0].weight);
    LargestShare(ranked[0].weight, |ranked| as real);
  }

  lemma LargestShare(x: real, n: real)
    requires 0.0 < n <= 17.0 && 1.0 <= x * n
    ensures 1.0 <= x * 17.0
  {
    NegativeProduct(x, n);
    assert x * n <= x * 17.0;
  }

  lemma NegativeProduct(x: real, n: real)
    requires n > 0.0
    ensures x < 0.0 ==> x * n < 0.0
  {
  }

  /** The diagnosed cause has the largest share, at least one seventeenth, so it always heads the
      candidates shown, which are at most four, fall, and are all worth showing. */
  lemma PosteriorIsRanking(c: Case, s: Signal)
    requires Measured(s)
    ensures var ranked, d := Ranked(FinalWeights(c, s)), Investigate(c, s);
            && ranked != [] && Total(ranked) == 1.0 && Falling(ranked)
            && d.cause == ranked[0].cause && (forall i :: 0 <= i < |ranked| ==> ranked[i].weight <= d.confidence)
            && 1.0 <= d.confidence * 17.0
            && HeadedBy(d.candidates, Weighted(d.cause, d.confidence))
  {
    FinalWeightsProper(c, s);
    RankingSumsToOne(FinalWeights(c, s));
    TopIsLarge(Ranked(FinalWeights(c, s)));
    ShownAreHeaded(Ranked(FinalWeights(c, s)));
  }

  predicate HeadedBy(shown: seq<Weighted>, first: Weighted) {
    && 1 <= |shown| <= MAX_CANDIDATES && shown[0] == first && Falling(shown)
    && forall i :: 0 <= i < |shown| ==> shown[i].weight >= MIN_CANDIDATE_WEIGHT
  }

  lemma ShownAreHeaded(ranked: seq<Weighted>)
    requires ranked != [] && Falling(ranked) && ranked[0].weight >= MIN_CANDIDATE_WEIGHT
    ensures HeadedBy(Candidates(ranked), ranked[0])
  {
    WorthKeeps(ranked);
    var shown := Worth(ranked);
    forall i | 0 <= i < |shown| ensures shown[i].weight >= MIN_CANDIDATE_WEIGHT { assert shown[i] in shown; }
  }

  // ------------------------------------------ a degraded route never lowers its own share

  function Posterior(c: Case, s: Signal, cause: RootCause): real
    requires Total(FinalWeights(c, s)) != 0.0
  {
    WeightOf(FinalWeights(c, s), cause) / Total(FinalWeights(c, s))
  }

  /** All entries but those of the route. */
  function Others(ws: seq<Weighted>): seq<Weighted> {
    if ws == [] then []
    else if ws[0].cause == RouteDegradation then Others(ws[1..])
    else [ws[0]] + Others(ws[1..])
  }

  lemma {:induction false} NoRouteLeft(ws: seq<Weighted>)
    requires forall i :: 0 <= i < |ws| ==> ws[i].cause != RouteDegradation
    ensures Total(ws) == Total(Others(ws)) && WeightOf(ws, RouteDegradation) == 0.0 && Others(ws) == ws
  {
    if ws != [] { NoRouteLeft(ws[1..]); }
  }

  lemma {:induction false} TotalSplits(ws: seq<Weighted>)
    requires DistinctCauses(ws)
    ensures Total(ws) == Total(Others(ws)) + WeightOf(ws, RouteDegradation)
  {
    if ws != [] {
      if ws[0].cause == RouteDegradation { NoRouteLeft(ws[1..]); } else { TotalSplits(ws[1..]); }
    }
  }

  lemma {:induction false} OthersOfStep(ws: seq<Weighted>, step: Step)
    requires step.cause != RouteDegradation
    ensures Others(Take(ws, step)) == Take(Others(ws), step)
    ensures WeightOf(Take(ws, step), RouteDegradation) == WeightOf(ws, RouteDegradation)
  {
    if ws != [] && ws[0].cause != step.cause { OthersOfStep(ws[1..], step); }
  }

  lemma {:induction false} OthersOfRouteBoost(ws: seq<Weighted>, factor: real)
    requires Positive(ws) && factor >= 1.0
    ensures Others(Boost(ws, RouteDegradation, factor)) == Others(ws)
    ensures WeightOf(Boost(ws, RouteDegradation, factor), RouteDegradation) >= WeightOf(ws, RouteDegradation)
  {
    if ws != [] {
      if ws[0].cause == RouteDegradation {
        GrowsBy(ws[0].weight, factor);
      } else {
        OthersOfRouteBoost(ws[1..], factor);
      }
    }
  }

  lemma GrowsBy(a: real, f: real)
    requires a >= 0.0 && f >= 1.0
    ensures a * f >= a
  {
    assert a * f >= a * 1.0;
  }

  /** Entry by entry the same causes, at most the same weights. */
  predicate Below(a: seq<Weighted>, b: seq<Weighted>) {
    |a| == |b| && forall i :: 0 <= i < |a| ==> NoHeavier(a[i], b[i])
  }

  predicate NoHeavier(x: Weighted, y: Weighted) {
    x.cause == y.cause && 0.0 <= x.weight <= y.weight
  }

  lemma ReweightedNoHeavier(x: Weighted, y: Weighted, f: real)
    requires NoHeavier(x, y) && f > 0.0
    ensures NoHeavier(Reweighted(x, f), Reweighted(y, f))
  {
  }

  lemma ReweightedShrinks(x: Weighted, f: real)
    requires x.weight >= 0.0 && 0.0 < f <= 1.0
    ensures NoHeavier(Reweighted(x, f), x)
  {
    assert x.weight * f <= x.weight * 1.0;
  }

  lemma {:induction false} StepKeepsBelow(a: seq<Weighted>, b: seq<Weighted>, step: Step)
    requires Below(a, b) && step.factor > 0.0
    ensures Below(Take(a, step), Take(b, step))
  {
    if a != [] {
      if a[0].cause == step.cause {
        ReweightedNoHeavier(a[0], b[0], step.factor);
      } else {
        assert forall i :: 0 <= i < |a[1..]| ==> a[1..][i] == a[i + 1] && b[1..][i] == b[i + 1];
        StepKeepsBelow(a[1..], b[1..], step);
      }
    }
  }

  /** A scaling down leaves a list below itself. */
  lemma {:induction false} ScaleGoesBelow(ws: seq<Weighted>, cause: RootCause, factor: real)
    requires (forall i :: 0 <= i < |ws| ==> ws[i].weight >= 0.0) && 0.0 < factor <= 1.0
    ensures Below(Scale(ws, cause, factor), ws)
  {
    if ws != [] {
      if ws[0].cause == cause {
        ReweightedShrinks(ws[0], factor);
        assert forall i :: 0 <= i < |ws| ==> NoHeavier(ws[i], ws[i]);
      } else {
        ScaleGoesBelow(ws[1..], cause, factor);
      }
    }
  }

  lemma BelowTransitive(a: seq<Weighted>, b: seq<Weighted>, c: seq<Weighted>)
    requires Below(a, b) && Below(b, c)
    ensures Below(a, c)
  {
    forall i | 0 <= i < |a| ensures NoHeavier(a[i], c[i]) {
      assert NoHeavier(a[i], b[i]) && NoHeavier(b[i], c[i]);
    }
  }

  lemma {:induction false} TotalBelow(a: seq<Weighted>, b: seq<Weighted>)
    requires Below(a, b)
    ensures 0.0 <= Total(a) <= Total(b)
  {
    if a != [] {
      assert NoHeavier(a[0], b[0]);
      assert forall i :: 0 <= i < |a[1..]| ==> a[1..][i] == a[i + 1] && b[1..][i] == b[i + 1];
      TotalBelow(a[1..], b[1..]);
    }
  }

  /** Weights `on` favour the route at least as much as weights `off`. */
  predicate Favours(on: seq<Weighted>, off: seq<Weighted>) {
    && Proper(on) && Proper(off)
    && Below(Others(on), Others(off))
    && WeightOf(off, RouteDegradation) <= WeightOf(on, RouteDegradation)
  }

  lemma {:induction false} StepsKeepFavour(on: seq<Weighted>, off: seq<Weighted>, steps: seq<Step>)
    requires Favours(on, off) && Gentle(steps) && LeavesRouteAlone(steps)
    ensures Favours(TakeAll(on, steps), TakeAll(off, steps))
    decreases |steps|
  {
    if steps != [] {
      var step := steps[0];
      StepKeepsProper(on, step);
      StepKeepsProper(off, step);
      OthersOfStep(on, step);
      OthersOfStep(off, step);
      StepKeepsBelow(Others(on), Others(off), step);
      assert forall i :: 0 <= i < |steps[1..]| ==> steps[1..][i] == steps[i + 1];
      StepsKeepFavour(Take(on, step), Take(off, step), steps[1..]);
    }
  }

  lemma OthersPositive(ws: seq<Weighted>)
    requires Positive(ws)
    ensures forall i :: 0 <= i < |Others(ws)| ==> Others(ws)[i].weight >= 0.0
  {
  }

  lemma BelowItself(ws: seq<Weighted>)
    requires forall i :: 0 <= i < |ws| ==> ws[i].weight >= 0.0
    ensures Below(ws, ws)
  {
  }

  lemma BankStepFavours(on: seq<Weighted>, off: seq<Weighted>, cause: RootCause)
    requires Favours(on, off) && cause != RouteDegradation
    ensures Favours(Scale(on, cause, 0.55), off)
  {
    var step := ScaleBy(cause, 0.55);
    StepKeepsProper(on, step);
    OthersOfStep(on, step);
    OthersPositive(on);
    ScaleGoesBelow(Others(on), cause, 0.55);
    BelowTransitive(Others(Take(on, step)), Others(on), Others(off));
  }

  lemma RouteBoostFavours(ws: seq<Weighted>, factor: real)
    requires Proper(ws) && factor >= 1.0
    ensures Favours(Boost(ws, RouteDegradation, factor), ws)
  {
    StepKeepsProper(ws, BoostBy(RouteDegradation, factor));
    OthersOfRouteBoost(ws, factor);
    OthersPositive(ws);
    BelowItself(Others(ws));
  }

  lemma BankStepsFavour(raised: seq<Weighted>, off: seq<Weighted>)
    requires Favours(raised, off)
    ensures Favours(Scale(Scale(raised, TransientBankDecline, 0.55), HardBankDecline, 0.55), off)
  {
    BankStepFavours(raised, off, TransientBankDecline);
    BankStepFavours(Scale(raised, TransientBankDecline, 0.55), off, HardBankDecline);
  }

  /** The route pass raises the route and lowers the bank causes. */
  lemma RouteStepsFavour(ws: seq<Weighted>, s: Signal)
    requires Proper(ws) && Measured(s)
    ensures Favours(TakeAll(ws, RouteSteps(s.(routeDegraded := true))), ws)
  {
    var factor := 1.0 + 2.6 * MinReal(s.routeRatio / 2.0, 2.0);
    Three(ws, RouteSteps(s.(routeDegraded := true)));
    RouteBoostFavours(ws, factor);
    BankStepsFavour(Boost(ws, RouteDegradation, factor), ws);
  }

  lemma Regroup(u: real, p: real, q: real)
    ensures u * (p * q) == (u * p) * q && u * (p * q) == (u * q) * p
  {
  }

  lemma CrossDivide(x: real, p: real, y: real, q: real)
    requires p > 0.0 && q > 0.0 && x * q <= y * p
    ensures x / p <= y / q
  {
    var u, v := x / p, y / q;
    assert u * p == x && v * q == y;
    Regroup(u, p, q);
    Regroup(v, p, q);
    PositiveProduct(p, q);
    OrderKept(u, v, p * q);
  }

  lemma OrderKept(u: real, v: real, d: real)
    requires d > 0.0 && u * d <= v * d
    ensures u <= v
  {
    NegativeProduct(v - u, d);
    assert (v - u) * d == v * d - u * d;
  }

  lemma ShareGrows(x: real, rest: real, y: real, less: real)
    requires 0.0 <= x <= y && 0.0 <= less <= rest && x + rest > 0.0 && y + less > 0.0
    ensures x / (x + rest) <= y / (y + less)
  {
    assert x * less <= y * less;
    assert y * less <= y * rest;
    assert x * (y + less) == x * y + x * less;
    assert y * (x + rest) == x * y + y * rest;
    CrossDivide(x, x + rest, y, y + less);
  }

  lemma FavourGivesShare(on: seq<Weighted>, off: seq<Weighted>)
    requires Favours(on, off)
    ensures Total(on) > 0.0 && Total(off) > 0.0
    ensures WeightOf(off, RouteDegradation) / Total(off) <= WeightOf(on, RouteDegradation) / Total(on)
  {
    TotalPositive(on);
    TotalPositive(off);
    TotalSplits(on);
    TotalSplits(off);
    TotalBelow(Others(on), Others(off));
    WeightNotNegative(off, RouteDegradation);
    ShareGrows(WeightOf(off, RouteDegradation), Total(Others(off)), WeightOf(on, RouteDegradation), Total(Others(on)));
  }

  /** Only the route pass reads the route signal. */
  lemma SignalOff(c: Case, on: Signal, off: Signal)
    requires off == on.(routeDegraded := false)
    ensures CaseSteps(c, off) == CaseSteps(c, on)
    ensures FinalWeights(c, off) == TakeAll(StartingWeights(c.code), CaseSteps(c, on))
  {
    assert RouteSteps(off) == [];
    assert MethodSteps(off) == MethodSteps(on);
  }

  lemma SignalOn(c: Case, on: Signal)
    requires Measured(on) && on.routeDegraded
    ensures Favours(TakeAll(StartingWeights(c.code), RouteSteps(on)), StartingWeights(c.code))
  {
    StartIsProper(c.code);
    assert on.(routeDegraded := true) == on;
    RouteStepsFavour(StartingWeights(c.code), on);
  }

  lemma FinalWeightsFavour(c: Case, on: Signal, off: Signal)
    requires Measured(on) && on.routeDegraded && off == on.(routeDegraded := false)
    ensures Favours(FinalWeights(c, on), FinalWeights(c, off))
  {
    SignalOn(c, on);
    SignalOff(c, on, off);
    CaseIsMild(c, on);
    StepsKeepFavour(TakeAll(StartingWeights(c.code), RouteSteps(on)), StartingWeights(c.code), CaseSteps(c, on));
  }

  /** Turning the route signal on, everything else equal, never lowers the share of the route. */
  lemma DegradedRouteNeverLosesShare(c: Case, s: Signal)
    requires Measured(s)
    ensures var on, off := s.(routeDegraded := true), s.(routeDegraded := false);
            && Total(FinalWeights(c, on)) > 0.0 && Total(FinalWeights(c, off)) > 0.0
            && Posterior(c, off, RouteDegradation) <= Posterior(c, on, RouteDegradation)
  {
    var on, off := s.(routeDegraded := true), s.(routeDegraded := false);
    FinalWeightsFavour(c, on, off);
    FavourGivesShare(FinalWeights(c, on), FinalWeights(c, off));
  }

  lemma {:induction false} WeightNotNegative(ws: seq<Weighted>, cause: RootCause)
    requires Positive(ws)
    ensures WeightOf(ws, cause) >= 0.0
  {
    if ws != [] { WeightNotNegative(ws[1..], cause); }
  }
}
