/** The guardrail engine: a deterministic gate over one action, one event and the budget the
    journey has already spent. */
module Policy {
  import opened Domain
  import opened Rows

  datatype PolicySpec = PolicySpec(
    automationEnabled: bool,
    paused: bool,
    maxContacts: int,
    maxRetries: int,
    maxDiscountOffers: int,
    maxVoiceAttempts: int,
    humanApprovalAmount: int,
    discountApprovalPct: real,
    voiceApprovalAmount: int,
    minConfidence: real,
    minExpectedValue: int,
    contactCooldownMinutes: int,
    journeyTtlHours: real,
    quietHoursStart: int,
    quietHoursEnd: int,
    quietHoursEnforced: bool,
    degradationRetryGuard: bool,
    maxDiscountPct: real,
    npciMaxAttempts: int,
    executionWindowGuard: bool,
    pdnLeadHours: real)

  /** The policy a merchant starts with. */
  const DEFAULT_POLICY: PolicySpec :=
    PolicySpec(automationEnabled := true, paused := false, maxContacts := 3, maxRetries := 2,
               maxDiscountOffers := 1, maxVoiceAttempts := 1, humanApprovalAmount := 1_000_000,
               discountApprovalPct := 10.0, voiceApprovalAmount := 2_500_000, minConfidence := 0.12,
               minExpectedValue := 5_000, contactCooldownMinutes := 45, journeyTtlHours := 72.0,
               quietHoursStart := 21, quietHoursEnd := 8, quietHoursEnforced := false,
               degradationRetryGuard := true, maxDiscountPct := 15.0, npciMaxAttempts := 4,
               executionWindowGuard := true, pdnLeadHours := 24.0)

  /** What a journey has already spent, as the gate sees it. */
  datatype BudgetState = BudgetState(
    contactsUsed: nat,
    retriesUsed: nat,
    discountsUsed: nat,
    voiceUsed: nat,
    lastContactAt: Option<Time>,
    journeyPaused: bool,
    npciAttemptsUsed: nat,
    pdnSentAt: Option<Time>,
    rootCause: Option<RootCause>)

  datatype GateVerdict = GateVerdict(verdict: Verdict, reasons: seq<PolicyRule>)

  /** One question put to the gate. */
  datatype Ask = Ask(
    action: ActionType,
    event: Event,
    customer: Customer,
    budget: BudgetState,
    discountPct: real,
    degraded: bool,
    now: Time)

  // ------------------------------------------------------------------ single rules

  predicate IsRetry(ask: Ask) { ask.action == RetryPayment }

  predicate Contacts(ask: Ask) { Catalog(ask.action).consumesContact }

  predicate Futile(ask: Ask) {
    IsRetry(ask) && ask.budget.rootCause.Some? && RetryIsFutile(ask.budget.rootCause.value)
  }

  predicate NpciExhausted(spec: PolicySpec, ask: Ask) {
    IsRetry(ask) && ask.budget.npciAttemptsUsed >= spec.npciMaxAttempts
  }

  predicate OutsideWindow(spec: PolicySpec, ask: Ask) {
    spec.executionWindowGuard && IsRetry(ask) && InPeakWindow(ask.now)
  }

  predicate PdnUnmet(spec: PolicySpec, ask: Ask) {
    IsRetry(ask) &&
    match ask.budget.pdnSentAt
    case None =>
      ask.budget.rootCause.Some? &&
      (RetryIsFutile(ask.budget.rootCause.value)
       || (spec.pdnLeadHours > 0.0 && Layer(ask.budget.rootCause.value) == RegulatoryLayer))
    case Some(sent) => (ask.now - sent) as real / HOUR as real < spec.pdnLeadHours
  }

  predicate InCooldown(spec: PolicySpec, ask: Ask) {
    ask.budget.lastContactAt.Some?
    && ask.now - ask.budget.lastContactAt.value < spec.contactCooldownMinutes * MINUTE
  }

  /** The quiet-hours clock has the offset of IST but drops the minutes of the hour, so it is
      counted in half hours here. */
  predicate InQuietHours(spec: PolicySpec, now: Time) {
    var half := (2 * ((now / HOUR) % 24) + 11) % 48;
    var start, end := 2 * spec.quietHoursStart, 2 * spec.quietHoursEnd;
    if start > end then half >= start || half < end else start <= half < end
  }

  predicate ContactsExhausted(spec: PolicySpec, ask: Ask) {
    ask.event.priorContacts + ask.budget.contactsUsed >= spec.maxContacts
  }

  predicate RetriesExhausted(spec: PolicySpec, ask: Ask) {
    IsRetry(ask) && ask.event.retryCount + ask.budget.retriesUsed >= spec.maxRetries
  }

  predicate OffersExhausted(spec: PolicySpec, ask: Ask) {
    ask.action == Discount && ask.budget.discountsUsed >= spec.maxDiscountOffers
  }

  predicate CallsExhausted(spec: PolicySpec, ask: Ask) {
    ask.action == Voice && ask.budget.voiceUsed >= spec.maxVoiceAttempts
  }

  function When(holds: bool, rule: PolicyRule): seq<PolicyRule> {
    if holds then [rule] else []
  }

  // ---------------------------------------------------------------------- the gate

  /** Blocking rules of a retry before the merchant switches are looked at. */
  function MandateBlocks(spec: PolicySpec, ask: Ask): seq<PolicyRule> {
    When(NpciExhausted(spec, ask), NpciBudgetExhausted)
    + When(OutsideWindow(spec, ask), OutsideExecutionWindow)
    + When(PdnUnmet(spec, ask), PdnPreconditionUnmet)
  }

  function SwitchBlocks(spec: PolicySpec, ask: Ask): seq<PolicyRule> {
    When(!spec.automationEnabled, AutomationDisabled)
    + When(spec.paused || ask.budget.journeyPaused, JourneyPaused)
    + When(ask.event.status == Recovered, AlreadyRecovered)
  }

  function ContactBlocks(spec: PolicySpec, ask: Ask): seq<PolicyRule> {
    if !Contacts(ask) then []
    else
      When(ask.customer.optedOut, CustomerOptedOut)
      + When(ContactsExhausted(spec, ask), ContactBudgetExhausted)
      + When(InCooldown(spec, ask), CooldownActive)
      + When(spec.quietHoursEnforced && InQuietHours(spec, ask.now), QuietHours)
  }

  function BudgetBlocks(spec: PolicySpec, ask: Ask): seq<PolicyRule> {
    When(RetriesExhausted(spec, ask), RetryBudgetExhausted)
    + When(IsRetry(ask) && ask.degraded && spec.degradationRetryGuard, DegradationActive)
    + When(OffersExhausted(spec, ask), DiscountBudgetExhausted)
    + When(CallsExhausted(spec, ask), VoiceBudgetExhausted)
  }

  function Blocks(spec: PolicySpec, ask: Ask): seq<PolicyRule> {
    MandateBlocks(spec, ask) + SwitchBlocks(spec, ask) + ContactBlocks(spec, ask) + BudgetBlocks(spec, ask)
  }

  function Approvals(spec: PolicySpec, ask: Ask): seq<PolicyRule> {
    When(Catalog(ask.action).touchesGateway && ask.event.amount >= spec.humanApprovalAmount, HighValueApproval)
    + When(ask.discountPct > spec.discountApprovalPct, DiscountApproval)
    + When(ask.action == Voice && ask.event.amount >= spec.voiceApprovalAmount, VoiceApproval)
    + When(ask.action == HumanEscalation, HighValueApproval)
  }

  function Gate(spec: PolicySpec, ask: Ask): GateVerdict {
    if ask.action == DoNothing then GateVerdict(Allow, [])
    else if Futile(ask) then GateVerdict(Block, [RetryFutile])
    else if Blocks(spec, ask) != [] then GateVerdict(Block, Blocks(spec, ask))
    else if Approvals(spec, ask) != [] then GateVerdict(RequireApproval, Approvals(spec, ask))
    else GateVerdict(Allow, [])
  }

  /** The engine as the services hold it: the rules are appended to two local lists in the
      order in which they are checked. */
  class PolicyEngine {
    const spec: PolicySpec

    constructor (spec: PolicySpec)
      ensures this.spec == spec
    {
      this.spec := spec;
    }

    method Evaluate(ask: Ask) returns (r: GateVerdict)
      ensures r == Gate(spec, ask)
    {
      if ask.action == DoNothing {
        return GateVerdict(Allow, []);
      }
      if Futile(ask) {
        return GateVerdict(Block, [RetryFutile]);
      }
      var blocks := MandateRules(ask);
      var switches := SwitchRules(ask);
      var contacts := ContactRules(ask);
      var budgets := BudgetRules(ask);
      blocks := blocks + switches + contacts + budgets;
      if blocks != [] {
        return GateVerdict(Block, blocks);
      }
      var approvals := ApprovalRules(ask);
      if approvals != [] {
        return GateVerdict(RequireApproval, approvals);
      }
      r := GateVerdict(Allow, []);
    }

    method MandateRules(ask: Ask) returns (rules: seq<PolicyRule>)
      ensures rules == MandateBlocks(spec, ask)
    {
      rules := [];
      if NpciExhausted(spec, ask) { rules := rules + [NpciBudgetExhausted]; }
      if OutsideWindow(spec, ask) { rules := rules + [OutsideExecutionWindow]; }
      if PdnUnmet(spec, ask) { rules := rules + [PdnPreconditionUnmet]; }
    }

    method SwitchRules(ask: Ask) returns (rules: seq<PolicyRule>)
      ensures rules == SwitchBlocks(spec, ask)
    {
      rules := [];
      if !spec.automationEnabled { rules := rules + [AutomationDisabled]; }
      if spec.paused || ask.budget.journeyPaused { rules := rules + [JourneyPaused]; }
      if ask.event.status == Recovered { rules := rules + [AlreadyRecovered]; }
    }

    method ContactRules(ask: Ask) returns (rules: seq<PolicyRule>)
      ensures rules == ContactBlocks(spec, ask)
    {
      rules := [];
      if Contacts(ask) {
        if ask.customer.optedOut { rules := rules + [CustomerOptedOut]; }
        if ContactsExhausted(spec, ask) { rules := rules + [ContactBudgetExhausted]; }
        if InCooldown(spec, ask) { rules := rules + [CooldownActive]; }
        if spec.quietHoursEnforced && InQuietHours(spec, ask.now) { rules := rules + [QuietHours]; }
      }
    }

    method BudgetRules(ask: Ask) returns (rules: seq<PolicyRule>)
      ensures rules == BudgetBlocks(spec, ask)
    {
      rules := [];
      if IsRetry(ask) {
        if RetriesExhausted(spec, ask) { rules := rules + [RetryBudgetExhausted]; }
        if ask.degraded && spec.degradationRetryGuard { rules := rules + [DegradationActive]; }
      }
      if OffersExhausted(spec, ask) { rules := rules + [DiscountBudgetExhausted]; }
      if CallsExhausted(spec, ask) { rules := rules + [VoiceBudgetExhausted]; }
    }

    method ApprovalRules(ask: Ask) returns (rules: seq<PolicyRule>)
      ensures rules == Approvals(spec, ask)
    {
      rules := [];
      if Catalog(ask.action).touchesGateway && ask.event.amount >= spec.humanApprovalAmount {
        rules := rules + [HighValueApproval];
      }
      if ask.discountPct > spec.discountApprovalPct { rules := rules + [DiscountApproval]; }
      if ask.action == Voice && ask.event.amount >= spec.voiceApprovalAmount { rules := rules + [VoiceApproval]; }
      if ask.action == HumanEscalation { rules := rules + [HighValueApproval]; }
    }
  }

  // ------------------------------------------------------------------- monotonicity

  function Strictness(v: Verdict): nat {
    match v case Allow => 0 case RequireApproval => 1 case Block => 2
  }

  /** b permits at least what a permits, field by field. */
  predicate AsPermissive(a: PolicySpec, b: PolicySpec) {
    && (a.automationEnabled ==> b.automationEnabled)
    && (b.paused ==> a.paused)
    && a.maxContacts <= b.maxContacts
    && a.maxRetries <= b.maxRetries
    && a.maxDiscountOffers <= b.maxDiscountOffers
    && a.maxVoiceAttempts <= b.maxVoiceAttempts
    && a.humanApprovalAmount <= b.humanApprovalAmount
    && a.discountApprovalPct <= b.discountApprovalPct
    && a.voiceApprovalAmount <= b.voiceApprovalAmount
    && b.contactCooldownMinutes <= a.contactCooldownMinutes
    && (b.quietHoursEnforced ==>
          a.quietHoursEnforced && a.quietHoursStart == b.quietHoursStart && a.quietHoursEnd == b.quietHoursEnd)
    && (b.degradationRetryGuard ==> a.degradationRetryGuard)
    && a.npciMaxAttempts <= b.npciMaxAttempts
    && (b.executionWindowGuard ==> a.executionWindowGuard)
    && b.pdnLeadHours <= a.pdnLeadHours
  }

  lemma PermissiveBlocks(a: PolicySpec, b: PolicySpec, ask: Ask)
    requires AsPermissive(a, b)
    ensures forall rule :: rule in Blocks(b, ask) ==> rule in Blocks(a, ask)
  {
    assert InCooldown(b, ask) ==> InCooldown(a, ask);
    assert b.quietHoursEnforced && InQuietHours(b, ask.now) ==> a.quietHoursEnforced && InQuietHours(a, ask.now);
    assert forall rule :: rule in MandateBlocks(b, ask) ==> rule in MandateBlocks(a, ask);
    assert forall rule :: rule in SwitchBlocks(b, ask) ==> rule in SwitchBlocks(a, ask);
    assert forall rule :: rule in ContactBlocks(b, ask) ==> rule in ContactBlocks(a, ask);
    assert forall rule :: rule in BudgetBlocks(b, ask) ==> rule in BudgetBlocks(a, ask);
  }

  /** Relaxing a policy never makes a verdict stricter, for any action and any situation, and
      it never adds a reason to block. */
  lemma RelaxingNeverTightens(a: PolicySpec, b: PolicySpec, ask: Ask)
    requires AsPermissive(a, b)
    ensures Strictness(Gate(b, ask).verdict) <= Strictness(Gate(a, ask).verdict)
    ensures Gate(b, ask).verdict == Block ==>
              forall rule :: rule in Gate(b, ask).reasons ==> rule in Gate(a, ask).reasons
  {
    PermissiveBlocks(a, b, ask);
    PermissiveApprovals(a, b, ask);
    NoneFromNone(Blocks(a, ask), Blocks(b, ask));
    NoneFromNone(Approvals(a, ask), Approvals(b, ask));
  }

  lemma NoneFromNone(a: seq<PolicyRule>, b: seq<PolicyRule>)
    requires forall rule :: rule in b ==> rule in a
    ensures a == [] ==> b == []
  {
    if b != [] { assert b[0] in a; }
  }

  lemma PermissiveApprovals(a: PolicySpec, b: PolicySpec, ask: Ask)
    requires AsPermissive(a, b)
    ensures forall rule :: rule in Approvals(b, ask) ==> rule in Approvals(a, ask)
  {
  }

  // -------------------------------------------------------- what an ALLOW guarantees

  /** The limits of one customer contact: consent, the contact budget, the cooldown since the
      last contact and the quiet hours. */
  predicate ContactWithinLimits(spec: PolicySpec, ask: Ask) {
    && !ask.customer.optedOut
    && ask.event.priorContacts + ask.budget.contactsUsed < spec.maxContacts
    && (ask.budget.lastContactAt.Some? ==>
          ask.now >= ask.budget.lastContactAt.value + spec.contactCooldownMinutes * MINUTE)
    && (spec.quietHoursEnforced ==> !InQuietHours(spec, ask.now))
  }

  /** The limits of one presentation: both retry budgets, the peak window, the pre-debit
      notice, route health, and a cause a retry can cure at all. */
  predicate RetryWithinLimits(spec: PolicySpec, ask: Ask) {
    && ask.event.retryCount + ask.budget.retriesUsed < spec.maxRetries
    && ask.budget.npciAttemptsUsed < spec.npciMaxAttempts
    && (spec.executionWindowGuard ==> !InPeakWindow(ask.now))
    && (spec.degradationRetryGuard ==> !ask.degraded)
    && (ask.budget.rootCause.Some? ==> !RetryIsFutile(ask.budget.rootCause.value))
    && (ask.budget.pdnSentAt.Some? ==>
          (ask.now - ask.budget.pdnSentAt.value) as real / HOUR as real >= spec.pdnLeadHours)
    && (ask.budget.pdnSentAt.None? && spec.pdnLeadHours > 0.0 ==>
          ask.budget.rootCause != Some(ExecutionWindowMiss))
  }

  predicate WithinLimits(spec: PolicySpec, ask: Ask) {
    && spec.automationEnabled && !spec.paused && !ask.budget.journeyPaused
    && ask.event.status != Recovered
    && (Contacts(ask) ==> ContactWithinLimits(spec, ask))
    && (ask.action == RetryPayment ==> RetryWithinLimits(spec, ask))
    && (ask.action == Discount ==> ask.budget.discountsUsed < spec.maxDiscountOffers)
    && (ask.action == Voice ==> ask.budget.voiceUsed < spec.maxVoiceAttempts)
  }

  /** The gate blocks an action exactly when some limit is exceeded, whether or not a human
      would also have to sign it off. */
  lemma BlockedIffBeyondLimits(spec: PolicySpec, ask: Ask)
    requires ask.action != DoNothing
    ensures Gate(spec, ask).verdict != Block <==> WithinLimits(spec, ask)
  {
    if Gate(spec, ask).verdict != Block {
      assert MandateBlocks(spec, ask) == [] && SwitchBlocks(spec, ask) == [];
      assert ContactBlocks(spec, ask) == [] && BudgetBlocks(spec, ask) == [];
    }
    if WithinLimits(spec, ask) {
      assert MandateBlocks(spec, ask) == [] && SwitchBlocks(spec, ask) == [];
      assert ContactBlocks(spec, ask) == [] && BudgetBlocks(spec, ask) == [];
    }
  }

  /** An ALLOW never lets a gateway action at or above the approval threshold through, nor an
      escalation to a human. */
  lemma AllowIsBelowApproval(spec: PolicySpec, ask: Ask)
    requires ask.action != DoNothing
    requires Gate(spec, ask).verdict == Allow
    ensures Catalog(ask.action).touchesGateway ==> ask.event.amount < spec.humanApprovalAmount
    ensures ask.discountPct <= spec.discountApprovalPct
    ensures ask.action == Voice ==> ask.event.amount < spec.voiceApprovalAmount
    ensures ask.action != HumanEscalation
  {
    assert Approvals(spec, ask) == [];
  }
}
