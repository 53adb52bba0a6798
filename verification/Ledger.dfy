/** The incremental ledger: every recovery is booked net of what would have arrived anyway and
    of what it cost, with the organic rate pooled from the untouched holdout. */
module Ledger {
  import opened Domain
  import opened Rows
  import opened Journey

  const MIN_COHORT_SAMPLE := 40

  datatype Method = CohortMethod | ModelMethod | BlendedMethod

  /** Resolved holdout events of one loss class: how many, and how many of them paid. */
  datatype Sample = Sample(total: nat, hits: nat)

  predicate ResolvedHoldout(e: Event, kind: EventKind) {
    e.cohort == Control && e.kind == kind && (e.status == Recovered || e.status == Lost)
  }

  function SampleOf(events: EventTable, kind: EventKind): Sample {
    var resolved := set id: EventId | id < |events| && ResolvedHoldout(events[id], kind);
    var paid := set id: EventId | id < |events| && ResolvedHoldout(events[id], kind) && events[id].status == Recovered;
    Sample(|resolved|, |paid|)
  }

  datatype CohortRates = CohortRates(byKind: map<EventKind, (real, nat)>, overall: (real, nat))

  const KINDS: seq<EventKind> := [PaymentFailure, CartAbandonment, SubscriptionFailure, OverdueInvoice]

  function Rate(s: Sample): real {
    if s.total == 0 then 0.0 else s.hits as real / s.total as real
  }

  function CountIn(rates: map<EventKind, (real, nat)>, kind: EventKind): nat {
    if kind in rates then rates[kind].1 else 0
  }

  function WeightIn(rates: map<EventKind, (real, nat)>, kind: EventKind): real {
    if kind in rates then rates[kind].0 * rates[kind].1 as real else 0.0
  }

  function SumCounts(rates: map<EventKind, (real, nat)>, kinds: seq<EventKind>): nat {
    if kinds == [] then 0 else CountIn(rates, kinds[0]) + SumCounts(rates, kinds[1..])
  }

  function SumWeighted(rates: map<EventKind, (real, nat)>, kinds: seq<EventKind>): real {
    if kinds == [] then 0.0 else WeightIn(rates, kinds[0]) + SumWeighted(rates, kinds[1..])
  }

  /** One rate per loss class that has resolved holdout events. */
  function RatesByKind(events: EventTable): map<EventKind, (real, nat)> {
    map kind: EventKind | SampleOf(events, kind).total > 0
      :: (Rate(SampleOf(events, kind)), SampleOf(events, kind).total)
  }

  /** The rates per class and their pool, weighted by the size of each class. */
  function OrganicRates(events: EventTable): CohortRates {
    var byKind := RatesByKind(events);
    var count := SumCounts(byKind, KINDS);
    CohortRates(byKind, (if count == 0 then 0.0 else SumWeighted(byKind, KINDS) / count as real, count))
  }

  function RateFor(rates: CohortRates, kind: EventKind): (real, nat) {
    if kind in rates.byKind then rates.byKind[kind] else rates.overall
  }

  function OrganicEstimate(amount: int, model: real, rates: CohortRates, kind: EventKind): (int, Method) {
    var (rate, sample) := RateFor(rates, kind);
    if sample >= MIN_COHORT_SAMPLE && model > 0.0 then
      (Truncate(amount as real * (0.5 * rate + 0.5 * model)), BlendedMethod)
    else if sample >= MIN_COHORT_SAMPLE then (Truncate(amount as real * rate), CohortMethod)
    else (Truncate(amount as real * model), ModelMethod)
  }

  datatype LedgerEntry = LedgerEntry(
    event: EventId,
    journey: JourneyId,
    action: ActionType,
    gross: int,
    organic: int,
    cost: int,
    incremental: int,
    attribution: Method)

  function Entry(id: EventId, e: Event, journey: JourneyId, action: ActionType, gross: int, cost: int,
                 rates: CohortRates): LedgerEntry
  {
    var (organic, attribution) := OrganicEstimate(gross, e.organicProbability, rates, e.kind);
    LedgerEntry(id, journey, action, gross, organic, cost, gross - organic - cost, attribution)
  }

  // --------------------------------------------------------------------- properties

  function SumSamples(events: EventTable, kinds: seq<EventKind>): Sample {
    if kinds == [] then Sample(0, 0)
    else
      var first, rest := SampleOf(events, kinds[0]), SumSamples(events, kinds[1..]);
      Sample(first.total + rest.total, first.hits + rest.hits)
  }

  lemma HitsWithinTotal(events: EventTable, kind: EventKind)
    ensures SampleOf(events, kind).hits <= SampleOf(events, kind).total
  {
    var resolved := set id: EventId | id < |events| && ResolvedHoldout(events[id], kind);
    var paid := set id: EventId | id < |events| && ResolvedHoldout(events[id], kind) && events[id].status == Recovered;
    assert paid <= resolved;
    SubsetSize(paid, resolved);
  }

  lemma {:induction false} SubsetSize<T>(a: set<T>, b: set<T>)
    requires a <= b
    ensures |a| <= |b|
  {
    if a != {} {
      var x :| x in a;
      SubsetSize(a - {x}, b - {x});
    }
  }

  lemma RateTimesTotal(s: Sample)
    requires s.hits <= s.total
    ensures 0.0 <= Rate(s) <= 1.0
    ensures Rate(s) * s.total as real == s.hits as real
  {
    if s.total > 0 {
      var h, n := s.hits as real, s.total as real;
      assert h / n * n == h;
      assert h / n <= 1.0;
      assert h / n >= 0.0;
    }
  }

  lemma RatesEntry(events: EventTable, kind: EventKind)
    ensures var s := SampleOf(events, kind);
            if s.total > 0
            then kind in RatesByKind(events) && RatesByKind(events)[kind] == (Rate(s), s.total)
            else kind !in RatesByKind(events)
  {
  }

  lemma WeightIsHits(rates: map<EventKind, (real, nat)>, kind: EventKind, s: Sample)
    requires s.hits <= s.total
    requires if s.total > 0 then kind in rates && rates[kind] == (Rate(s), s.total) else kind !in rates
    ensures CountIn(rates, kind) == s.total && WeightIn(rates, kind) == s.hits as real
  {
    RateTimesTotal(s);
  }

  lemma OneKind(events: EventTable, kind: EventKind)
    ensures var s := SampleOf(events, kind);
            && s.hits <= s.total
            && CountIn(RatesByKind(events), kind) == s.total
            && WeightIn(RatesByKind(events), kind) == s.hits as real
  {
    HitsWithinTotal(events, kind);
    RatesEntry(events, kind);
    WeightIsHits(RatesByKind(events), kind, SampleOf(events, kind));
  }

  lemma {:induction false} PoolCounts(events: EventTable, kinds: seq<EventKind>)
    ensures var s := SumSamples(events, kinds);
            && s.hits <= s.total
            && SumCounts(RatesByKind(events), kinds) == s.total
            && SumWeighted(RatesByKind(events), kinds) == s.hits as real
  {
    if kinds != [] {
      PoolCounts(events, kinds[1..]);
      OneKind(events, kinds[0]);
      var rates := RatesByKind(events);
      var first, rest := SampleOf(events, kinds[0]), SumSamples(events, kinds[1..]);
      assert SumCounts(rates, kinds) == first.total + rest.total;
      assert SumWeighted(rates, kinds) == first.hits as real + rest.hits as real;
    }
  }

  /** Pooling the per-class rates by their counts gives exactly all hits over all resolved
      holdout events. */
  lemma PooledRateIsHitsOverTotal(events: EventTable)
    ensures var all := SumSamples(events, KINDS);
            OrganicRates(events).overall == (Rate(all), all.total)
  {
    PoolCounts(events, KINDS);
  }

  /** Every rate the estimate can fall back on is a probability. */
  lemma RateIsProbability(events: EventTable, kind: EventKind)
    ensures 0.0 <= RateFor(OrganicRates(events), kind).0 <= 1.0
  {
    PooledRateIsHitsOverTotal(events);
    PoolCounts(events, KINDS);
    RateTimesTotal(SumSamples(events, KINDS));
    HitsWithinTotal(events, kind);
    RateTimesTotal(SampleOf(events, kind));
  }

  lemma ShareOfAmount(amount: int, p: real)
    requires amount >= 0 && 0.0 <= p <= 1.0
    ensures 0 <= Truncate(amount as real * p) <= amount
  {
    var x := amount as real;
    assert 0.0 <= x * p;
    assert x * p <= x * 1.0;
  }

  lemma EstimateIsShare(amount: int, model: real, rates: CohortRates, kind: EventKind)
    requires amount >= 0 && 0.0 <= model <= 1.0 && 0.0 <= RateFor(rates, kind).0 <= 1.0
    ensures 0 <= OrganicEstimate(amount, model, rates, kind).0 <= amount
  {
    var (rate, sample) := RateFor(rates, kind);
    if sample >= MIN_COHORT_SAMPLE && model > 0.0 {
      ShareOfAmount(amount, 0.5 * rate + 0.5 * model);
    } else {
      ShareOfAmount(amount, if sample >= MIN_COHORT_SAMPLE then rate else model);
    }
  }

  /** Whatever is attributed to the customer coming back alone is part of the amount, so an
      entry never claims more than it grossed, and its parts add up. */
  lemma EntryAddsUp(id: EventId, e: Event, journey: JourneyId, action: ActionType, gross: int, cost: int,
                    events: EventTable)
    requires gross >= 0 && cost >= 0 && 0.0 <= e.organicProbability <= 1.0
    ensures var entry := Entry(id, e, journey, action, gross, cost, OrganicRates(events));
            && 0 <= entry.organic <= entry.gross
            && entry.incremental + entry.organic + entry.cost == entry.gross
            && entry.incremental <= entry.gross
  {
    RateIsProbability(events, e.kind);
    EstimateIsShare(gross, e.organicProbability, OrganicRates(events), e.kind);
  }

  datatype Totals = Totals(entries: nat, gross: int, organic: int, cost: int, incremental: int)

  function TotalsOf(entries: seq<LedgerEntry>): Totals {
    if entries == [] then Totals(0, 0, 0, 0, 0)
    else
      var last := entries[|entries| - 1];
      var t := TotalsOf(entries[..|entries| - 1]);
      Totals(t.entries + 1, t.gross + last.gross, t.organic + last.organic, t.cost + last.cost,
             t.incremental + last.incremental)
  }

  /** The headline figure is conserved: summed over the whole ledger, incremental is gross less
      organic less cost. */
  lemma {:induction false} TotalsAddUp(entries: seq<LedgerEntry>)
    requires forall i :: 0 <= i < |entries| ==>
               entries[i].incremental == entries[i].gross - entries[i].organic - entries[i].cost
    ensures var t := TotalsOf(entries);
            t.entries == |entries| && t.incremental == t.gross - t.organic - t.cost
  {
    if entries != [] { TotalsAddUp(entries[..|entries| - 1]); }
  }
}
