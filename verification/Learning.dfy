/** Merchant recovery memory: a Beta posterior per context and action, learned one outcome at a
    time or seeded in one batch from history. */
module Learning {
  import opened Domain

  const PRIOR_WEIGHT := 4.0

  /** A cell of the memory: loss class, cause layer and value band, and the action. */
  datatype CellKey = CellKey(context: string, action: ActionType)

  datatype Stat = Stat(trials: nat, successes: nat, alpha: real, beta: real, recovered: int, cost: int)

  type Memory = map<CellKey, Stat>

  datatype Observation = Observation(key: CellKey, recovered: bool, amount: int, cost: int)

  function Prior(action: ActionType): real { Catalog(action).baseSuccess }

  function FreshStat(action: ActionType): Stat {
    Stat(0, 0, 1.0 + PRIOR_WEIGHT * Prior(action), 1.0 + PRIOR_WEIGHT * (1.0 - Prior(action)), 0, 0)
  }

  function Updated(s: Stat, o: Observation): Stat {
    s.(trials := s.trials + 1, cost := s.cost + o.cost,
       successes := s.successes + (if o.recovered then 1 else 0),
       alpha := s.alpha + (if o.recovered then 1.0 else 0.0),
       beta := s.beta + (if o.recovered then 0.0 else 1.0),
       recovered := s.recovered + (if o.recovered then o.amount else 0))
  }

  function Observe(m: Memory, o: Observation): Memory {
    m[o.key := Updated(if o.key in m then m[o.key] else FreshStat(o.key.action), o)]
  }

  /** The memory after learning one by one. */
  function Learned(history: seq<Observation>): Memory {
    if history == [] then map[]
    else Observe(Learned(history[..|history| - 1]), history[|history| - 1])
  }

  // --------------------------------------------------------------------- the batch form

  /** What a bucket holds: trials, successes, recovered and cost. */
  datatype Bucket = Bucket(trials: nat, successes: nat, recovered: int, cost: int)

  function Filled(b: Bucket, o: Observation): Bucket {
    Bucket(b.trials + 1, b.successes + (if o.recovered then 1 else 0),
           b.recovered + (if o.recovered then o.amount else 0), b.cost + o.cost)
  }

  function StatFrom(action: ActionType, b: Bucket): Stat {
    Stat(b.trials, b.successes,
         1.0 + PRIOR_WEIGHT * Prior(action) + b.successes as real,
         1.0 + PRIOR_WEIGHT * (1.0 - Prior(action)) + (b.trials - b.successes) as real,
         b.recovered, b.cost)
  }

  /** The totals of one cell over a history, by definition. */
  function Total(history: seq<Observation>, key: CellKey): Bucket {
    if history == [] then Bucket(0, 0, 0, 0)
    else
      var before := Total(history[..|history| - 1], key);
      var o := history[|history| - 1];
      if o.key == key then Filled(before, o) else before
  }

  predicate Mentions(history: seq<Observation>, key: CellKey) {
    exists i :: 0 <= i < |history| && history[i].key == key
  }

  /** The memory a history amounts to: one cell per context and action it mentions, and in it the
      posterior of that cell's totals. Nothing is said about any order. */
  ghost predicate Remembers(m: Memory, history: seq<Observation>) {
    && (forall key :: key in m <==> Mentions(history, key))
    && (forall key :: key in m ==> m[key] == StatFrom(key.action, Total(history, key)))
  }

  class Learner {
    var stats: Memory

    constructor ()
      ensures stats == map[]
    {
      stats := map[];
    }

    /** Learn from one verified outcome. */
    method ObserveOutcome(o: Observation)
      modifies this
      ensures stats == Observe(old(stats), o)
      ensures forall k :: k != o.key ==> (k in stats <==> k in old(stats)) && (k in stats ==> stats[k] == old(stats)[k])
      ensures o.key in stats
      ensures var before := if o.key in old(stats) then old(stats)[o.key] else FreshStat(o.key.action);
              var after := stats[o.key];
              && after.trials == before.trials + 1 && after.alpha + after.beta == before.alpha + before.beta + 1.0
              && (after.alpha > before.alpha <==> o.recovered) && (after.beta > before.beta <==> !o.recovered)
    {
      var stat := FreshStat(o.key.action);
      if o.key in stats {
        stat := stats[o.key];
      }
      stat := stat.(trials := stat.trials + 1, cost := stat.cost + o.cost);
      if o.recovered {
        stat := stat.(successes := stat.successes + 1, alpha := stat.alpha + 1.0,
                      recovered := stat.recovered + o.amount);
      } else {
        stat := stat.(beta := stat.beta + 1.0);
      }
      stats := stats[o.key := stat];
    }

    /** Seed the memory from resolved history, unless something was learned already. */
    method Bootstrap(rows: seq<HistoryRow>) returns (cells: nat)
      modifies this
      ensures old(stats) != map[] ==> stats == old(stats) && cells == 0
      ensures old(stats) == map[] ==> Remembers(stats, Resolved(rows)) && cells == |stats|
    {
      if stats != map[] {
        return 0;
      }
      var buckets := FillBuckets(rows);
      stats := SeedStats(buckets);
      assert stats.Keys == buckets.Keys;
      cells := |buckets|;
    }
  }

  /** An event of the training history. */
  datatype HistoryRow = HistoryRow(training: bool, recovered: Option<bool>, applied: Option<ActionType>,
                                   context: string, recoveredAmount: int, cost: int)

  predicate Counts(row: HistoryRow) {
    row.training && row.recovered.Some? && row.applied.Some?
  }

  function AsObservation(row: HistoryRow): Observation
    requires Counts(row)
  {
    Observation(CellKey(row.context, row.applied.value), row.recovered.value, row.recoveredAmount, row.cost)
  }

  /** The resolved events on which an action was applied, as outcomes to learn from. */
  function Resolved(rows: seq<HistoryRow>): seq<Observation> {
    if rows == [] then []
    else
      var before := Resolved(rows[..|rows| - 1]);
      var row := rows[|rows| - 1];
      if Counts(row) then before + [AsObservation(row)] else before
  }

  method FillBuckets(rows: seq<HistoryRow>) returns (buckets: map<CellKey, Bucket>)
    ensures forall key :: key in buckets <==> Mentions(Resolved(rows), key)
    ensures forall key :: key in buckets ==> buckets[key] == Total(Resolved(rows), key)
  {
    buckets := map[];
    var i := 0;
    while i < |rows|
      invariant 0 <= i <= |rows|
      invariant forall key :: key in buckets <==> Mentions(Resolved(rows[..i]), key)
      invariant forall key :: key in buckets ==> buckets[key] == Total(Resolved(rows[..i]), key)
    {
      assert rows[..i + 1][..i] == rows[..i];
      if Counts(rows[i]) {
        var o := AsObservation(rows[i]);
        ghost var longer := Resolved(rows[..i]) + [o];
        assert longer[..|longer| - 1] == Resolved(rows[..i]) && longer[..|longer|] == longer;
        OneMore(longer, |longer| - 1);
        var bucket := if o.key in buckets then buckets[o.key] else Bucket(0, 0, 0, 0);
        bucket := bucket.(trials := bucket.trials + 1);
        if o.recovered {
          bucket := bucket.(successes := bucket.successes + 1, recovered := bucket.recovered + o.amount);
        }
        bucket := bucket.(cost := bucket.cost + o.cost);
        buckets := buckets[o.key := bucket];
      }
      i := i + 1;
    }
    assert rows[..i] == rows;
  }

  method SeedStats(buckets: map<CellKey, Bucket>) returns (stats: Memory)
    ensures stats.Keys == buckets.Keys
    ensures forall key :: key in buckets ==> stats[key] == StatFrom(key.action, buckets[key])
  {
    stats := map[];
    var todo := buckets.Keys;
    while todo != {}
      invariant todo <= buckets.Keys
      invariant stats.Keys == buckets.Keys - todo
      invariant forall key :: key in stats ==> stats[key] == StatFrom(key.action, buckets[key])
      decreases todo
    {
      var key :| key in todo;
      stats := stats[key := StatFrom(key.action, buckets[key])];
      todo := todo - {key};
    }
  }

  // --------------------------------------------------------------- batch equals one by one

  lemma OneMore(history: seq<Observation>, i: nat)
    requires i < |history|
    ensures forall key :: Mentions(history[..i + 1], key) <==> Mentions(history[..i], key) || key == history[i].key
    ensures forall key :: Total(history[..i + 1], key)
                          == if key == history[i].key then Filled(Total(history[..i], key), history[i])
                             else Total(history[..i], key)
    ensures forall key :: !Mentions(history[..i], key) ==> Total(history[..i], key) == Bucket(0, 0, 0, 0)
  {
    assert history[..i + 1][..i] == history[..i];
    forall key ensures Mentions(history[..i + 1], key) <==> Mentions(history[..i], key) || key == history[i].key {
      if key == history[i].key { assert history[..i + 1][i].key == key; }
      if Mentions(history[..i], key) {
        var k :| 0 <= k < i && history[..i][k].key == key;
        assert history[..i + 1][k].key == key;
      }
    }
    forall key | !Mentions(history[..i], key) ensures Total(history[..i], key) == Bucket(0, 0, 0, 0) {
      UnmentionedIsEmpty(history[..i], key);
    }
  }

  lemma PrefixMentions(history: seq<Observation>, n: nat, key: CellKey)
    requires n <= |history|
    ensures Mentions(history[..n], key) ==> Mentions(history, key)
  {
    if Mentions(history[..n], key) {
      var k :| 0 <= k < n && history[..n][k].key == key;
      assert history[k].key == key;
    }
  }

  lemma {:induction false} UnmentionedIsEmpty(history: seq<Observation>, key: CellKey)
    requires !Mentions(history, key)
    ensures Total(history, key) == Bucket(0, 0, 0, 0)
  {
    if history != [] {
      var n := |history| - 1;
      assert history[n].key != key;
      PrefixMentions(history, n, key);
      UnmentionedIsEmpty(history[..n], key);
    }
  }

  lemma UpdatedIsStat(action: ActionType, b: Bucket, o: Observation)
    ensures Updated(StatFrom(action, b), o) == StatFrom(action, Filled(b, o))
    ensures Updated(FreshStat(action), o) == StatFrom(action, Filled(Bucket(0, 0, 0, 0), o))
  {
  }

  /** Learning one outcome at a time leaves the posterior of the totals in every cell. */
  lemma {:induction false} LearnedRemembers(history: seq<Observation>)
    ensures Remembers(Learned(history), history)
  {
    if history != [] {
      var n := |history| - 1;
      LearnedRemembers(history[..n]);
      OneMore(history, n);
      assert history[..n + 1] == history;
      var o := history[n];
      UpdatedIsStat(o.key.action, Total(history[..n], o.key), o);
    }
  }

  /** Two memories of one history are equal, so seeding in a batch and learning one by one agree. */
  lemma BatchEqualsOnline(m: Memory, history: seq<Observation>)
    requires Remembers(m, history)
    ensures m == Learned(history)
  {
    LearnedRemembers(history);
    var l := Learned(history);
    assert forall key :: key in m <==> key in l;
    assert forall key :: key in m ==> m[key] == l[key];
  }

  // ---------------------------------------------------------------- order does not matter

  lemma {:induction false} TotalAppend(a: seq<Observation>, b: seq<Observation>, key: CellKey)
    ensures Total(a + b, key)
            == Bucket(Total(a, key).trials + Total(b, key).trials, Total(a, key).successes + Total(b, key).successes,
                      Total(a, key).recovered + Total(b, key).recovered, Total(a, key).cost + Total(b, key).cost)
  {
    if b == [] {
      assert a + b == a;
    } else {
      var n := |b| - 1;
      assert (a + b)[..|a| + n] == a + b[..n];
      TotalAppend(a, b[..n], key);
    }
  }

  lemma Occurrence(a: seq<Observation>, b: seq<Observation>, o: Observation) returns (i: nat)
    requires multiset(a) == multiset(b) && o in a
    ensures i < |b| && b[i] == o
  {
    assert o in multiset(a);
    assert o in b;
    i :| i < |b| && b[i] == o;
  }

  function Without(s: seq<Observation>, i: nat): seq<Observation>
    requires i < |s|
  {
    s[..i] + s[i + 1..]
  }

  lemma WithoutRemoves(s: seq<Observation>, i: nat)
    requires i < |s|
    ensures multiset(Without(s, i)) == multiset(s) - multiset{s[i]}
  {
    assert s == s[..i] + [s[i]] + s[i + 1..];
  }

  lemma TotalWithout(s: seq<Observation>, i: nat, key: CellKey)
    requires i < |s|
    ensures Total(s, key) == if s[i].key == key then Filled(Total(Without(s, i), key), s[i]) else Total(Without(s, i), key)
  {
    var low, high := s[..i], s[i + 1..];
    assert s == low + ([s[i]] + high);
    TotalAppend(low, high, key);
    TotalAppend(low, [s[i]] + high, key);
    TotalAppend([s[i]], high, key);
    assert [s[i]][..0] == [];
  }

  lemma {:induction false} TotalPermutes(a: seq<Observation>, b: seq<Observation>, key: CellKey)
    requires multiset(a) == multiset(b)
    ensures Total(a, key) == Total(b, key)
    decreases |a|
  {
    if a == [] {
      assert |multiset(b)| == 0;
    } else {
      var n := |a| - 1;
      var i := Occurrence(a, b, a[n]);
      WithoutRemoves(a, n);
      WithoutRemoves(b, i);
      TotalPermutes(Without(a, n), Without(b, i), key);
      TotalWithout(a, n, key);
      TotalWithout(b, i, key);
    }
  }

  lemma MentionsPermutes(a: seq<Observation>, b: seq<Observation>, key: CellKey)
    requires multiset(a) == multiset(b) && Mentions(a, key)
    ensures Mentions(b, key)
  {
    var i :| 0 <= i < |a| && a[i].key == key;
    var k := Occurrence(a, b, a[i]);
  }

  /** Outcomes may be learned in any order. */
  lemma OrderDoesNotMatter(a: seq<Observation>, b: seq<Observation>)
    requires multiset(a) == multiset(b)
    ensures Learned(a) == Learned(b)
  {
    LearnedRemembers(a);
    assert Remembers(Learned(a), b) by {
      forall key ensures Mentions(a, key) <==> Mentions(b, key) {
        if Mentions(a, key) { MentionsPermutes(a, b, key); }
        if Mentions(b, key) { MentionsPermutes(b, a, key); }
      }
      forall key ensures Total(a, key) == Total(b, key) { TotalPermutes(a, b, key); }
    }
    BatchEqualsOnline(Learned(a), b);
  }

  // -------------------------------------------------------------------------- posteriors

  function PosteriorMean(s: Stat): real
    requires s.alpha + s.beta != 0.0
  {
    s.alpha / (s.alpha + s.beta)
  }

  lemma {:induction false} SuccessesWithinTrials(history: seq<Observation>, key: CellKey)
    ensures Total(history, key).successes <= Total(history, key).trials
  {
    if history != [] { SuccessesWithinTrials(history[..|history| - 1], key); }
  }

  lemma ShareIsInside(a: real, b: real)
    requires a > 0.0 && b > 0.0
    ensures 0.0 < a / (a + b) < 1.0
  {
  }

  /** Every cell keeps the weight of its prior, six, plus one per trial, and its mean is strictly
      between never and always. */
  lemma PosteriorIsProper(history: seq<Observation>, key: CellKey)
    requires key in Learned(history)
    ensures var s := Learned(history)[key];
            && s.alpha + s.beta == 6.0 + s.trials as real
            && s.successes <= s.trials && s.trials > 0
            && 0.0 < PosteriorMean(s) < 1.0
  {
    LearnedRemembers(history);
    SuccessesWithinTrials(history, key);
    TrialsAreMentions(history, key);
    var s := Learned(history)[key];
    assert 0.0 <= Prior(key.action) <= 1.0;
    ShareIsInside(s.alpha, s.beta);
  }

  lemma {:induction false} TrialsAreMentions(history: seq<Observation>, key: CellKey)
    requires Mentions(history, key)
    ensures Total(history, key).trials > 0
  {
    var n := |history| - 1;
    if history[n].key != key {
      var i :| 0 <= i < |history| && history[i].key == key;
      assert history[..n][i].key == key;
      TrialsAreMentions(history[..n], key);
    }
  }
}
