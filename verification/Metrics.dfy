/** The discrimination metric of the recovery model: the area under the ROC curve, computed from
    ranks that are averaged over ties in place. */
module Metrics {

  // --------------------------------------------------------------- the pairwise meaning

  /** How often a score beats another, in halves: two for a win, one for a tie. */
  function Wins(a: real, b: real): int {
    if a > b then 2 else if a == b then 1 else 0
  }

  /** Wins of one score against the scores at some positions. */
  function WinsOver(x: real, scores: seq<real>, at: seq<nat>): int
    requires forall k :: 0 <= k < |at| ==> at[k] < |scores|
  {
    if at == [] then 0 else WinsOver(x, scores, at[..|at| - 1]) + Wins(x, scores[at[|at| - 1]])
  }

  /** Wins of the scores at some positions against those at others. */
  function PairWins(scores: seq<real>, these: seq<nat>, those: seq<nat>): int
    requires forall k :: 0 <= k < |these| ==> these[k] < |scores|
    requires forall k :: 0 <= k < |those| ==> those[k] < |scores|
  {
    if these == [] then 0
    else PairWins(scores, these[..|these| - 1], those) + WinsOver(scores[these[|these| - 1]], scores, those)
  }

  /** The positions of one class among the first n. */
  function Positions(labels: seq<bool>, class_: bool, n: nat): (at: seq<nat>)
    requires n <= |labels|
    ensures forall k :: 0 <= k < |at| ==> at[k] < n && labels[at[k]] == class_
  {
    if n == 0 then []
    else
      var before := Positions(labels, class_, n - 1);
      if labels[n - 1] == class_ then before + [n - 1] else before
  }

  function Positives(labels: seq<bool>): seq<nat> { Positions(labels, true, |labels|) }

  function Negatives(labels: seq<bool>): seq<nat> { Positions(labels, false, |labels|) }

  /** The area under the curve by definition: the share of positive-negative pairs in which the
      positive scores higher, ties counted half. */
  function PairwiseAuc(labels: seq<bool>, scores: seq<real>): real
    requires |labels| == |scores|
  {
    var pos, neg := Positives(labels), Negatives(labels);
    if pos == [] || neg == [] then 0.5
    else PairWins(scores, pos, neg) as real / (2 * |pos| * |neg|) as real
  }

  // ----------------------------------------------------------------------- sorted orders

  function Upto(n: nat): (s: seq<nat>)
    ensures |s| == n && forall k :: 0 <= k < n ==> s[k] == k
  {
    if n == 0 then [] else Upto(n - 1) + [n - 1]
  }

  /** What sorting the scores yields: every position once, in ascending order of score. Nothing is
      said about the order of ties. */
  ghost predicate SortsScores(order: seq<nat>, scores: seq<real>) {
    && multiset(order) == multiset(Upto(|scores|))
    && (forall k :: 0 <= k < |order| ==> order[k] < |scores|)
    && (forall i, k :: 0 <= i < k < |order| ==> scores[order[i]] <= scores[order[k]])
  }

  lemma {:induction false} UptoIsOnce(n: nat, x: nat)
    ensures multiset(Upto(n))[x] == if x < n then 1 else 0
  {
    if n > 0 { UptoIsOnce(n - 1, x); }
  }

  lemma OrderIsOneToOne(order: seq<nat>, scores: seq<real>)
    requires SortsScores(order, scores)
    ensures |order| == |scores|
    ensures forall i, k :: 0 <= i < k < |order| ==> order[i] != order[k]
  {
    assert |order| == |multiset(order)| && |Upto(|scores|)| == |multiset(Upto(|scores|))|;
    forall i, k | 0 <= i < k < |order| ensures order[i] != order[k] {
      UptoIsOnce(|scores|, order[i]);
      TwiceInMultiset(order, i, k);
    }
  }

  lemma TwiceInMultiset(s: seq<nat>, i: nat, k: nat)
    requires i < k < |s|
    ensures s[i] == s[k] ==> multiset(s)[s[i]] >= 2
  {
    assert s == s[..k] + [s[k]] + s[k + 1..];
    assert multiset(s) == multiset(s[..k]) + multiset{s[k]} + multiset(s[k + 1..]);
    assert s[..k][i] == s[i];
    assert s[i] in multiset(s[..k]);
  }

  // ------------------------------------------------------------- sums over positions

  lemma {:induction false} WinsOverAppend(x: real, scores: seq<real>, a: seq<nat>, b: seq<nat>)
    requires forall k :: 0 <= k < |a| ==> a[k] < |scores|
    requires forall k :: 0 <= k < |b| ==> b[k] < |scores|
    ensures WinsOver(x, scores, a + b) == WinsOver(x, scores, a) + WinsOver(x, scores, b)
  {
    if b == [] {
      assert a + b == a;
    } else {
      var n := |b| - 1;
      assert (a + b)[..|a| + n] == a + b[..n];
      WinsOverAppend(x, scores, a, b[..n]);
    }
  }

  function Without(s: seq<nat>, i: nat): seq<nat>
    requires i < |s|
  {
    s[..i] + s[i + 1..]
  }

  lemma WithoutRemoves(s: seq<nat>, i: nat)
    requires i < |s|
    ensures multiset(Without(s, i)) == multiset(s) - multiset{s[i]}
  {
    assert s == s[..i] + [s[i]] + s[i + 1..];
  }

  lemma WinsWithout(x: real, scores: seq<real>, s: seq<nat>, i: nat)
    requires i < |s| && forall k :: 0 <= k < |s| ==> s[k] < |scores|
    ensures WinsOver(x, scores, s) == WinsOver(x, scores, Without(s, i)) + Wins(x, scores[s[i]])
  {
    var low, high := s[..i], s[i + 1..];
    assert s == low + ([s[i]] + high);
    WinsOverAppend(x, scores, low, high);
    WinsOverAppend(x, scores, low, [s[i]] + high);
    WinsOverAppend(x, scores, [s[i]], high);
    assert [s[i]][..0] == [];
    assert WinsOver(x, scores, [s[i]]) == Wins(x, scores[s[i]]);
  }

  lemma Occurrence(s: seq<nat>, t: seq<nat>, x: nat) returns (i: nat)
    requires multiset(s) == multiset(t) && x in s
    ensures i < |t| && t[i] == x
  {
    assert x in multiset(s);
    assert x in t;
    i :| i < |t| && t[i] == x;
  }

  /** The sum does not depend on the order of the positions. */
  lemma {:induction false} WinsOverPermutes(x: real, scores: seq<real>, a: seq<nat>, b: seq<nat>)
    requires multiset(a) == multiset(b)
    requires forall k :: 0 <= k < |a| ==> a[k] < |scores|
    requires forall k :: 0 <= k < |b| ==> b[k] < |scores|
    ensures WinsOver(x, scores, a) == WinsOver(x, scores, b)
    decreases |a|
  {
    if a == [] {
      assert |multiset(b)| == 0;
    } else {
      var n := |a| - 1;
      var i := Occurrence(a, b, a[n]);
      WithoutRemoves(a, n);
      WithoutRemoves(b, i);
      WinsOverPermutes(x, scores, Without(a, n), Without(b, i));
      WinsWithout(x, scores, a, n);
      WinsWithout(x, scores, b, i);
    }
  }

  /** Everybody is positive or negative. */
  lemma {:induction false} WinsSplit(x: real, labels: seq<bool>, scores: seq<real>, n: nat)
    requires |labels| == |scores| && n <= |labels|
    ensures WinsOver(x, scores, Upto(n))
            == WinsOver(x, scores, Positions(labels, true, n)) + WinsOver(x, scores, Positions(labels, false, n))
  {
    if n > 0 {
      WinsSplit(x, labels, scores, n - 1);
      assert Upto(n)[..n - 1] == Upto(n - 1);
      WinsOverAppend(x, scores, Positions(labels, labels[n - 1], n - 1), [n - 1]);
      assert [n - 1][..0] == [];
      assert WinsOver(x, scores, [n - 1]) == Wins(x, scores[n - 1]);
    }
  }

  /** Adding one position to those who are played against. */
  lemma {:induction false} PairWinsColumn(scores: seq<real>, these: seq<nat>, those: seq<nat>, j: nat)
    requires forall k :: 0 <= k < |these| ==> these[k] < |scores|
    requires forall k :: 0 <= k < |those| ==> those[k] < |scores|
    requires j < |scores|
    ensures PairWins(scores, these, those + [j])
            == PairWins(scores, these, those) + 2 * |these| - WinsOver(scores[j], scores, these)
  {
    if these != [] {
      var n := |these| - 1;
      PairWinsColumn(scores, these[..n], those, j);
      WinsOverAppend(scores[these[n]], scores, those, [j]);
      assert [j][..0] == [];
      assert WinsOver(scores[these[n]], scores, [j]) == Wins(scores[these[n]], scores[j]);
    }
  }

  /** Within one class every pair is decided once: wins and losses make two halves. */
  lemma {:induction false} PairWinsWithin(scores: seq<real>, these: seq<nat>)
    requires forall k :: 0 <= k < |these| ==> these[k] < |scores|
    ensures PairWins(scores, these, these) == |these| * |these|
  {
    if these != [] {
      var n := |these| - 1;
      var before, j := these[..n], these[n];
      assert these == before + [j];
      PairWinsWithin(scores, before);
      PairWinsColumn(scores, before, before, j);
      WinsOverAppend(scores[j], scores, before, [j]);
      assert [j][..0] == [];
      assert WinsOver(scores[j], scores, [j]) == 1;
      assert PairWins(scores, these, these)
             == PairWins(scores, before, these) + WinsOver(scores[j], scores, these);
      assert n * n + 2 * n + 1 == (n + 1) * (n + 1);
    }
  }

  lemma {:induction false} PairWinsSplit(labels: seq<bool>, scores: seq<real>, these: seq<nat>)
    requires |labels| == |scores| && forall k :: 0 <= k < |these| ==> these[k] < |scores|
    ensures PairWins(scores, these, Upto(|scores|))
            == PairWins(scores, these, Positives(labels)) + PairWins(scores, these, Negatives(labels))
  {
    if these != [] {
      var n := |these| - 1;
      PairWinsSplit(labels, scores, these[..n]);
      WinsSplit(scores[these[n]], labels, scores, |labels|);
    }
  }

  // ------------------------------------------------------------------------------ ranks

  lemma {:induction false} AllLose(x: real, scores: seq<real>, at: seq<nat>, wins: int)
    requires forall k :: 0 <= k < |at| ==> at[k] < |scores| && Wins(x, scores[at[k]]) == wins
    ensures WinsOver(x, scores, at) == wins * |at|
  {
    if at != [] { AllLose(x, scores, at[..|at| - 1], wins); }
  }

  /** The scores from `start` to `stop` of a sorted order are one group of ties. */
  ghost predicate TieGroup(order: seq<nat>, scores: seq<real>, start: nat, stop: nat) {
    && start < stop <= |order|
    && (forall k :: 0 <= k < |order| ==> order[k] < |scores|)
    && (forall k :: start <= k < stop ==> scores[order[k]] == scores[order[start]])
    && (forall k :: 0 <= k < start ==> scores[order[k]] < scores[order[start]])
    && (forall k :: stop <= k < |order| ==> scores[order[start]] < scores[order[k]])
  }

  lemma PartWins(x: real, order: seq<nat>, scores: seq<real>, from: nat, to: nat, wins: int)
    requires from <= to <= |order|
    requires forall k :: from <= k < to ==> order[k] < |scores| && Wins(x, scores[order[k]]) == wins
    ensures forall k :: 0 <= k < to - from ==> order[from..to][k] < |scores|
    ensures WinsOver(x, scores, order[from..to]) == wins * (to - from)
  {
    var part := order[from..to];
    assert forall k :: 0 <= k < |part| ==> part[k] == order[from + k];
    AllLose(x, scores, part, wins);
  }

  lemma ThreeParts(s: seq<nat>, start: nat, stop: nat)
    requires start <= stop <= |s|
    ensures s[0..start] + s[start..stop] + s[stop..|s|] == s
  {
  }

  lemma OrderWins(order: seq<nat>, scores: seq<real>, start: nat, stop: nat)
    requires TieGroup(order, scores, start, stop)
    ensures WinsOver(scores[order[start]], scores, order) == start + stop
  {
    var x := scores[order[start]];
    PartWins(x, order, scores, 0, start, 2);
    PartWins(x, order, scores, start, stop, 1);
    PartWins(x, order, scores, stop, |order|, 0);
    ThreeParts(order, start, stop);
    WinsOverAppend(x, scores, order[0..start], order[start..stop]);
    WinsOverAppend(x, scores, order[0..start] + order[start..stop], order[stop..|order|]);
  }

  /** A member of a group beats twice everybody before it and ties with the group: that is twice
      its average rank, less one. */
  lemma GroupWins(order: seq<nat>, scores: seq<real>, start: nat, stop: nat, k: nat)
    requires SortsScores(order, scores) && TieGroup(order, scores, start, stop) && start <= k < stop
    ensures WinsOver(scores[order[k]], scores, Upto(|scores|)) == start + stop
  {
    OrderWins(order, scores, start, stop);
    WinsOverPermutes(scores[order[start]], scores, order, Upto(|scores|));
  }

  /** The group of ties that starts where the one before it ended. */
  lemma GroupFound(order: seq<nat>, scores: seq<real>, start: nat, stop: nat)
    requires SortsScores(order, scores) && start < stop <= |order|
    requires forall k :: start <= k < stop ==> scores[order[k]] == scores[order[start]]
    requires start > 0 ==> scores[order[start - 1]] != scores[order[start]]
    requires stop < |order| ==> scores[order[stop]] != scores[order[start]]
    ensures TieGroup(order, scores, start, stop)
  {
    forall k | 0 <= k < start ensures scores[order[k]] < scores[order[start]] {
      assert scores[order[k]] <= scores[order[start - 1]] <= scores[order[start]];
    }
    forall k | stop <= k < |order| ensures scores[order[start]] < scores[order[k]] {
      assert scores[order[start]] <= scores[order[stop]] <= scores[order[k]];
    }
  }

  /** A rank is right when twice of it is one more than the wins against everybody. */
  ghost predicate RankIs(rank: real, scores: seq<real>, i: nat)
    requires i < |scores|
  {
    2.0 * rank == (WinsOver(scores[i], scores, Upto(|scores|)) + 1) as real
  }

  function RankSum(ranks: seq<real>, at: seq<nat>): real
    requires forall k :: 0 <= k < |at| ==> at[k] < |ranks|
  {
    if at == [] then 0.0 else RankSum(ranks, at[..|at| - 1]) + ranks[at[|at| - 1]]
  }

  lemma {:induction false} RankSumIsWins(ranks: seq<real>, scores: seq<real>, at: seq<nat>)
    requires |ranks| == |scores| && forall k :: 0 <= k < |at| ==> at[k] < |ranks|
    requires forall i :: 0 <= i < |ranks| ==> RankIs(ranks[i], scores, i)
    ensures 2.0 * RankSum(ranks, at) == (PairWins(scores, at, Upto(|scores|)) + |at|) as real
  {
    if at != [] {
      var n := |at| - 1;
      RankSumIsWins(ranks, scores, at[..n]);
      assert RankIs(ranks[at[n]], scores, at[n]);
    }
  }

  /** With right ranks, the rank formula is the pairwise area. */
  lemma RanksGivePairs(ranks: seq<real>, labels: seq<bool>, scores: seq<real>)
    requires |ranks| == |scores| == |labels|
    requires forall i :: 0 <= i < |ranks| ==> RankIs(ranks[i], scores, i)
    ensures var pos, neg := Positives(labels), Negatives(labels);
            2.0 * (RankSum(ranks, pos) - (|pos| * (|pos| + 1)) as real / 2.0) == PairWins(scores, pos, neg) as real
  {
    var pos := Positives(labels);
    RankSumIsWins(ranks, scores, pos);
    PairWinsSplit(labels, scores, pos);
    PairWinsWithin(scores, pos);
    assert |pos| * (|pos| + 1) == |pos| * |pos| + |pos|;
  }

  // ---------------------------------------------------------------------- the algorithm

  method CountPositives(labels: seq<bool>) returns (n: nat)
    ensures n == |Positives(labels)| && |labels| - n == |Negatives(labels)|
  {
    n := 0;
    var i := 0;
    while i < |labels|
      invariant 0 <= i <= |labels|
      invariant n == |Positions(labels, true, i)| && i - n == |Positions(labels, false, i)|
    {
      if labels[i] {
        n := n + 1;
      }
      i := i + 1;
    }
  }

  /** Give every position its place in the order. */
  method PlaceRanks(ranks: array<real>, order: seq<nat>, ghost scores: seq<real>)
    requires SortsScores(order, scores) && ranks.Length == |scores|
    modifies ranks
    ensures |order| == ranks.Length
    ensures forall k :: 0 <= k < |order| ==> ranks[order[k]] == (k + 1) as real
  {
    OrderIsOneToOne(order, scores);
    var i := 0;
    while i < |order|
      invariant 0 <= i <= |order|
      invariant forall k :: 0 <= k < i ==> ranks[order[k]] == (k + 1) as real
    {
      ranks[order[i]] := (i + 1) as real;
      i := i + 1;
    }
  }

  /** Replace the ranks of one group of ties by their mean. */
  method AverageGroup(ranks: array<real>, order: seq<nat>, start: nat, stop: nat, ghost scores: seq<real>)
    requires SortsScores(order, scores) && |order| == ranks.Length == |scores| && start < stop <= |order|
    requires forall k :: start <= k < stop ==> ranks[order[k]] == (k + 1) as real
    modifies ranks
    ensures forall k :: start <= k < stop ==> 2.0 * ranks[order[k]] == (start + stop + 1) as real
    ensures forall k :: 0 <= k < |order| && !(start <= k < stop) ==> ranks[order[k]] == old(ranks[order[k]])
  {
    OrderIsOneToOne(order, scores);
    if stop - start > 1 {
      var sum := 0.0;
      var k := start;
      while k < stop
        invariant start <= k <= stop
        invariant 2.0 * sum == ((k - start) * (start + k + 1)) as real
      {
        sum := sum + ranks[order[k]];
        assert (k + 1 - start) * (start + k + 2) == (k - start) * (start + k + 1) + 2 * (k + 1);
        k := k + 1;
      }
      var mean := sum / (stop - start) as real;
      MeanOfRun(sum, start, stop);
      k := start;
      while k < stop
        invariant start <= k <= stop
        invariant forall i :: start <= i < k ==> ranks[order[i]] == mean
        invariant forall i :: 0 <= i < |order| && !(start <= i < k) ==> ranks[order[i]] == old(ranks[order[i]])
      {
        ranks[order[k]] := mean;
        k := k + 1;
      }
    }
  }

  lemma MeanOfRun(sum: real, start: nat, stop: nat)
    requires start < stop && 2.0 * sum == ((stop - start) * (start + stop + 1)) as real
    ensures 2.0 * (sum / (stop - start) as real) == (start + stop + 1) as real
  {
    var n, m := (stop - start) as real, (start + stop + 1) as real;
    ProductAsReal(stop - start, start + stop + 1);
    Cancel(2.0 * (sum / n), m, n);
  }

  lemma ProductAsReal(a: nat, b: nat)
    ensures (a * b) as real == a as real * b as real
  {
  }

  lemma Cancel(a: real, b: real, n: real)
    requires n > 0.0 && a * n == n * b
    ensures a == b
  {
    assert (a - b) * n == 0.0;
  }

  /** Average the ranks within ties so that identical scores do not inflate the statistic. */
  method AverageTies(ranks: array<real>, order: seq<nat>, scores: seq<real>)
    requires SortsScores(order, scores) && |order| == ranks.Length == |scores|
    requires forall k :: 0 <= k < |order| ==> ranks[order[k]] == (k + 1) as real
    modifies ranks
    ensures forall k :: 0 <= k < |order| ==> RankIs(ranks[order[k]], scores, order[k])
  {
    var start := 0;
    var idx := 1;
    while idx <= |order|
      invariant 0 <= start <= |order| && (start < idx <= |order| + 1 || |order| == 0)
      invariant idx == |order| + 1 ==> start == |order| || |order| == 0
      invariant idx <= |order| ==> forall k :: start <= k < idx ==> scores[order[k]] == scores[order[start]]
      invariant 0 < start < |order| ==> scores[order[start - 1]] != scores[order[start]]
      invariant forall k :: 0 <= k < start ==> RankIs(ranks[order[k]], scores, order[k])
      invariant forall k :: start <= k < |order| ==> ranks[order[k]] == (k + 1) as real
    {
      if idx == |order| || scores[order[idx]] != scores[order[start]] {
        label L:
        AverageGroup(ranks, order, start, idx, scores);
        GroupFound(order, scores, start, idx);
        forall k | 0 <= k < idx ensures RankIs(ranks[order[k]], scores, order[k]) {
          if start <= k {
            GroupWins(order, scores, start, idx, k);
          } else {
            assert ranks[order[k]] == old@L(ranks[order[k]]);
          }
        }
        start := idx;
      }
      idx := idx + 1;
    }
  }

  method SumRanks(ranks: array<real>, labels: seq<bool>) returns (sum: real)
    requires ranks.Length == |labels|
    ensures sum == RankSum(ranks[..], Positives(labels))
  {
    sum := 0.0;
    var i := 0;
    while i < |labels|
      invariant 0 <= i <= |labels|
      invariant sum == RankSum(ranks[..], Positions(labels, true, i))
    {
      if labels[i] {
        ghost var before := Positions(labels, true, i);
        assert Positions(labels, true, i + 1) == before + [i];
        assert (before + [i])[..|before|] == before;
        sum := sum + ranks[i];
      }
      i := i + 1;
    }
  }

  lemma EveryPositionRanked(ranks: seq<real>, order: seq<nat>, scores: seq<real>)
    requires SortsScores(order, scores) && |order| == |ranks| == |scores|
    requires forall k :: 0 <= k < |order| ==> RankIs(ranks[order[k]], scores, order[k])
    ensures forall i :: 0 <= i < |ranks| ==> RankIs(ranks[i], scores, i)
  {
    forall i | 0 <= i < |ranks| ensures RankIs(ranks[i], scores, i) {
      UptoIsOnce(|scores|, i);
      assert i in multiset(order);
      var k :| 0 <= k < |order| && order[k] == i;
    }
  }

  lemma AucOfSum(sum: real, pairs: int, pos: nat, neg: nat)
    requires pos > 0 && neg > 0
    requires 2.0 * (sum - (pos * (pos + 1)) as real / 2.0) == pairs as real
    ensures (sum - (pos * (pos + 1)) as real / 2.0) / (pos * neg) as real == pairs as real / (2 * pos * neg) as real
  {
    var x, d := sum - (pos * (pos + 1)) as real / 2.0, (pos * neg) as real;
    assert pos * neg > 0;
    assert 2 * pos * neg == 2 * (pos * neg);
    assert (2 * pos * neg) as real == 2.0 * d;
    assert (2.0 * x) / (2.0 * d) == x / d;
  }

  /** The rank-based area equals the pairwise one for every pair of arrays, whatever order the sort
      leaves ties in; with one class missing it is one half. */
  method RocAuc(labels: seq<bool>, scores: seq<real>, order: seq<nat>) returns (auc: real)
    requires |labels| == |scores| && SortsScores(order, scores)
    ensures auc == PairwiseAuc(labels, scores)
  {
    var pos := CountPositives(labels);
    var neg := |labels| - pos;
    if pos == 0 || neg == 0 {
      return 0.5;
    }
    var ranks := new real[|scores|];
    PlaceRanks(ranks, order, scores);
    AverageTies(ranks, order, scores);
    var sum := SumRanks(ranks, labels);
    EveryPositionRanked(ranks[..], order, scores);
    RanksGivePairs(ranks[..], labels, scores);
    auc := (sum - (pos * (pos + 1)) as real / 2.0) / (pos * neg) as real;
    AucOfSum(sum, PairWins(scores, Positives(labels), Negatives(labels)), pos, neg);
  }

  // ------------------------------------------------------------- what the area means

  lemma {:induction false} WinsOverBounds(x: real, scores: seq<real>, at: seq<nat>)
    requires forall k :: 0 <= k < |at| ==> at[k] < |scores|
    ensures 0 <= WinsOver(x, scores, at) <= 2 * |at|
  {
    if at != [] { WinsOverBounds(x, scores, at[..|at| - 1]); }
  }

  lemma {:induction false} PairWinsBounds(scores: seq<real>, these: seq<nat>, those: seq<nat>)
    requires forall k :: 0 <= k < |these| ==> these[k] < |scores|
    requires forall k :: 0 <= k < |those| ==> those[k] < |scores|
    ensures 0 <= PairWins(scores, these, those) <= 2 * |these| * |those|
  {
    if these != [] {
      var n := |these| - 1;
      PairWinsBounds(scores, these[..n], those);
      WinsOverBounds(scores[these[n]], scores, those);
      assert 2 * (n + 1) * |those| == 2 * n * |those| + 2 * |those|;
    }
  }

  lemma ShareOf(part: real, whole: real)
    requires 0.0 <= part <= whole && whole > 0.0
    ensures 0.0 <= part / whole <= 1.0
  {
  }

  lemma PositivePairs(pos: nat, neg: nat)
    requires pos > 0 && neg > 0
    ensures 2 * pos * neg > 0
  {
  }

  /** The area is a share. */
  lemma AucIsShare(labels: seq<bool>, scores: seq<real>)
    requires |labels| == |scores|
    ensures 0.0 <= PairwiseAuc(labels, scores) <= 1.0
  {
    var pos, neg := Positives(labels), Negatives(labels);
    if pos != [] && neg != [] {
      PairWinsBounds(scores, pos, neg);
      PositivePairs(|pos|, |neg|);
      ShareOf(PairWins(scores, pos, neg) as real, (2 * |pos| * |neg|) as real);
    }
  }
}
