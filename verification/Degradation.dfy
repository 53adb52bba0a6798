/** The payment degradation detector: the health of each route and method against its baseline,
    and the windows that record for how long a scope was degraded. */
module Degradation {
  import opened Domain

  const MIN_RECENT_ATTEMPTS: nat := 60

  datatype ScopeKind = RouteScope | MethodScope

  datatype Scope = Scope(kind: ScopeKind, value: string)

  datatype Severity = Unremarkable | Watch | Elevated | Critical

  datatype Health = Health(scope: Scope, attempts: nat, failures: nat, observed: real, baseline: real, ratio: real,
                           severity: Severity)

  predicate Degraded(h: Health) { h.severity == Elevated || h.severity == Critical }

  // ------------------------------------------------------------------------------ health

  function SeverityOf(ratio: real, observed: real): Severity {
    if observed < 0.05 then Unremarkable
    else if ratio >= 2.6 then Critical
    else if ratio >= 1.9 then Elevated
    else if ratio >= 1.45 then Watch
    else Unremarkable
  }

  function Rate(failures: nat, attempts: nat): real {
    if attempts == 0 then 0.0 else failures as real / attempts as real
  }

  /** The rate to compare with: the baseline, or else what is observed, or else one. */
  function BaselineFor(before: real, observed: real): real {
    if before != 0.0 then before else if observed != 0.0 then observed else 1.0
  }

  /** The health of one scope from its recent and its earlier attempts and failures. */
  function HealthOf(scope: Scope, attempts: nat, failures: nat, attemptsBefore: nat, failuresBefore: nat): Health {
    var observed := Rate(failures, attempts);
    var baseline := BaselineFor(Rate(failuresBefore, attemptsBefore), observed);
    var ratio := if baseline != 0.0 then observed / baseline else 1.0;
    Health(scope, attempts, failures, observed, baseline, ratio,
           if attempts >= MIN_RECENT_ATTEMPTS then SeverityOf(ratio, observed) else Unremarkable)
  }

  lemma RateTimes(failures: nat, attempts: nat)
    ensures attempts > 0 ==> Rate(failures, attempts) * attempts as real == failures as real
    ensures Rate(failures, attempts) >= 0.0
    ensures Rate(failures, attempts) == 0.0 <==> failures == 0 || attempts == 0
  {
    if attempts > 0 {
      var f, n := failures as real, attempts as real;
      assert f / n * n == f;
      assert f / n >= 0.0;
    }
  }

  lemma RatioAtLeast(observed: real, baseline: real)
    requires baseline > 0.0
    ensures observed / baseline >= 1.9 <==> observed >= 1.9 * baseline
  {
    var r := observed / baseline;
    assert r * baseline == observed;
    assert r >= 1.9 ==> r * baseline >= 1.9 * baseline;
    assert r < 1.9 ==> r * baseline < 1.9 * baseline;
  }

  /** A scope is degraded exactly when there were enough recent attempts, at least one in twenty
      failed, and that is at least 1.9 times the earlier rate. A scope without earlier failures is
      its own baseline, so it is never found degraded, however many of its attempts fail. */
  lemma DegradedIff(scope: Scope, attempts: nat, failures: nat, attemptsBefore: nat, failuresBefore: nat)
    ensures Degraded(HealthOf(scope, attempts, failures, attemptsBefore, failuresBefore)) <==>
            && attempts >= MIN_RECENT_ATTEMPTS
            && Rate(failures, attempts) >= 0.05
            && failuresBefore > 0 && attemptsBefore > 0
            && Rate(failures, attempts) >= 1.9 * Rate(failuresBefore, attemptsBefore)
  {
    var observed, before := Rate(failures, attempts), Rate(failuresBefore, attemptsBefore);
    RateTimes(failures, attempts);
    RateTimes(failuresBefore, attemptsBefore);
    var baseline := BaselineFor(before, observed);
    RatioAtLeast(observed, baseline);
    if before == 0.0 && observed != 0.0 { assert observed / observed == 1.0; }
  }

  // ----------------------------------------------------------------------------- windows

  datatype Window = Window(scope: Scope, active: bool, severity: Severity, detectedAt: Time, resolvedAt: Option<Time>,
                           baseline: real, observed: real, ratio: real, affected: nat)

  datatype Change = Opened(scope: Scope) | Resolved(scope: Scope)

  function OpenedWindow(h: Health, now: Time): Window {
    Window(h.scope, true, h.severity, now, None, h.baseline, h.observed, h.ratio, h.failures)
  }

  function Refreshed(w: Window, h: Health): Window {
    w.(severity := h.severity, baseline := h.baseline, observed := h.observed, ratio := h.ratio, affected := h.failures)
  }

  predicate ActiveAt(windows: seq<Window>, scope: Scope, k: nat) {
    k < |windows| && windows[k].active && windows[k].scope == scope
  }

  predicate HasActive(windows: seq<Window>, scope: Scope) {
    exists k :: 0 <= k < |windows| && ActiveAt(windows, scope, k)
  }

  predicate OneActiveEach(windows: seq<Window>) {
    forall i, k :: 0 <= i < k < |windows| && windows[i].active && windows[k].active ==>
      windows[i].scope != windows[k].scope
  }

  predicate IsDegraded(state: seq<Health>, scope: Scope) {
    exists k :: 0 <= k < |state| && state[k].scope == scope && Degraded(state[k])
  }

  /** One health record per route and per method, as the two dictionaries hold them. */
  predicate OneHealthEach(state: seq<Health>) {
    forall i, k :: 0 <= i < k < |state| ==> state[i].scope != state[k].scope
  }

  /** The reported changes are exactly the differences between the scopes that had an active
      window and those that are degraded, each named once. */
  predicate ReportsDifference(changes: seq<Change>, before: seq<Window>, state: seq<Health>) {
    && (forall i :: 0 <= i < |changes| ==>
          match changes[i]
          case Opened(s) => IsDegraded(state, s) && !HasActive(before, s)
          case Resolved(s) => HasActive(before, s) && !IsDegraded(state, s))
    && (forall k :: 0 <= k < |state| && Degraded(state[k]) && !HasActive(before, state[k].scope) ==>
          Opened(state[k].scope) in changes)
    && (forall k :: 0 <= k < |before| && before[k].active && !IsDegraded(state, before[k].scope) ==>
          Resolved(before[k].scope) in changes)
    && (forall i, k :: 0 <= i < k < |changes| ==> changes[i] != changes[k])
  }

  /** The windows are those of the degraded scopes and no others. */
  predicate Matches(windows: seq<Window>, state: seq<Health>) {
    && OneActiveEach(windows)
    && (forall k :: 0 <= k < |windows| && windows[k].active ==> IsDegraded(state, windows[k].scope))
    && (forall k :: 0 <= k < |state| && Degraded(state[k]) ==> HasActive(windows, state[k].scope))
  }

  /** Rows are kept: resolved windows stay as they are, the others keep when they were detected,
      and those no longer active carry the time they were resolved. */
  predicate HistoryKept(before: seq<Window>, after: seq<Window>, now: Time) {
    && |before| <= |after|
    && (forall k :: 0 <= k < |before| ==>
          && after[k].scope == before[k].scope && after[k].detectedAt == before[k].detectedAt
          && (!before[k].active ==> after[k] == before[k])
          && (before[k].active && !after[k].active ==> after[k].resolvedAt == Some(now))
          && (before[k].active && after[k].active ==> after[k].resolvedAt == before[k].resolvedAt))
    && (forall k :: |before| <= k < |after| ==> after[k].active && after[k].detectedAt == now)
  }

  class WindowTable {
    var windows: seq<Window>

    constructor ()
      ensures windows == []
    {
      windows := [];
    }

    /** The row of the active window of each scope. */
    method OpenWindows() returns (open: map<Scope, nat>)
      requires OneActiveEach(windows)
      ensures Indexes(windows, open)
    {
      open := map[];
      var k := 0;
      while k < |windows|
        invariant 0 <= k <= |windows|
        invariant forall s :: s in open ==> ActiveAt(windows, s, open[s])
        invariant forall i :: 0 <= i < k && windows[i].active ==> windows[i].scope in open
      {
        if windows[k].active {
          open := open[windows[k].scope := k];
        }
        k := k + 1;
      }
    }

    /** Open a window for each newly degraded scope and refresh the ones still degraded. */
    method OpenNew(state: seq<Health>, open: map<Scope, nat>, now: Time)
      returns (degraded: set<Scope>, changes: seq<Change>)
      requires OneHealthEach(state) && Indexes(windows, open)
      modifies this
      ensures Progress(old(windows), windows, open, state, |state|, degraded, changes, now)
    {
      degraded, changes := {}, [];
      NoProgress(windows, open, state, now);
      var i := 0;
      while i < |state|
        invariant 0 <= i <= |state|
        invariant Progress(old(windows), windows, open, state, i, degraded, changes, now)
      {
        var h := state[i];
        if Degraded(h) {
          if h.scope in open {
            var row := open[h.scope];
            RefreshProgress(old(windows), windows, open, state, i, degraded, changes, now);
            windows := windows[row := Refreshed(windows[row], h)];
          } else {
            OpenProgress(old(windows), windows, open, state, i, degraded, changes, now);
            windows := windows + [OpenedWindow(h, now)];
            changes := changes + [Opened(h.scope)];
          }
          degraded := degraded + {h.scope};
        } else {
          SkipProgress(old(windows), windows, open, state, i, degraded, changes, now);
        }
        i := i + 1;
      }
    }

    /** Close the windows of the scopes that recovered. */
    method ResolveRecovered(rows: nat, degraded: set<Scope>, now: Time) returns (changes: seq<Change>)
      requires rows <= |windows|
      requires OneActiveEach(windows)
      modifies this
      ensures |windows| == |old(windows)|
      ensures forall k :: 0 <= k < |windows| ==> windows[k] == AfterResolving(old(windows), k, rows, degraded, now)
      ensures forall i :: 0 <= i < |changes| ==>
                changes[i].Resolved? && RecoversBelow(old(windows), rows, degraded, changes[i].scope)
      ensures forall k :: 0 <= k < rows && Recovers(old(windows), k, degraded) ==> Resolved(old(windows)[k].scope) in changes
      ensures forall i, k :: 0 <= i < k < |changes| ==> changes[i] != changes[k]
    {
      changes := [];
      var k := 0;
      while k < rows
        invariant 0 <= k <= rows && |windows| == |old(windows)|
        invariant forall i :: 0 <= i < |windows| ==> windows[i] == AfterResolving(old(windows), i, k, degraded, now)
        invariant forall i :: 0 <= i < |changes| ==>
                    changes[i].Resolved? && RecoversBelow(old(windows), k, degraded, changes[i].scope)
        invariant forall r :: 0 <= r < k && Recovers(old(windows), r, degraded) ==>
                    Resolved(old(windows)[r].scope) in changes
        invariant forall i, j :: 0 <= i < j < |changes| ==> changes[i] != changes[j]
      {
        BelowGrows(old(windows), k, degraded);
        if windows[k].active && windows[k].scope !in degraded {
          assert Recovers(old(windows), k, degraded);
          changes := changes + [Resolved(windows[k].scope)];
          windows := windows[k := windows[k].(active := false, resolvedAt := Some(now))];
        }
        k := k + 1;
      }
    }

    /** Afterwards there is exactly one active window for each degraded scope and none elsewhere,
        and the report names exactly the scopes whose state changed. */
    method ReconcileWindows(state: seq<Health>, now: Time) returns (changes: seq<Change>)
      requires OneActiveEach(windows) && OneHealthEach(state)
      modifies this
      ensures Matches(windows, state)
      ensures ReportsDifference(changes, old(windows), state)
      ensures HistoryKept(old(windows), windows, now)
      ensures ShowsHealth(windows, state)
    {
      ghost var before := windows;
      var open := OpenWindows();
      var rows := |windows|;
      var degraded, openings := OpenNew(state, open, now);
      ghost var grown := windows;
      assert state[..|state|] == state;
      GrownKeepsOneEach(before, grown, degraded, openings, now);
      var resolved := ResolveRecovered(rows, degraded, now);
      changes := openings + resolved;
      AfterMatches(before, grown, windows, state, degraded, openings, now);
      AfterShows(before, grown, windows, open, state, degraded, openings, now);
      AfterReports(before, grown, state, degraded, openings, resolved, now);
    }

    /** Two reconciliations against one state: whatever the first reports, the second has nothing to
        report. */
    method ReconcileTwice(state: seq<Health>, now: Time, later: Time) returns (changes: seq<Change>, again: seq<Change>)
      requires OneActiveEach(windows) && OneHealthEach(state)
      modifies this
      ensures again == [] && ReportsDifference(changes, old(windows), state)
      ensures Matches(windows, state) && ShowsHealth(windows, state)
    {
      changes := ReconcileWindows(state, now);
      ghost var reconciled := windows;
      again := ReconcileWindows(state, later);
      SecondCallIsSilent(reconciled, state, again);
    }
  }

  predicate Recovers(windows: seq<Window>, k: nat, degraded: set<Scope>) {
    k < |windows| && windows[k].active && windows[k].scope !in degraded
  }

  predicate RecoversBelow(windows: seq<Window>, rows: nat, degraded: set<Scope>, s: Scope) {
    exists k :: 0 <= k < rows && Recovers(windows, k, degraded) && windows[k].scope == s
  }

  lemma BelowGrows(windows: seq<Window>, rows: nat, degraded: set<Scope>)
    ensures forall s :: RecoversBelow(windows, rows, degraded, s) ==> RecoversBelow(windows, rows + 1, degraded, s)
    ensures OneActiveEach(windows) && rows < |windows| && windows[rows].active ==>
              !RecoversBelow(windows, rows, degraded, windows[rows].scope)
  {
  }

  /** The active row of each scope that has one. */
  ghost predicate Indexes(windows: seq<Window>, open: map<Scope, nat>) {
    (forall s :: s in open ==> ActiveAt(windows, s, open[s])) && (forall s :: s in open <==> HasActive(windows, s))
  }

  predicate RefreshedRows(before: seq<Window>, after: seq<Window>, open: map<Scope, nat>, state: seq<Health>, upto: nat)
    requires upto <= |state|
  {
    forall k :: 0 <= k < upto && Degraded(state[k]) && state[k].scope in open ==>
      var row := open[state[k].scope];
      row < |before| && row < |after| && after[row] == Refreshed(before[row], state[k])
  }

  predicate OpensAt(before: seq<Window>, after: seq<Window>, h: Health, now: Time, row: nat) {
    |before| <= row < |after| && after[row] == OpenedWindow(h, now)
  }

  ghost predicate OpenedRows(before: seq<Window>, after: seq<Window>, open: map<Scope, nat>, state: seq<Health>, upto: nat,
                             now: Time)
    requires upto <= |state|
  {
    forall k :: 0 <= k < upto && Degraded(state[k]) && state[k].scope !in open ==>
      exists row :: OpensAt(before, after, state[k], now, row)
  }

  /** The table half way through the health records: what they opened, and what they refreshed. */
  ghost predicate Progress(before: seq<Window>, after: seq<Window>, open: map<Scope, nat>, state: seq<Health>, upto: nat,
                           degraded: set<Scope>, changes: seq<Change>, now: Time)
  {
    && upto <= |state|
    && (forall s :: s in degraded <==> IsDegraded(state[..upto], s))
    && Grown(before, after, degraded, changes, now)
    && (forall s :: s in degraded && s !in open ==> Opened(s) in changes)
    && RefreshedRows(before, after, open, state, upto)
    && OpenedRows(before, after, open, state, upto, now)
    && (forall s :: s in open && s !in degraded ==>
          open[s] < |before| && open[s] < |after| && after[open[s]] == before[open[s]])
  }

  lemma OneMoreDegraded(state: seq<Health>, i: nat)
    requires i < |state|
    ensures forall s :: IsDegraded(state[..i + 1], s) <==>
              IsDegraded(state[..i], s) || (s == state[i].scope && Degraded(state[i]))
    ensures OneHealthEach(state) ==> !IsDegraded(state[..i], state[i].scope)
  {
    forall s
      ensures IsDegraded(state[..i + 1], s) <==> IsDegraded(state[..i], s) || (s == state[i].scope && Degraded(state[i]))
    {
      if IsDegraded(state[..i], s) {
        var k :| 0 <= k < i && state[..i][k].scope == s && Degraded(state[..i][k]);
        assert state[..i + 1][k] == state[k];
      }
      if s == state[i].scope && Degraded(state[i]) { assert state[..i + 1][i] == state[i]; }
    }
  }

  lemma RefreshGrown(before: seq<Window>, after: seq<Window>, degraded: set<Scope>, changes: seq<Change>, row: nat,
                     h: Health, now: Time)
    requires Grown(before, after, degraded, changes, now) && row < |before| && before[row].active
    ensures Grown(before, after[row := Refreshed(after[row], h)], degraded + {h.scope}, changes, now)
  {
    var after' := after[row := Refreshed(after[row], h)];
    forall k | 0 <= k < |changes|
      ensures OpeningAt(before, after', degraded + {h.scope}, changes[k], |before| + k, now)
    {
      assert OpeningAt(before, after, degraded, changes[k], |before| + k, now);
    }
    forall k | 0 <= k < |before| ensures KeptRow(before[k], after'[k]) {
      assert KeptRow(before[k], after[k]);
    }
  }

  lemma RefreshProgress(before: seq<Window>, after: seq<Window>, open: map<Scope, nat>, state: seq<Health>, i: nat,
                        degraded: set<Scope>, changes: seq<Change>, now: Time)
    requires OneHealthEach(state) && i < |state| && Degraded(state[i]) && state[i].scope in open && Indexes(before, open)
    requires Progress(before, after, open, state, i, degraded, changes, now)
    ensures var row := open[state[i].scope];
            row < |after|
            && Progress(before, after[row := Refreshed(after[row], state[i])], open, state, i + 1,
                        degraded + {state[i].scope}, changes, now)
  {
    OneMoreDegraded(state, i);
    var row := open[state[i].scope];
    assert ActiveAt(before, state[i].scope, row);
    var after' := after[row := Refreshed(after[row], state[i])];
    forall k | 0 <= k < i && Degraded(state[k]) && state[k].scope in open ensures open[state[k].scope] != row {
      assert ActiveAt(before, state[k].scope, open[state[k].scope]);
    }
    assert RefreshedRows(before, after', open, state, i + 1);
    OpenedRowsStay(before, after, after', open, state, i, now);
    assert OpenedRows(before, after', open, state, i + 1, now);
    forall s | s in open && s !in degraded + {state[i].scope}
      ensures open[s] < |before| && open[s] < |after'| && after'[open[s]] == before[open[s]]
    {
      assert ActiveAt(before, s, open[s]);
    }
    RefreshGrown(before, after, degraded, changes, row, state[i], now);
  }

  lemma NoProgress(windows: seq<Window>, open: map<Scope, nat>, state: seq<Health>, now: Time)
    requires Indexes(windows, open)
    ensures Progress(windows, windows, open, state, 0, {}, [], now)
  {
    forall s | s in open ensures open[s] < |windows| { assert ActiveAt(windows, s, open[s]); }
  }

  lemma SkipProgress(before: seq<Window>, after: seq<Window>, open: map<Scope, nat>, state: seq<Health>, i: nat,
                     degraded: set<Scope>, changes: seq<Change>, now: Time)
    requires i < |state| && !Degraded(state[i])
    requires Progress(before, after, open, state, i, degraded, changes, now)
    ensures Progress(before, after, open, state, i + 1, degraded, changes, now)
  {
    OneMoreDegraded(state, i);
  }

  lemma OpenProgress(before: seq<Window>, after: seq<Window>, open: map<Scope, nat>, state: seq<Health>, i: nat,
                     degraded: set<Scope>, changes: seq<Change>, now: Time)
    requires OneHealthEach(state) && i < |state| && Degraded(state[i]) && state[i].scope !in open && Indexes(before, open)
    requires Progress(before, after, open, state, i, degraded, changes, now)
    ensures Progress(before, after + [OpenedWindow(state[i], now)], open, state, i + 1,
                     degraded + {state[i].scope}, changes + [Opened(state[i].scope)], now)
  {
    OneMoreDegraded(state, i);
    GrowByOne(before, after, degraded, changes, state[i], now);
    var after' := after + [OpenedWindow(state[i], now)];
    assert RefreshedRows(before, after', open, state, i + 1);
    OpenedRowsStay(before, after, after', open, state, i, now);
    assert OpensAt(before, after', state[i], now, |after|);
    assert OpenedRows(before, after', open, state, i + 1, now);
  }

  lemma OpenedRowsStay(before: seq<Window>, after: seq<Window>, after': seq<Window>, open: map<Scope, nat>,
                       state: seq<Health>, upto: nat, now: Time)
    requires upto <= |state| && OpenedRows(before, after, open, state, upto, now)
    requires |after| <= |after'| && forall r :: |before| <= r < |after| ==> after'[r] == after[r]
    ensures OpenedRows(before, after', open, state, upto, now)
  {
    forall k | 0 <= k < upto && Degraded(state[k]) && state[k].scope !in open
      ensures exists row :: OpensAt(before, after', state[k], now, row)
    {
      var row: nat :| OpensAt(before, after, state[k], now, row);
      assert OpensAt(before, after', state[k], now, row);
    }
  }

  /** An active window that carries what this check found out about its scope. */
  predicate Shows(windows: seq<Window>, h: Health, row: nat) {
    ActiveAt(windows, h.scope, row)
    && Refreshed(windows[row], h) == windows[row]
  }

  ghost predicate ShowsHealth(windows: seq<Window>, state: seq<Health>) {
    forall k :: 0 <= k < |state| && Degraded(state[k]) ==> exists row :: Shows(windows, state[k], row)
  }

  lemma AfterShows(before: seq<Window>, grown: seq<Window>, after: seq<Window>, open: map<Scope, nat>, state: seq<Health>,
                   degraded: set<Scope>, openings: seq<Change>, now: Time)
    requires Indexes(before, open) && Progress(before, grown, open, state, |state|, degraded, openings, now)
    requires |after| == |grown| && forall s :: s in degraded <==> IsDegraded(state, s)
    requires forall k :: 0 <= k < |after| ==> after[k] == AfterResolving(grown, k, |before|, degraded, now)
    ensures ShowsHealth(after, state)
  {
    forall k | 0 <= k < |state| && Degraded(state[k]) ensures exists row :: Shows(after, state[k], row) {
      var h := state[k];
      assert IsDegraded(state, h.scope);
      if h.scope in open {
        assert ActiveAt(before, h.scope, open[h.scope]);
        assert Shows(after, h, open[h.scope]);
      } else {
        var row: nat :| OpensAt(before, grown, h, now, row);
        assert Shows(after, h, row);
      }
    }
  }

  function AfterResolving(windows: seq<Window>, k: nat, rows: nat, degraded: set<Scope>, now: Time): Window
    requires k < |windows|
  {
    if k < rows && Recovers(windows, k, degraded)
    then windows[k].(active := false, resolvedAt := Some(now)) else windows[k]
  }

  predicate KeptRow(w: Window, v: Window) {
    && v.scope == w.scope && v.active == w.active && v.detectedAt == w.detectedAt && v.resolvedAt == w.resolvedAt
    && (!w.active ==> v == w)
  }

  /** The change reports the opening of this row. */
  predicate OpeningAt(before: seq<Window>, after: seq<Window>, degraded: set<Scope>, change: Change, row: nat, now: Time) {
    && row < |after| && change == Opened(after[row].scope)
    && after[row].active && after[row].detectedAt == now
    && after[row].scope in degraded && !HasActive(before, after[row].scope)
  }

  /** The table after windows were opened for some of the degraded scopes: earlier rows at most
      refreshed, new rows in the order of the report. */
  predicate Grown(before: seq<Window>, after: seq<Window>, degraded: set<Scope>, changes: seq<Change>, now: Time) {
    && |after| == |before| + |changes|
    && (forall k :: 0 <= k < |before| ==> KeptRow(before[k], after[k]))
    && (forall k :: 0 <= k < |changes| ==> OpeningAt(before, after, degraded, changes[k], |before| + k, now))
    && (forall i, k :: 0 <= i < k < |changes| ==> changes[i] != changes[k])
  }

  lemma GrowByOne(before: seq<Window>, after: seq<Window>, degraded: set<Scope>, changes: seq<Change>, h: Health, now: Time)
    requires Grown(before, after, degraded, changes, now)
    requires h.scope !in degraded && !HasActive(before, h.scope)
    ensures Grown(before, after + [OpenedWindow(h, now)], degraded + {h.scope}, changes + [Opened(h.scope)], now)
  {
    var after' := after + [OpenedWindow(h, now)];
    forall k | 0 <= k < |changes|
      ensures changes[k] != Opened(h.scope)
      ensures OpeningAt(before, after', degraded + {h.scope}, changes[k], |before| + k, now)
    {
      assert OpeningAt(before, after, degraded, changes[k], |before| + k, now);
    }
    forall k | 0 <= k < |before| ensures KeptRow(before[k], after'[k]) {
      assert KeptRow(before[k], after[k]);
    }
  }

  lemma GrownKeepsOneEach(before: seq<Window>, after: seq<Window>, degraded: set<Scope>, changes: seq<Change>, now: Time)
    requires OneActiveEach(before) && Grown(before, after, degraded, changes, now)
    ensures OneActiveEach(after)
  {
    forall i, k | 0 <= i < k < |after| && after[i].active && after[k].active ensures after[i].scope != after[k].scope {
      if k < |before| {
        assert before[i].scope != before[k].scope;
      } else {
        var c := k - |before|;
        assert changes[c] == Opened(after[|before| + c].scope);
        if i < |before| {
          assert ActiveAt(before, after[i].scope, i);
        } else {
          assert changes[i - |before|] == Opened(after[|before| + (i - |before|)].scope);
          assert changes[i - |before|] != changes[c];
        }
      }
    }
  }

  /** The table after a whole reconciliation, seen from the grown one. */
  ghost predicate Reconciled(before: seq<Window>, grown: seq<Window>, after: seq<Window>, state: seq<Health>,
                             degraded: set<Scope>, openings: seq<Change>, now: Time)
  {
    && OneActiveEach(before) && OneActiveEach(grown) && Grown(before, grown, degraded, openings, now)
    && (forall s :: s in degraded <==> IsDegraded(state, s))
    && (forall s :: s in degraded && !HasActive(before, s) ==> Opened(s) in openings)
    && |after| == |grown|
    && (forall k :: 0 <= k < |after| ==> after[k] == AfterResolving(grown, k, |before|, degraded, now))
  }

  lemma AfterMatches(before: seq<Window>, grown: seq<Window>, after: seq<Window>, state: seq<Health>,
                     degraded: set<Scope>, openings: seq<Change>, now: Time)
    requires Reconciled(before, grown, after, state, degraded, openings, now)
    ensures Matches(after, state) && HistoryKept(before, after, now)
  {
    forall k | 0 <= k < |after| && after[k].active ensures IsDegraded(state, after[k].scope) {
      if k >= |before| { assert openings[k - |before|] == Opened(grown[|before| + (k - |before|)].scope); }
    }
    forall k | 0 <= k < |state| && Degraded(state[k]) ensures HasActive(after, state[k].scope) {
      assert IsDegraded(state, state[k].scope);
      StaysActive(before, grown, after, state, degraded, openings, now, state[k].scope);
    }
    forall k | |before| <= k < |after| ensures after[k].active && after[k].detectedAt == now {
      assert openings[k - |before|] == Opened(grown[|before| + (k - |before|)].scope);
    }
  }

  lemma StaysActive(before: seq<Window>, grown: seq<Window>, after: seq<Window>, state: seq<Health>,
                    degraded: set<Scope>, openings: seq<Change>, now: Time, s: Scope)
    requires Reconciled(before, grown, after, state, degraded, openings, now) && s in degraded
    ensures HasActive(after, s)
  {
    if HasActive(before, s) {
      var k :| 0 <= k < |before| && ActiveAt(before, s, k);
      assert ActiveAt(after, s, k);
    } else {
      var c :| 0 <= c < |openings| && openings[c] == Opened(s);
      assert ActiveAt(after, s, |before| + c);
    }
  }

  lemma AfterReports(before: seq<Window>, grown: seq<Window>, state: seq<Health>, degraded: set<Scope>,
                     openings: seq<Change>, resolved: seq<Change>, now: Time)
    requires OneActiveEach(before) && Grown(before, grown, degraded, openings, now)
    requires forall s :: s in degraded <==> IsDegraded(state, s)
    requires forall s :: s in degraded && !HasActive(before, s) ==> Opened(s) in openings
    requires forall i :: 0 <= i < |resolved| ==>
               resolved[i].Resolved? && RecoversBelow(grown, |before|, degraded, resolved[i].scope)
    requires forall k :: 0 <= k < |before| && Recovers(grown, k, degraded) ==> Resolved(grown[k].scope) in resolved
    requires forall i, k :: 0 <= i < k < |resolved| ==> resolved[i] != resolved[k]
    ensures ReportsDifference(openings + resolved, before, state)
  {
    var changes := openings + resolved;
    forall i | 0 <= i < |changes|
      ensures match changes[i]
              case Opened(s) => IsDegraded(state, s) && !HasActive(before, s)
              case Resolved(s) => HasActive(before, s) && !IsDegraded(state, s)
    {
      if i < |openings| {
        assert changes[i] == openings[i];
      } else {
        assert changes[i] == resolved[i - |openings|];
        var k :| 0 <= k < |before| && Recovers(grown, k, degraded) && grown[k].scope == changes[i].scope;
        assert ActiveAt(before, grown[k].scope, k);
      }
    }
    forall k | 0 <= k < |state| && Degraded(state[k]) && !HasActive(before, state[k].scope)
      ensures Opened(state[k].scope) in changes
    {
      assert IsDegraded(state, state[k].scope);
      assert Opened(state[k].scope) in openings;
    }
    forall k | 0 <= k < |before| && before[k].active && !IsDegraded(state, before[k].scope)
      ensures Resolved(before[k].scope) in changes
    {
      assert Recovers(grown, k, degraded);
      assert Resolved(grown[k].scope) in resolved;
    }
    forall i, k | 0 <= i < k < |changes| ensures changes[i] != changes[k] {
      if i < |openings| { assert changes[i] == openings[i]; } else { assert changes[i] == resolved[i - |openings|]; }
      if k < |openings| { assert changes[k] == openings[k]; } else { assert changes[k] == resolved[k - |openings|]; }
    }
  }

  lemma DegradedHasActive(windows: seq<Window>, state: seq<Health>, s: Scope)
    requires Matches(windows, state)
    ensures IsDegraded(state, s) <==> HasActive(windows, s)
  {
    if IsDegraded(state, s) {
      var k :| 0 <= k < |state| && state[k].scope == s && Degraded(state[k]);
      assert HasActive(windows, state[k].scope);
    }
    if HasActive(windows, s) {
      var k :| 0 <= k < |windows| && ActiveAt(windows, s, k);
      assert IsDegraded(state, windows[k].scope);
    }
  }

  /** A second reconciliation against the same state has nothing to report. */
  lemma SecondCallIsSilent(windows: seq<Window>, state: seq<Health>, changes: seq<Change>)
    requires Matches(windows, state) && ReportsDifference(changes, windows, state)
    ensures changes == []
  {
    if changes != [] { DegradedHasActive(windows, state, changes[0].scope); }
  }
}
