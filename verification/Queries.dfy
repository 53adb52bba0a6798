/** The two queries that feed the loop: the journeys that are due and the events nobody works on.
    Both filter a table, order the rows and cut the list. */
module Queries {
  import opened Domain
  import opened Rows
  import opened Journey
  import opened Orchestrator
  import opened Safety
  import opened Operations

  /** A selected row and the value the query orders by. */
  datatype Row = Row(id: nat, rank: int)

  function InsertRow(r: Row, rows: seq<Row>): seq<Row> {
    if rows == [] || r.rank <= rows[0].rank then [r] + rows else [rows[0]] + InsertRow(r, rows[1..])
  }

  /** Stable ascending order. */
  function Ordered(rows: seq<Row>): seq<Row> {
    if rows == [] then [] else InsertRow(rows[0], Ordered(rows[1..]))
  }

  function First(rows: seq<Row>, limit: nat): seq<Row> {
    if |rows| <= limit then rows else rows[..limit]
  }

  function Ids(rows: seq<Row>): (ids: seq<nat>)
    ensures |ids| == |rows| && forall i :: 0 <= i < |rows| ==> ids[i] == rows[i].id
  {
    if rows == [] then [] else [rows[0].id] + Ids(rows[1..])
  }

  predicate IsDue(j: Journey, now: Time) {
    Open(j) && j.nextActionAt.Some? && j.nextActionAt.value <= now
  }

  function DueRows(journeys: seq<Journey>, now: Time, from: nat): seq<Row>
    decreases |journeys| - from
  {
    if from >= |journeys| then []
    else
      var rest := DueRows(journeys, now, from + 1);
      if IsDue(journeys[from], now) then [Row(from, journeys[from].nextActionAt.value)] + rest else rest
  }

  /** The journeys to advance: those that have waited longest first. */
  function DueJourneys(w: World, now: Time, limit: nat): seq<JourneyId> {
    Ids(First(Ordered(DueRows(w.journeys, now, 0)), limit))
  }

  function UnclaimedRows(w: World, from: nat): seq<Row>
    decreases |w.events| - from
  {
    if from >= |w.events| then []
    else
      var rest := UnclaimedRows(w, from + 1);
      if Unclaimed(w, from) then [Row(from, 0 - w.events[from].amount)] + rest else rest
  }

  /** The events to look at: the largest amounts first. */
  function UnclaimedEvents(w: World, limit: nat): seq<EventId> {
    Ids(First(Ordered(UnclaimedRows(w, 0)), limit))
  }

  // --------------------------------------------------------------------- what they select

  predicate Ascending(rows: seq<Row>) {
    forall i, k :: 0 <= i < k < |rows| ==> rows[i].rank <= rows[k].rank
  }

  predicate DistinctIds(rows: seq<Row>) {
    forall i, k :: 0 <= i < k < |rows| ==> rows[i].id != rows[k].id
  }

  lemma {:induction false} InsertMembers(r: Row, rows: seq<Row>)
    ensures forall x :: x in InsertRow(r, rows) <==> x == r || x in rows
    ensures |InsertRow(r, rows)| == |rows| + 1
  {
    if rows != [] && r.rank > rows[0].rank {
      assert rows == [rows[0]] + rows[1..];
      InsertMembers(r, rows[1..]);
    }
  }

  lemma {:induction false} InsertOrders(r: Row, rows: seq<Row>)
    requires Ascending(rows)
    ensures Ascending(InsertRow(r, rows))
  {
    if rows != [] && r.rank > rows[0].rank {
      InsertOrders(r, rows[1..]);
      InsertMembers(r, rows[1..]);
      var t := InsertRow(r, rows[1..]);
      forall i | 0 <= i < |t| ensures rows[0].rank <= t[i].rank { assert t[i] in t; }
    }
  }

  lemma {:induction false} InsertDistinct(r: Row, rows: seq<Row>)
    requires DistinctIds(rows) && forall x :: x in rows ==> x.id != r.id
    ensures DistinctIds(InsertRow(r, rows))
  {
    if rows == [] || r.rank <= rows[0].rank {
      forall i | 0 <= i < |rows| ensures rows[i].id != r.id { assert rows[i] in rows; }
    } else {
      InsertDistinct(r, rows[1..]);
      InsertMembers(r, rows[1..]);
      var t := InsertRow(r, rows[1..]);
      forall i | 0 <= i < |t| ensures t[i].id != rows[0].id { assert t[i] in t; }
    }
  }

  /** Ordering is a permutation into ascending rank. */
  lemma {:induction false} OrderedKeeps(rows: seq<Row>)
    requires DistinctIds(rows)
    ensures Ascending(Ordered(rows)) && DistinctIds(Ordered(rows))
    ensures forall x :: x in Ordered(rows) <==> x in rows
    ensures |Ordered(rows)| == |rows|
  {
    if rows != [] {
      var rest := rows[1..];
      assert rows == [rows[0]] + rest;
      OrderedKeeps(rest);
      InsertOrders(rows[0], Ordered(rest));
      InsertMembers(rows[0], Ordered(rest));
      forall x | x in Ordered(rest) ensures x.id != rows[0].id { assert x in rest; }
      InsertDistinct(rows[0], Ordered(rest));
    }
  }

  /** What a cut ordered list promises: its rows come from the list, none that is left out ranks
      before one that is taken, and it is cut only when the limit is reached. */
  predicate Selects(taken: seq<Row>, rows: seq<Row>, limit: nat) {
    && DistinctIds(taken) && Ascending(taken)
    && (forall x :: x in taken ==> x in rows)
    && (forall x, y :: x in rows && x !in taken && y in taken ==> y.rank <= x.rank)
    && |taken| == (if |rows| <= limit then |rows| else limit)
  }

  lemma FirstSelects(rows: seq<Row>, limit: nat)
    requires DistinctIds(rows)
    ensures Selects(First(Ordered(rows), limit), rows, limit)
  {
    OrderedKeeps(rows);
    var sorted, taken := Ordered(rows), First(Ordered(rows), limit);
    forall x, y | x in rows && x !in taken && y in taken ensures y.rank <= x.rank {
      assert x in sorted;
      var i :| 0 <= i < |sorted| && sorted[i] == x;
      var k :| 0 <= k < |taken| && taken[k] == y;
      assert sorted[k] == y;
      PrefixTakes(sorted, limit, i);
    }
  }

  lemma PrefixTakes(rows: seq<Row>, limit: nat, i: nat)
    requires i < |rows|
    ensures i < |First(rows, limit)| ==> rows[i] in First(rows, limit)
  {
    if i < |First(rows, limit)| { assert First(rows, limit)[i] == rows[i]; }
  }

  lemma {:induction false} DueRowsAre(journeys: seq<Journey>, now: Time, from: nat)
    ensures var rows := DueRows(journeys, now, from);
            && DistinctIds(rows)
            && (forall x :: x in rows ==> from <= x.id < |journeys| && IsDue(journeys[x.id], now)
                                          && x.rank == journeys[x.id].nextActionAt.value)
            && (forall id :: from <= id < |journeys| && IsDue(journeys[id], now) ==>
                  Row(id, journeys[id].nextActionAt.value) in rows)
    decreases |journeys| - from
  {
    if from < |journeys| {
      DueRowsAre(journeys, now, from + 1);
      var rest := DueRows(journeys, now, from + 1);
      forall i | 0 <= i < |rest| ensures rest[i].id > from { assert rest[i] in rest; }
    }
  }

  lemma {:induction false} UnclaimedRowsAre(w: World, from: nat)
    ensures var rows := UnclaimedRows(w, from);
            && DistinctIds(rows)
            && (forall x :: x in rows ==> from <= x.id < |w.events| && Unclaimed(w, x.id)
                                          && x.rank == 0 - w.events[x.id].amount)
            && (forall id :: from <= id < |w.events| && Unclaimed(w, id) ==> Row(id, 0 - w.events[id].amount) in rows)
    decreases |w.events| - from
  {
    if from < |w.events| {
      UnclaimedRowsAre(w, from + 1);
      var rest := UnclaimedRows(w, from + 1);
      forall i | 0 <= i < |rest| ensures rest[i].id > from { assert rest[i] in rest; }
    }
  }

  /** The batch of a tick: distinct open journeys that are due, and no due journey that is left out
      has waited longer than one that is taken. */
  lemma DueJourneysAreABatch(w: World, now: Time, limit: nat)
    ensures var ids := DueJourneys(w, now, limit);
            && OpenBatch(w, ids) && |ids| <= limit
            && (forall i :: 0 <= i < |ids| ==> IsDue(w.journeys[ids[i]], now))
            && (forall id :: 0 <= id < |w.journeys| && IsDue(w.journeys[id], now) && id !in ids ==>
                  |ids| == limit && forall i :: 0 <= i < |ids| ==>
                    w.journeys[ids[i]].nextActionAt.value <= w.journeys[id].nextActionAt.value)
  {
    DueRowsAre(w.journeys, now, 0);
    var rows := DueRows(w.journeys, now, 0);
    FirstSelects(rows, limit);
    var taken := First(Ordered(rows), limit);
    var ids := DueJourneys(w, now, limit);
    forall i | 0 <= i < |ids|
      ensures ids[i] < |w.journeys| && IsDue(w.journeys[ids[i]], now)
      ensures taken[i].rank == w.journeys[ids[i]].nextActionAt.value
    {
      assert taken[i] in taken;
    }
    forall id | 0 <= id < |w.journeys| && IsDue(w.journeys[id], now) && id !in ids
      ensures |ids| == limit
      ensures forall i :: 0 <= i < |ids| ==> w.journeys[ids[i]].nextActionAt.value <= w.journeys[id].nextActionAt.value
    {
      LeftOut(taken, rows, limit, Row(id, w.journeys[id].nextActionAt.value));
    }
  }

  lemma LeftOut(taken: seq<Row>, rows: seq<Row>, limit: nat, x: Row)
    requires Selects(taken, rows, limit) && DistinctIds(rows) && x in rows && x.id !in Ids(taken)
    ensures |taken| == limit && forall i :: 0 <= i < |taken| ==> taken[i].rank <= x.rank
  {
    TakenHasId(taken, x);
    forall i | 0 <= i < |taken| ensures taken[i].rank <= x.rank { assert taken[i] in taken; }
    if |rows| <= limit { AllTaken(taken, rows, x); }
  }

  lemma TakenHasId(taken: seq<Row>, x: Row)
    ensures x in taken ==> x.id in Ids(taken)
  {
    if x in taken {
      var i :| 0 <= i < |taken| && taken[i] == x;
      assert Ids(taken)[i] == x.id;
    }
  }

  /** A selection as long as the list leaves nothing out. */
  lemma AllTaken(taken: seq<Row>, rows: seq<Row>, x: Row)
    requires DistinctIds(taken) && DistinctIds(rows) && |taken| == |rows| && x in rows
    requires forall y :: y in taken ==> y in rows
    ensures x in taken
  {
    var a, b := (set y | y in taken), (set y | y in rows);
    SetSize(taken);
    SetSize(rows);
    SameSize(a, b);
    assert x in b;
  }

  lemma {:induction false} SetSize(rows: seq<Row>)
    requires DistinctIds(rows)
    ensures |(set y | y in rows)| == |rows|
  {
    var s := set y | y in rows;
    if rows == [] {
      assert s == {};
    } else {
      var rest := rows[1..];
      assert rows == [rows[0]] + rest;
      SetSize(rest);
      assert s == {rows[0]} + set y | y in rest;
      assert rows[0] !in rest;
    }
  }

  lemma {:induction false} SameSize<T>(a: set<T>, b: set<T>)
    requires a <= b && |a| == |b|
    ensures a == b
  {
    if a != {} {
      var x :| x in a;
      SameSize(a - {x}, b - {x});
      assert a == a - {x} + {x} && b == b - {x} + {x};
    }
  }

  /** The batch of a scan: distinct events at risk that no open journey owns, and no such event
      that is left out is worth more than one that is taken. */
  lemma UnclaimedEventsAreABatch(w: World, limit: nat)
    ensures var ids := UnclaimedEvents(w, limit);
            && FreshBatch(w, ids) && |ids| <= limit
            && (forall i :: 0 <= i < |ids| ==> Unclaimed(w, ids[i]))
            && (forall id :: 0 <= id < |w.events| && Unclaimed(w, id) && id !in ids ==>
                  |ids| == limit && forall i :: 0 <= i < |ids| ==> w.events[ids[i]].amount >= w.events[id].amount)
  {
    UnclaimedRowsAre(w, 0);
    var rows := UnclaimedRows(w, 0);
    FirstSelects(rows, limit);
    var taken := First(Ordered(rows), limit);
    var ids := UnclaimedEvents(w, limit);
    forall i | 0 <= i < |ids|
      ensures ids[i] < |w.events| && Unclaimed(w, ids[i]) && taken[i].rank == 0 - w.events[ids[i]].amount
    {
      assert taken[i] in taken;
    }
    forall id | 0 <= id < |w.events| && Unclaimed(w, id) && id !in ids
      ensures |ids| == limit
      ensures forall i :: 0 <= i < |ids| ==> w.events[ids[i]].amount >= w.events[id].amount
    {
      LeftOut(taken, rows, limit, Row(id, 0 - w.events[id].amount));
    }
  }
}
