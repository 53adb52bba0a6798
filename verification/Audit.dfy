/** The audit trail: an append-only log in which every entry carries the hash of the one before.
    SHA-256 is taken to be collision free and never to yield the genesis value, so a hash is its
    input. */
module Audit {
  import opened Domain

  const SUMMARY_LIMIT: nat := 240

  /** Who did what to which entity, and when. Nothing here is changed when it is stored. */
  datatype Facts = Facts(occurredAt: Time, actor: string, actorName: string, eventType: string,
                         entityType: string, entityId: string, payload: string)

  datatype Body = Body(sequence: int, facts: Facts, summary: string, previous: Hash)

  datatype Hash = Genesis | Digest(body: Body)

  datatype Entry = Entry(sequence: int, facts: Facts, summary: string, previousHash: Hash, entryHash: Hash)

  datatype Report = Intact(entries: nat, head: Hash) | Broken(entries: nat, at: int)

  function Stored(summary: string): string {
    if |summary| <= SUMMARY_LIMIT then summary else summary[..SUMMARY_LIMIT]
  }

  /** The hash the next entry has to carry. */
  function Head(log: seq<Entry>): Hash {
    if log == [] then Genesis else log[|log| - 1].entryHash
  }

  function NextSequence(log: seq<Entry>): int {
    if log == [] then 1 else log[|log| - 1].sequence + 1
  }

  /** The entry hashes the summary it was given and stores the part of it that fits the column. */
  function NewEntry(log: seq<Entry>, facts: Facts, summary: string): Entry {
    Entry(NextSequence(log), facts, Stored(summary), Head(log),
          Digest(Body(NextSequence(log), facts, summary, Head(log))))
  }

  /** An entry fits its place: it names the hash before it, and its own hash reproduces. */
  predicate Links(e: Entry, previous: Hash) {
    e.previousHash == previous && Digest(Body(e.sequence, e.facts, e.summary, previous)) == e.entryHash
  }

  predicate LinksAt(log: seq<Entry>, i: nat)
    requires i < |log|
  {
    Links(log[i], Head(log[..i]))
  }

  predicate Chained(log: seq<Entry>) {
    forall i :: 0 <= i < |log| ==> LinksAt(log, i)
  }

  predicate FirstBreak(log: seq<Entry>, i: nat) {
    i < |log| && !LinksAt(log, i) && forall k :: 0 <= k < i ==> LinksAt(log, k)
  }

  class AuditTrail {
    var log: seq<Entry>

    constructor ()
      ensures log == []
    {
      log := [];
    }

    method Record(facts: Facts, summary: string) returns (entry: Entry)
      modifies this
      ensures log == old(log) + [entry] && entry == NewEntry(old(log), facts, summary)
    {
      var sequence := if log != [] then log[|log| - 1].sequence + 1 else 1;
      var previous := if log != [] then log[|log| - 1].entryHash else Genesis;
      var body := Body(sequence, facts, summary, previous);
      entry := Entry(sequence, facts, Stored(summary), previous, Digest(body));
      log := log + [entry];
    }

    /** Walk the chain and report the first entry that does not fit. A limit of zero is no limit. */
    method VerifyChain(limit: nat) returns (report: Report)
      ensures var read := if limit == 0 || |log| <= limit then log else log[..limit];
              match report
              case Intact(n, head) => Chained(read) && n == |read| && head == Head(read)
              case Broken(n, at) => n == |read| && exists i: nat :: FirstBreak(read, i) && at == read[i].sequence
    {
      var entries := if limit == 0 || |log| <= limit then log else log[..limit];
      var previous := Genesis;
      var i := 0;
      while i < |entries|
        invariant 0 <= i <= |entries|
        invariant previous == Head(entries[..i])
        invariant forall k :: 0 <= k < i ==> LinksAt(entries, k)
      {
        var entry := entries[i];
        var body := Body(entry.sequence, entry.facts, entry.summary, previous);
        if entry.previousHash != previous || Digest(body) != entry.entryHash {
          assert FirstBreak(entries, i);
          return Broken(|entries|, entry.sequence);
        }
        previous := entry.entryHash;
        assert entries[..i + 1][i] == entry;
        i := i + 1;
      }
      assert entries[..i] == entries;
      report := Intact(|entries|, previous);
    }
  }

  // ------------------------------------------------------------------- what records build

  datatype Note = Note(facts: Facts, summary: string)

  /** The log after a sequence of records. */
  function Recorded(notes: seq<Note>): seq<Entry> {
    if notes == [] then []
    else
      var n := |notes| - 1;
      var before := Recorded(notes[..n]);
      before + [NewEntry(before, notes[n].facts, notes[n].summary)]
  }

  lemma {:induction false} RecordedPrefix(notes: seq<Note>, n: nat)
    requires n <= |notes|
    ensures |Recorded(notes)| == |notes|
    ensures Recorded(notes)[..n] == Recorded(notes[..n])
  {
    if n == |notes| {
      assert notes[..n] == notes;
      if notes != [] { RecordedPrefix(notes[..n - 1], n - 1); }
    } else {
      var m := |notes| - 1;
      RecordedPrefix(notes[..m], n);
      assert notes[..m][..n] == notes[..n];
      assert Recorded(notes)[..n] == Recorded(notes[..m])[..n];
    }
  }

  lemma {:induction false} SequencesCount(notes: seq<Note>, i: nat)
    requires i < |notes|
    ensures |Recorded(notes)| == |notes| && Recorded(notes)[i].sequence == i + 1
    ensures Recorded(notes)[i] == NewEntry(Recorded(notes[..i]), notes[i].facts, notes[i].summary)
  {
    RecordedPrefix(notes, i);
    RecordedPrefix(notes, i + 1);
    assert notes[..i + 1][..i] == notes[..i];
    assert Recorded(notes)[i] == Recorded(notes)[..i + 1][i];
    RecordedPrefix(notes[..i], 0);
    if i > 0 { SequencesCount(notes[..i], i - 1); }
  }

  predicate Fits(note: Note) { |note.summary| <= SUMMARY_LIMIT }

  /** Entry i of a recorded log fits exactly when its summary fitted the column. */
  lemma RecordedLinksIff(notes: seq<Note>, i: nat)
    requires i < |notes|
    ensures |Recorded(notes)| == |notes| && Recorded(notes)[i].sequence == i + 1
    ensures LinksAt(Recorded(notes), i) <==> Fits(notes[i])
  {
    SequencesCount(notes, i);
    RecordedPrefix(notes, i);
    if !Fits(notes[i]) {
      assert |Stored(notes[i].summary)| != |notes[i].summary|;
    }
  }

  predicate CutFirst(notes: seq<Note>, i: nat) {
    i < |notes| && !Fits(notes[i]) && forall k :: 0 <= k < i ==> Fits(notes[k])
  }

  /** A log that was only ever recorded to verifies exactly when no summary was cut short, and
      otherwise breaks at the first one that was. */
  lemma RecordedVerifiesIff(notes: seq<Note>)
    ensures Chained(Recorded(notes)) <==> forall i :: 0 <= i < |notes| ==> Fits(notes[i])
    ensures forall i: nat :: FirstBreak(Recorded(notes), i) <==> CutFirst(notes, i)
  {
    var log := Recorded(notes);
    RecordedPrefix(notes, 0);
    forall i | 0 <= i < |notes| ensures LinksAt(log, i) <==> Fits(notes[i]) { RecordedLinksIff(notes, i); }
    FitsDecide(log, notes);
  }

  lemma FitsDecide(log: seq<Entry>, notes: seq<Note>)
    requires |log| == |notes| && forall i :: 0 <= i < |notes| ==> (LinksAt(log, i) <==> Fits(notes[i]))
    ensures Chained(log) <==> forall i :: 0 <= i < |notes| ==> Fits(notes[i])
    ensures forall i: nat :: FirstBreak(log, i) <==> CutFirst(notes, i)
  {
  }

  /** One summary a character too long, and the log does not verify. */
  lemma LongSummaryBreaks(facts: Facts)
    ensures var summary := seq(SUMMARY_LIMIT + 1, _ => 'x');
            var log := Recorded([Note(facts, summary)]);
            !Chained(log) && FirstBreak(log, 0)
  {
    var notes := [Note(facts, seq(SUMMARY_LIMIT + 1, _ => 'x'))];
    RecordedVerifiesIff(notes);
    assert !Fits(notes[0]) && CutFirst(notes, 0);
  }

  // --------------------------------------------------------------------- tamper evidence

  /** Cutting entries off the end goes unnoticed by the chain itself: every prefix verifies. */
  lemma PrefixVerifies(log: seq<Entry>, n: nat)
    requires Chained(log) && n <= |log|
    ensures Chained(log[..n])
  {
    forall i | 0 <= i < n ensures LinksAt(log[..n], i) {
      assert LinksAt(log, i);
      assert log[..n][..i] == log[..i];
    }
  }

  /** The head hash determines the whole log: two verifying logs with the same head are equal. */
  lemma {:induction false} HeadDeterminesLog(a: seq<Entry>, b: seq<Entry>)
    requires Chained(a) && Chained(b) && Head(a) == Head(b)
    ensures a == b
    decreases |a|
  {
    NeverGenesis(a);
    NeverGenesis(b);
    if a != [] {
      var i, k := |a| - 1, |b| - 1;
      assert LinksAt(a, i) && LinksAt(b, k);
      PrefixVerifies(a, i);
      PrefixVerifies(b, k);
      HeadDeterminesLog(a[..i], b[..k]);
      assert a == a[..i] + [a[i]] && b == b[..k] + [b[k]];
    }
  }

  lemma NeverGenesis(log: seq<Entry>)
    requires Chained(log)
    ensures Head(log) == Genesis <==> log == []
  {
    if log != [] { assert LinksAt(log, |log| - 1); }
  }

  /** Editing one entry of a verifying log is noticed there, or at the next entry; only an edit of
      the last entry that recomputes its hash passes, and then the head is a different one. */
  lemma EditIsNoticed(log: seq<Entry>, i: nat, e: Entry)
    requires Chained(log) && i < |log| && e != log[i]
    ensures var edited := log[i := e];
            if !Links(e, Head(log[..i])) then FirstBreak(edited, i)
            else if i + 1 < |log| then FirstBreak(edited, i + 1)
            else Chained(edited) && Head(edited) != Head(log)
  {
    var edited := log[i := e];
    assert LinksAt(log, i);
    assert edited[..i] == log[..i];
    forall k | 0 <= k < i ensures LinksAt(edited, k) {
      assert LinksAt(log, k);
      assert edited[..k] == log[..k];
    }
    if Links(e, Head(log[..i])) {
      assert LinksAt(edited, i);
      assert e.entryHash != log[i].entryHash;
      if i + 1 < |log| {
        assert LinksAt(log, i + 1);
        assert log[..i + 1][i] == log[i] && edited[..i + 1][i] == e;
      }
    }
  }
}
