/** The in-process key store behind idempotency keys and customer locks: a dictionary with
    expiry times that is purged lazily. */
module KeyStore {
  import opened Domain

  datatype Entry<V> = Entry(value: V, expiresAt: Time)

  type Table<K, V> = map<K, Entry<V>>

  // ------------------------------------------------------- what each operation does

  function Purge<K, V>(t: Table<K, V>, now: Time): Table<K, V> {
    map k | k in t && t[k].expiresAt > now :: t[k]
  }

  function SetIfAbsent<K, V>(t: Table<K, V>, key: K, value: V, ttl: int, now: Time): (Table<K, V>, bool) {
    var kept := Purge(t, now);
    if key in kept then (kept, false) else (kept[key := Entry(value, now + ttl)], true)
  }

  function Get<K, V>(t: Table<K, V>, key: K, now: Time): (Table<K, V>, Option<V>) {
    if key !in t then (t, None)
    else if t[key].expiresAt <= now then (t - {key}, None)
    else (t, Some(t[key].value))
  }

  function Delete<K, V>(t: Table<K, V>, key: K): Table<K, V> {
    t - {key}
  }

  class MemoryKeyStore<K(==), V(==)> {
    var data: Table<K, V>

    constructor ()
      ensures data == map[]
    {
      data := map[];
    }

    /** Drops every expired entry, one key at a time. */
    method PurgeExpired(now: Time)
      modifies this
      ensures data == Purge(old(data), now)
    {
      var expired := set k | k in data && data[k].expiresAt <= now;
      while expired != {}
        invariant expired <= data.Keys
        invariant forall k :: k in expired ==> data[k].expiresAt <= now
        invariant forall k :: k in data ==> k in old(data) && data[k] == old(data)[k]
        invariant forall k :: k in old(data) && (k !in data || k in expired) ==> old(data)[k].expiresAt <= now
        invariant forall k :: k in data && data[k].expiresAt <= now ==> k in expired
        decreases expired
      {
        var key :| key in expired;
        data := data - {key};
        expired := expired - {key};
      }
    }

    method SetKeyIfAbsent(key: K, value: V, ttl: int, now: Time) returns (taken: bool)
      modifies this
      ensures (data, taken) == SetIfAbsent(old(data), key, value, ttl, now)
    {
      PurgeExpired(now);
      if key in data {
        return false;
      }
      data := data[key := Entry(value, now + ttl)];
      taken := true;
    }

    method GetKey(key: K, now: Time) returns (value: Option<V>)
      modifies this
      ensures (data, value) == Get(old(data), key, now)
      ensures value.Some? <==> key in old(data) && old(data)[key].expiresAt > now
      ensures value.Some? ==> data == old(data) && value.value == data[key].value
      ensures value.None? ==> key !in data
      ensures forall k :: k != key ==> (k in data <==> k in old(data)) && (k in data ==> data[k] == old(data)[k])
    {
      if key !in data {
        return None;
      }
      if data[key].expiresAt <= now {
        data := data - {key};
        return None;
      }
      value := Some(data[key].value);
    }

    method DeleteKey(key: K)
      modifies this
      ensures data == Delete(old(data), key)
    {
      data := data - {key};
    }
  }

  // -------------------------------------------- the store as its clients understand it

  /** One call, with the clock reading it was made at. */
  datatype Call<K, V> =
    | SetCall(key: K, value: V, ttl: int, at: Time)
    | GetCall(key: K, at: Time)
    | DeleteCall(key: K, at: Time)

  datatype Answer<V> = Taken(taken: bool) | Found(found: Option<V>) | Done

  /** The entry a key was last given, if it was not deleted since. A set while an earlier
      entry is still live changes nothing. No table and no purging are involved. */
  ghost function LastSet<K, V>(history: seq<Call<K, V>>, key: K): Option<Entry<V>> {
    if history == [] then None
    else
      var before := LastSet(history[..|history| - 1], key);
      var call := history[|history| - 1];
      if call.key != key then before
      else
        match call
        case SetCall(_, value, ttl, at) =>
          if before.Some? && before.value.expiresAt > at then before else Some(Entry(value, at + ttl))
        case GetCall(_, _) => before
        case DeleteCall(_, _) => None
  }

  ghost function LiveAt<K, V>(history: seq<Call<K, V>>, key: K, now: Time): Option<Entry<V>> {
    var last := LastSet(history, key);
    if last.Some? && last.value.expiresAt > now then last else None
  }

  ghost function Expected<K, V>(history: seq<Call<K, V>>, call: Call<K, V>): Answer<V> {
    match call
    case SetCall(key, _, _, at) => Taken(LiveAt(history, key, at).None?)
    case GetCall(key, at) =>
      var live := LiveAt(history, key, at);
      Found(if live.Some? then Some(live.value.value) else None)
    case DeleteCall(_, _) => Done
  }

  function Step<K, V>(t: Table<K, V>, call: Call<K, V>): (Table<K, V>, Answer<V>) {
    match call
    case SetCall(key, value, ttl, at) => var (t', taken) := SetIfAbsent(t, key, value, ttl, at); (t', Taken(taken))
    case GetCall(key, at) => var (t', found) := Get(t, key, at); (t', Found(found))
    case DeleteCall(key, _) => (Delete(t, key), Done)
  }

  /** The table after a history, from empty. */
  function After<K, V>(history: seq<Call<K, V>>): Table<K, V> {
    if history == [] then map[]
    else Step(After(history[..|history| - 1]), history[|history| - 1]).0
  }

  predicate ClockMonotone<K, V>(history: seq<Call<K, V>>) {
    forall i, j :: 0 <= i < j < |history| ==> history[i].at <= history[j].at
  }

  /** The table holds the last entry of every key, except that entries which have expired by
      the latest clock reading may already be gone. */
  ghost predicate Represents<K(!new), V(!new)>(t: Table<K, V>, history: seq<Call<K, V>>, now: Time) {
    forall key ::
      var last := LastSet(history, key);
      if key in t then last == Some(t[key]) else last.None? || last.value.expiresAt <= now
  }

  lemma StepKeepsTable<K(!new), V(!new)>(t: Table<K, V>, history: seq<Call<K, V>>, now: Time, call: Call<K, V>)
    requires Represents(t, history, now)
    requires now <= call.at
    ensures Represents(Step(t, call).0, history + [call], call.at)
    ensures Step(t, call).1 == Expected(history, call)
  {
    var longer := history + [call];
    assert longer[..|longer| - 1] == history;
    var t' := Step(t, call).0;
    forall key
      ensures var last := LastSet(longer, key);
              if key in t' then last == Some(t'[key]) else last.None? || last.value.expiresAt <= call.at
    {
      assert (if key in t then LastSet(history, key) == Some(t[key])
              else LastSet(history, key).None? || LastSet(history, key).value.expiresAt <= now);
    }
  }

  lemma {:induction false} AfterRepresents<K(!new), V(!new)>(history: seq<Call<K, V>>)
    requires ClockMonotone(history)
    ensures Represents(After(history), history, if history == [] then 0 else history[|history| - 1].at)
  {
    if history != [] {
      var before := history[..|history| - 1];
      var call := history[|history| - 1];
      AfterRepresents(before);
      assert before + [call] == history;
      if before == [] {
        assert Represents(After(before), before, call.at);
        StepKeepsTable(After(before), before, call.at, call);
      } else {
        StepKeepsTable(After(before), before, before[|before| - 1].at, call);
      }
    }
  }

  /** Lazy purging is invisible: for every sequence of calls on a clock that does not run
      backwards, each answer is the one computed from the history alone. */
  lemma AnswersMatchHistory<K(!new), V(!new)>(history: seq<Call<K, V>>, call: Call<K, V>)
    requires ClockMonotone(history + [call])
    ensures Step(After(history), call).1 == Expected(history, call)
  {
    var longer := history + [call];
    assert forall i, j :: 0 <= i < j < |history| ==> history[i] == longer[i] && history[j] == longer[j];
    AfterRepresents(history);
    var now := if history == [] then call.at else history[|history| - 1].at;
    if history != [] { assert longer[|history| - 1].at <= longer[|history|].at; }
    StepKeepsTable(After(history), history, now, call);
  }

  /** A clock that runs backwards does show the purge: an entry that is live again at the
      earlier reading has already been dropped. */
  lemma PurgeShowsWhenClockRunsBack()
    ensures var history: seq<Call<int, int>> :=
              [SetCall(1, 7, 10, 0), SetCall(2, 8, 10, 50)];
            Step(After(history), GetCall(1, 5)).1 != Expected(history, GetCall(1, 5))
  {
    var first: seq<Call<int, int>> := [SetCall(1, 7, 10, 0)];
    var history: seq<Call<int, int>> := [SetCall(1, 7, 10, 0), SetCall(2, 8, 10, 50)];
    var none: seq<Call<int, int>> := [];
    assert history[..1] == first && first[..0] == none;
    assert After(first) == map[1 := Entry(7, 10)];
    assert After(history) == map[2 := Entry(8, 60)];
    assert LastSet(first, 1) == Some(Entry(7, 10));
  }

  // ------------------------------------------------------------------ mutual exclusion

  ghost predicate Succeeds<K, V>(history: seq<Call<K, V>>, i: nat) {
    i < |history| && history[i].SetCall? && Expected(history[..i], history[i]) == Taken(true)
  }

  ghost predicate DeletedBetween<K, V>(history: seq<Call<K, V>>, key: K, i: nat, j: nat) {
    exists k :: i < k < j < |history| && history[k].DeleteCall? && history[k].key == key
  }

  /** While a taken key is neither deleted nor expired, its entry does not change. */
  lemma {:induction false} EntryStays<K, V>(history: seq<Call<K, V>>, i: nat, j: nat)
    requires i < j <= |history| && Succeeds(history, i) && ClockMonotone(history)
    requires forall k :: i < k < j ==> !(history[k].DeleteCall? && history[k].key == history[i].key)
    requires forall k :: i < k < j ==> history[k].at < history[i].at + history[i].ttl
    ensures LastSet(history[..j], history[i].key)
            == Some(Entry(history[i].value, history[i].at + history[i].ttl))
    decreases j
  {
    var upto := history[..j];
    assert upto[..|upto| - 1] == history[..j - 1];
    if j > i + 1 {
      EntryStays(history, i, j - 1);
    }
  }

  /** Two successful sets of one key are separated by a delete of it or by a full time to live. */
  lemma TakenTwiceNeedsRelease<K, V>(history: seq<Call<K, V>>, i: nat, j: nat)
    requires ClockMonotone(history)
    requires i < j && Succeeds(history, i) && Succeeds(history, j) && history[i].key == history[j].key
    ensures DeletedBetween(history, history[i].key, i, j) || history[j].at >= history[i].at + history[i].ttl
  {
    if !DeletedBetween(history, history[i].key, i, j) && history[j].at < history[i].at + history[i].ttl {
      forall k | i < k < j ensures history[k].at < history[i].at + history[i].ttl {
        assert history[k].at <= history[j].at;
      }
      EntryStays(history, i, j);
      assert false;
    }
  }
}
