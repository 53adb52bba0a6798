/** What every operation keeps: at most one execution per action, at most one booking per event,
    and every journey in order. */
module Safety {
  import opened Domain
  import opened Rows
  import opened Policy
  import opened Decision
  import opened Journey
  import opened Gateway
  import opened Ledger
  import opened Recovery
  import opened RecoveryProofs
  import opened Orchestrator
  import KeyStore

  // ----------------------------------------------------------------------- invariant

  predicate TablesOk(w: World) {
    && (forall e :: 0 <= e < |w.events| ==> EventRowOk(w, w.events[e]))
    && (forall id :: 0 <= id < |w.journeys| ==> w.journeys[id].event < |w.events|)
    && (forall i, k :: 0 <= i < k < |w.journeys| ==> w.journeys[i].event != w.journeys[k].event)
  }

  /** Mandates belong to the customer they are used for, and an event nobody has acted on yet
      has cost nothing. */
  predicate EventRowOk(w: World, e: Event) {
    && e.customer < |w.customers|
    && (e.mandate.Some? && e.mandate.value < |w.mandates| ==> w.mandates[e.mandate.value].customer == e.customer)
    && (e.status == AtRisk && !e.training ==> e.contactsUsed == 0 && e.recoveryCost == 0)
  }

  ghost predicate JourneyOk(w: World, id: JourneyId)
    requires RowsExist(w, id)
  {
    CellOk(id, CellOf(w, id))
  }

  /** An execute is followed at once by a state query if it timed out, and was allowed by the
      gate at its instant. */
  predicate CallOk(trace: seq<GatewayCall>, i: nat)
    requires i < |trace|
  {
    var call := trace[i];
    call.ExecuteCall? ==>
      && call.key.ActionKey?
      && Gate(call.spec, call.ask).verdict == Allow
      && (call.answer == TimedOut ==>
            i + 1 < |trace| && trace[i + 1].FetchCall? && trace[i + 1].key == call.key)
  }

  predicate KnownCall(w: World, call: GatewayCall) {
    call.ExecuteCall? ==> call.key.ActionKey? && call.key.journey < |w.journeys|
  }

  /** No idempotency key is ever executed twice. */
  predicate ExecutedOnce(trace: seq<GatewayCall>) {
    forall i, k :: 0 <= i < k < |trace| && trace[i].ExecuteCall? && trace[k].ExecuteCall? ==>
      trace[i].key != trace[k].key
  }

  ghost predicate TraceSound(w: World) {
    && (forall i :: 0 <= i < |w.trace| ==> CallOk(w.trace, i))
    && (forall i :: 0 <= i < |w.trace| ==> KnownCall(w, w.trace[i]))
    && ExecutedOnce(w.trace)
  }

  ghost predicate KeysSound(w: World) {
    forall key :: IdemKey(key) in w.keys ==> key.ActionKey? && key.journey < |w.journeys|
  }

  /** A booking belongs to a closed journey whose last action recovered the money. */
  ghost predicate EntryOk(w: World, entry: LedgerEntry) {
    && RowsExist(w, entry.journey)
    && var j := w.journeys[entry.journey];
       && j.actions != [] && j.state == Closed && Last(j).status == Succeeded
       && EntryFor(entry, entry.journey, j.event, Last(j), EventOf(w, entry.journey).amount)
  }

  ghost predicate LedgerSound(w: World) {
    && (forall p :: 0 <= p < |w.ledger| ==> EntryOk(w, w.ledger[p]))
    && DistinctJourneys(w.ledger)
    && (forall id :: 0 <= id < |w.journeys| && w.journeys[id].actions != [] && Last(w.journeys[id]).status == Succeeded ==>
          Booked(w.ledger, id))
  }

  ghost predicate Booked(ledger: seq<LedgerEntry>, id: JourneyId) {
    exists p :: 0 <= p < |ledger| && ledger[p].journey == id
  }

  ghost predicate Inv(w: World) {
    && TablesOk(w)
    && (forall id :: 0 <= id < |w.journeys| ==> JourneyOk(w, id))
    && TraceSound(w) && KeysSound(w) && LedgerSound(w)
    && w.gw.unresolved == {}
  }

  // ------------------------------------------------------------- one cell changes

  /** A change confined to journey `id`: another journey's cell stays in order. */
  lemma OtherCellKeeps(other: JourneyId, c: Cell, c': Cell)
    requires CellOk(other, c)
    requires c'.j == c.j && c'.ev == c.ev && c'.gw.unresolved == {}
    requires c.trace <= c'.trace
    requires forall i :: |c.trace| <= i < |c'.trace| ==> !OwnExecute(other, c'.trace[i])
    requires forall key :: IdemKey(key) in c'.keys && key.ActionKey? && key.journey == other ==> IdemKey(key) in c.keys
    ensures CellOk(other, c')
  {
    forall i | 0 <= i < |c'.trace| && OwnExecute(other, c'.trace[i]) ensures CallMatches(c'.j, c'.trace[i]) {
      assert i < |c.trace| && c'.trace[i] == c.trace[i];
    }
    if Last(c.j).status == Succeeded {
      var i :| 0 <= i < |c.trace| && c.trace[i].key == Last(c.j).key && Success(c.trace[i]);
      assert c'.trace[i] == c.trace[i];
    }
  }

  /** What a change of cell `id` must satisfy for the whole book to stay in order. */
  ghost predicate LocalStep(w: World, id: JourneyId, c': Cell)
    requires RowsExist(w, id)
  {
    var c := CellOf(w, id);
    && CellOk(id, c) && CellOk(id, c')
    && SameJourney(c.j, c'.j) && EventStep(c.ev, c'.ev)
    && (c.mandate.Some? == c'.mandate.Some?)
    && (c.mandate.Some? ==> c'.mandate.value.customer == c.mandate.value.customer)
    && c.trace <= c'.trace
    && (forall i :: |c.trace| <= i < |c'.trace| && c'.trace[i].ExecuteCall? ==> OwnExecute(id, c'.trace[i]))
    && (forall key :: IdemKey(key) in c'.keys ==> IdemKey(key) in c.keys || (key.ActionKey? && key.journey == id))
    && TraceGrows(c.trace, c'.trace)
    && LedgerGrows(id, c, c')
  }

  ghost predicate TraceGrows(trace: seq<GatewayCall>, trace': seq<GatewayCall>) {
    (forall i :: |trace| <= i < |trace'| ==> CallOk(trace', i))
    && (forall i, k :: 0 <= i < k < |trace'| && |trace| <= k && trace'[i].ExecuteCall? && trace'[k].ExecuteCall? ==>
          trace'[i].key != trace'[k].key)
  }

  ghost predicate LedgerGrows(id: JourneyId, c: Cell, c': Cell)
    requires c.j.actions != [] && c'.j.actions != []
  {
    if c'.ledger == c.ledger then (Last(c'.j).status == Succeeded ==> Last(c.j).status == Succeeded)
      && (Last(c.j).status == Succeeded ==> Last(c'.j) == Last(c.j) && c'.j.state == Closed)
    else
      && Last(c.j).status != Succeeded
      && |c'.ledger| == |c.ledger| + 1 && c.ledger <= c'.ledger
      && Last(c'.j).status == Succeeded && c'.j.state == Closed
      && EntryFor(c'.ledger[|c.ledger|], id, c.j.event, Last(c'.j), c.ev.amount)
  }

  lemma CellAfter(w: World, id: JourneyId, c: Cell)
    requires TablesOk(w) && RowsExist(w, id) && LocalStep(w, id, c)
    ensures var w' := WithCell(w, id, c);
            && TablesOk(w') && RowsExist(w', id)
            && CellOf(w', id).(mandate := c.mandate) == c
            && (forall k :: 0 <= k < |w.journeys| && k != id ==>
                  RowsExist(w', k) && EventOf(w', k) == EventOf(w, k))
  {
    var w' := WithCell(w, id, c);
    var ev := EventOf(w, id);
    forall e | 0 <= e < |w'.events| ensures EventRowOk(w', w'.events[e]) {
      assert EventRowOk(w, w.events[e]);
    }
    forall k | 0 <= k < |w.journeys| && k != id ensures RowsExist(w', k) && EventOf(w', k) == EventOf(w, k) {
      assert w.journeys[k].event != w.journeys[id].event;
      assert EventRowOk(w, w.events[w.journeys[k].event]);
    }
  }

  lemma TraceAfter(w: World, id: JourneyId, c: Cell)
    requires Inv(w) && RowsExist(w, id) && LocalStep(w, id, c)
    ensures TraceSound(WithCell(w, id, c)) && KeysSound(WithCell(w, id, c))
  {
    var w' := WithCell(w, id, c);
    forall i | 0 <= i < |w'.trace| ensures CallOk(w'.trace, i) {
      if i < |w.trace| { assert CallOk(w.trace, i) && w'.trace[i] == w.trace[i]; }
    }
    forall i, k | 0 <= i < k < |w'.trace| && w'.trace[i].ExecuteCall? && w'.trace[k].ExecuteCall?
      ensures w'.trace[i].key != w'.trace[k].key
    {
      if k < |w.trace| { assert w'.trace[i] == w.trace[i] && w'.trace[k] == w.trace[k]; }
    }
    forall i | 0 <= i < |w'.trace| ensures KnownCall(w', w'.trace[i]) {
      if i < |w.trace| { assert KnownCall(w, w.trace[i]) && w'.trace[i] == w.trace[i]; }
    }
  }

  lemma OldEntryStays(w: World, id: JourneyId, c: Cell, entry: LedgerEntry)
    requires Inv(w) && RowsExist(w, id) && LocalStep(w, id, c)
    requires EntryOk(w, entry)
    ensures EntryOk(WithCell(w, id, c), entry)
    ensures entry.journey == id ==> c.ledger == w.ledger
  {
    CellAfter(w, id, c);
  }

  lemma NewEntryOk(w: World, id: JourneyId, c: Cell)
    requires Inv(w) && RowsExist(w, id) && LocalStep(w, id, c) && c.ledger != w.ledger
    ensures EntryOk(WithCell(w, id, c), c.ledger[|w.ledger|]) && c.ledger[|w.ledger|].journey == id
  {
    CellAfter(w, id, c);
  }

  lemma BookedStays(w: World, id: JourneyId, c: Cell, k: JourneyId)
    requires Inv(w) && RowsExist(w, id) && LocalStep(w, id, c) && k < |w.journeys|
    requires var j := WithCell(w, id, c).journeys[k]; j.actions != [] && Last(j).status == Succeeded
    ensures Booked(c.ledger, k)
  {
    if k == id && c.ledger != w.ledger {
      assert c.ledger[|w.ledger|].journey == k;
    } else {
      assert Booked(w.ledger, k);
      var p :| 0 <= p < |w.ledger| && w.ledger[p].journey == k;
      assert c.ledger[p] == w.ledger[p];
    }
  }

  predicate DistinctJourneys(ledger: seq<LedgerEntry>) {
    forall p, q :: 0 <= p < q < |ledger| ==> ledger[p].journey != ledger[q].journey
  }

  lemma EntryAfter(w: World, id: JourneyId, c: Cell, p: nat)
    requires Inv(w) && RowsExist(w, id) && LocalStep(w, id, c) && p < |c.ledger|
    ensures EntryOk(WithCell(w, id, c), c.ledger[p])
    ensures if p < |w.ledger| then c.ledger[p] == w.ledger[p] && (c.ledger != w.ledger ==> w.ledger[p].journey != id)
            else p == |w.ledger| && c.ledger[p].journey == id
  {
    if p < |w.ledger| {
      assert c.ledger[p] == w.ledger[p] && EntryOk(w, w.ledger[p]);
      OldEntryStays(w, id, c, w.ledger[p]);
    } else {
      NewEntryOk(w, id, c);
    }
  }

  lemma LedgerAfter(w: World, id: JourneyId, c: Cell)
    requires Inv(w) && RowsExist(w, id) && LocalStep(w, id, c)
    ensures LedgerSound(WithCell(w, id, c))
  {
    var w' := WithCell(w, id, c);
    assert DistinctJourneys(w.ledger);
    forall p | 0 <= p < |w'.ledger| ensures EntryOk(w', w'.ledger[p]) { EntryAfter(w, id, c, p); }
    forall p, q | 0 <= p < q < |w'.ledger| ensures w'.ledger[p].journey != w'.ledger[q].journey {
      EntryAfter(w, id, c, p);
      EntryAfter(w, id, c, q);
    }
    forall k | 0 <= k < |w'.journeys| && w'.journeys[k].actions != [] && Last(w'.journeys[k]).status == Succeeded
      ensures Booked(w'.ledger, k)
    {
      BookedStays(w, id, c, k);
    }
  }

  /** A local step keeps the whole invariant. */
  lemma LocalStepKeepsInv(w: World, id: JourneyId, c: Cell)
    requires Inv(w) && RowsExist(w, id) && LocalStep(w, id, c)
    ensures Inv(WithCell(w, id, c))
  {
    var w' := WithCell(w, id, c);
    CellAfter(w, id, c);
    TraceAfter(w, id, c);
    LedgerAfter(w, id, c);
    forall k | 0 <= k < |w'.journeys| ensures JourneyOk(w', k) {
      if k != id {
        assert JourneyOk(w, k);
        OtherCellKeeps(k, CellOf(w, k), CellOf(w', k).(mandate := CellOf(w, k).mandate));
        MandateIsFree(k, CellOf(w', k).(mandate := CellOf(w, k).mandate), CellOf(w', k));
      } else {
        MandateIsFree(k, c, CellOf(w', k));
      }
    }
  }

  /** The order of a cell does not depend on its mandate. */
  lemma MandateIsFree(id: JourneyId, c: Cell, c': Cell)
    requires CellOk(id, c) && c' == c.(mandate := c'.mandate)
    ensures CellOk(id, c')
  {
  }

  // ------------------------------------------------------------------------ a turn

  /** An action that has not been executed has no execute in the trace. */
  lemma CallsAreFresh(w: World, id: JourneyId)
    requires Inv(w) && RowsExist(w, id) && w.journeys[id].actions != []
    requires Last(w.journeys[id]).executedAt.None?
    ensures forall i :: 0 <= i < |w.trace| && w.trace[i].ExecuteCall? ==> w.trace[i].key != Last(w.journeys[id]).key
  {
    assert JourneyOk(w, id);
    var j := w.journeys[id];
    assert ActionOk(id, j.plan, |j.actions| - 1, Last(j));
    forall i | 0 <= i < |w.trace| && w.trace[i].ExecuteCall? ensures w.trace[i].key != Last(j).key {
      assert OwnExecute(id, w.trace[i]) ==> CallMatches(j, w.trace[i]);
    }
  }

  lemma ExecuteCallsGrow(trace: seq<GatewayCall>, calls: seq<GatewayCall>, key: Key, event: EventId, spec: PolicySpec,
                         ask: Ask)
    requires ExecuteCalls(calls, key, event, spec, ask) && Gate(spec, ask).verdict == Allow && key.ActionKey?
    requires forall i :: 0 <= i < |trace| && trace[i].ExecuteCall? ==> trace[i].key != key
    ensures TraceGrows(trace, trace + calls)
    ensures forall i :: |trace| <= i < |trace + calls| && (trace + calls)[i].ExecuteCall? ==> (trace + calls)[i].key == key
  {
    var trace' := trace + calls;
    assert trace'[|trace|] == calls[0];
    if calls[0].answer == TimedOut { assert trace'[|trace| + 1] == calls[1]; }
    forall i | |trace| <= i < |trace'| ensures CallOk(trace', i) {
      assert trace'[i] == calls[i - |trace|];
    }
  }

  lemma FetchCallsGrow(trace: seq<GatewayCall>, calls: seq<GatewayCall>)
    requires forall i :: 0 <= i < |calls| ==> calls[i].FetchCall?
    ensures TraceGrows(trace, trace + calls)
    ensures forall i :: |trace| <= i < |trace + calls| ==> (trace + calls)[i].FetchCall?
  {
    assert forall i :: |trace| <= i < |trace + calls| ==> (trace + calls)[i] == calls[i - |trace|];
  }

  lemma LastKeyIsOwn(w: World, id: JourneyId)
    requires Inv(w) && RowsExist(w, id)
    ensures w.journeys[id].actions != []
    ensures Last(w.journeys[id]).key.ActionKey? && Last(w.journeys[id]).key.journey == id
  {
    assert JourneyOk(w, id);
    var j := w.journeys[id];
    assert ActionOk(id, j.plan, |j.actions| - 1, Last(j));
  }

  lemma CallsGrow(w: World, id: JourneyId, c': Cell, env: Env, calls: seq<GatewayCall>)
    requires Inv(w) && RowsExist(w, id) && w.journeys[id].actions != []
    requires c'.trace == w.trace + calls
    requires var c := CellOf(w, id);
             || (forall i :: 0 <= i < |calls| ==> calls[i].FetchCall?)
             || (Last(c.j).executedAt.None? && ExecuteCalls(calls, Last(c.j).key, c.j.event, env.spec, AskNow(c, env))
                 && Gate(env.spec, AskNow(c, env)).verdict == Allow)
    ensures TraceGrows(w.trace, c'.trace)
    ensures forall i :: |w.trace| <= i < |c'.trace| && c'.trace[i].ExecuteCall? ==> OwnExecute(id, c'.trace[i])
  {
    LastKeyIsOwn(w, id);
    if exists i :: 0 <= i < |calls| && !calls[i].FetchCall? {
      var c := CellOf(w, id);
      CallsAreFresh(w, id);
      ExecuteCallsGrow(w.trace, calls, Last(c.j).key, c.j.event, env.spec, AskNow(c, env));
    } else {
      FetchCallsGrow(w.trace, calls);
    }
  }

  lemma TraceStepGrows(w: World, id: JourneyId, c': Cell, env: Env)
    requires Inv(w) && RowsExist(w, id) && w.journeys[id].actions != [] && c'.j.actions != []
    requires TraceStep(CellOf(w, id), c', env)
    ensures TraceGrows(w.trace, c'.trace)
    ensures forall i :: |w.trace| <= i < |c'.trace| && c'.trace[i].ExecuteCall? ==> OwnExecute(id, c'.trace[i])
  {
    var calls := c'.trace[|w.trace|..];
    assert c'.trace == w.trace + calls;
    CallsGrow(w, id, c', env, calls);
  }

  /** A turn of an open journey is a local step. */
  lemma TurnIsLocal(w: World, t: TickEnv, id: JourneyId, c': Cell)
    requires Inv(w) && RowsExist(w, id) && Open(w.journeys[id])
    requires CellOk(id, c') && Footprint(CellOf(w, id), c', TurnEnv(w, t, id))
    ensures LocalStep(w, id, c')
  {
    var c := CellOf(w, id);
    assert JourneyOk(w, id);
    TraceStepGrows(w, id, c', TurnEnv(w, t, id));
    assert ActionOk(id, c.j.plan, |c.j.actions| - 1, Last(c.j));
  }

  lemma AdvanceOneKeepsInv(w: World, t: TickEnv, id: JourneyId)
    requires Inv(w) && id < |w.journeys| && Open(w.journeys[id])
    requires !AdvanceOne(w, t, id).raised
    ensures Inv(AdvanceOne(w, t, id).w)
  {
    assert EventRowOk(w, w.events[w.journeys[id].event]);
    assert JourneyOk(w, id);
    AdvanceRests(CellOf(w, id), TurnEnv(w, t, id));
    var c' := Advance(CellOf(w, id), TurnEnv(w, t, id)).value;
    TurnIsLocal(w, t, id, c');
    LocalStepKeepsInv(w, id, c');
  }
}
