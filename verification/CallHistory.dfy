// The bounded memory of ended calls, and what it is for: one timeline row per call id.
module CallHistory {
  import opened Options
  import opened CallTypes
  import opened CallMachine
  import opened CallInvariant
  import opened CallOutline

  // --- recentlyEnded is exactly the twenty most recent distinct ids ---

  // All ids ever remembered, each at its last occurrence.
  function Recency(log: seq<CallId>): seq<CallId> {
    if log == [] then [] else Without(Recency(log[..|log| - 1]), log[|log| - 1]) + [log[|log| - 1]]
  }

  function Newest(ids: seq<CallId>): seq<CallId> {
    if |ids| <= RECENT_CALL_IDS_MAX then ids else ids[|ids| - RECENT_CALL_IDS_MAX..]
  }

  predicate Distinct(ids: seq<CallId>) {
    forall i, j :: 0 <= i < j < |ids| ==> ids[i] != ids[j]
  }

  lemma {:induction false} WithoutConcat(a: seq<CallId>, b: seq<CallId>, id: CallId)
    ensures Without(a + b, id) == Without(a, id) + Without(b, id)
  {
    if a == [] {
      assert a + b == b;
    } else {
      assert (a + b)[1..] == a[1..] + b;
      WithoutConcat(a[1..], b, id);
    }
  }

  lemma {:induction false} WithoutMembers(ids: seq<CallId>, id: CallId)
    ensures forall x :: x in Without(ids, id) <==> x in ids && x != id
    ensures id !in ids ==> Without(ids, id) == ids
  {
    if ids != [] {
      WithoutMembers(ids[1..], id);
      assert ids == [ids[0]] + ids[1..];
    }
  }

  lemma {:induction false} WithoutDistinct(ids: seq<CallId>, id: CallId)
    requires Distinct(ids)
    ensures Distinct(Without(ids, id))
    ensures |Without(ids, id)| == if id in ids then |ids| - 1 else |ids|
  {
    if ids != [] {
      WithoutDistinct(ids[1..], id);
      WithoutMembers(ids[1..], id);
      assert ids == [ids[0]] + ids[1..];
      var rest := Without(ids[1..], id);
      assert ids[0] !in rest;
      assert Without(ids, id) == if ids[0] == id then rest else [ids[0]] + rest;
    }
  }

  lemma {:induction false} RecencyMembers(log: seq<CallId>)
    ensures Distinct(Recency(log))
    ensures forall id :: id in Recency(log) <==> id in log
  {
    if log != [] {
      var init, id := log[..|log| - 1], log[|log| - 1];
      RecencyMembers(init);
      WithoutDistinct(Recency(init), id);
      WithoutMembers(Recency(init), id);
      assert log == init + [id];
    }
  }

  // Taking one id out: from every position of the rest, the members are those from some
  // position of the whole, without that id.
  lemma {:induction false} WithoutSuffix(ids: seq<CallId>, id: CallId, i: nat) returns (k: nat)
    requires i <= |Without(ids, id)|
    ensures k <= |ids|
    ensures Without(ids, id)[i..] == Without(ids[k..], id)
  {
    if i == 0 {
      k := 0;
    } else if ids[0] == id {
      k := WithoutSuffix(ids[1..], id, i);
      k := k + 1;
    } else {
      k := WithoutSuffix(ids[1..], id, i - 1);
      k := k + 1;
    }
  }

  // Recency is an order by last occurrence: the ids from any position on are exactly the
  // ids of some final stretch of the log.
  lemma {:induction false} RecencyOrder(log: seq<CallId>, i: nat) returns (p: nat)
    requires i <= |Recency(log)|
    ensures p <= |log|
    ensures forall id :: id in Recency(log)[i..] <==> id in log[p..]
  {
    if i == |Recency(log)| {
      p := |log|;
    } else {
      var init, last := log[..|log| - 1], log[|log| - 1];
      var rest := Without(Recency(init), last);
      var k := WithoutSuffix(Recency(init), last, i);
      WithoutMembers(Recency(init)[k..], last);
      p := RecencyOrder(init, k);
      assert log[p..] == init[p..] + [last];
      assert Recency(log)[i..] == rest[i..] + [last];
    }
  }

  lemma TouchKeepsNewest(all: seq<CallId>, id: CallId)
    requires Distinct(all)
    ensures Touch(Newest(all), id) == Newest(Without(all, id) + [id])
  {
    var n := if |all| <= RECENT_CALL_IDS_MAX then 0 else |all| - RECENT_CALL_IDS_MAX;
    var older, newest := all[..n], all[n..];
    assert all == older + newest && newest == Newest(all);
    WithoutConcat(older, newest, id);
    WithoutDistinct(newest, id);
    var rest := Without(newest, id) + [id];
    assert Without(all, id) + [id] == Without(older, id) + rest;
    LastTwenty(Without(older, id), rest);
  }

  lemma LastTwenty(front: seq<CallId>, rest: seq<CallId>)
    requires |rest| <= RECENT_CALL_IDS_MAX + 1 && (front == [] || |rest| >= RECENT_CALL_IDS_MAX)
    ensures Newest(front + rest) == if |rest| > RECENT_CALL_IDS_MAX then rest[1..] else rest
  {
  }

  predicate Remembering(s: State) {
    s.recentlyEnded == Newest(Recency(s.log.remembered))
  }

  lemma RememberingGrows(s: State, t: State, id: CallId)
    requires Remembering(s) && Remembers(s, t, id)
    ensures Remembering(t)
  {
    var log := s.log.remembered;
    RecencyMembers(log);
    TouchKeepsNewest(Recency(log), id);
    assert (log + [id])[..|log|] == log;
  }

  lemma PermittedKeepsRemembering(s: State, e: Event, t: State)
    requires Permitted(s, e, t) && Remembering(s)
    ensures Remembering(t)
  {
    if Over(s, e, t) || Yielded(s, e, t) {
      RememberingGrows(s, t, s.call.value.callId);
    } else if Noted(s, e, t) {
      RememberingGrows(s, t, e.signal.callId);
    } else {
      assert SameMemory(s, t);
    }
  }

  lemma {:induction false} RunKeepsRemembering(s: State, events: seq<Event>)
    requires Valid(s) && Remembering(s)
    ensures Remembering(Run(s, events))
    decreases |events|
  {
    if events != [] {
      StepKeepsValid(s, events[0]);
      StepIsPermitted(s, events[0]);
      PermittedKeepsRemembering(s, events[0], Step(s, events[0]));
      RunKeepsRemembering(Step(s, events[0]), events[1..]);
    }
  }

  // --- one row write per call id ---

  predicate HasRow(rows: seq<Row>, id: CallId) {
    exists i :: 0 <= i < |rows| && rows[i].callId == id
  }

  predicate RowsDistinct(rows: seq<Row>) {
    forall i, j :: 0 <= i < j < |rows| ==> rows[i].callId != rows[j].callId
  }

  // Nothing remembered has been evicted.
  predicate Complete(s: State) {
    forall id :: id in s.log.remembered ==> id in s.recentlyEnded
  }

  predicate OneRowEach(s: State) {
    && RowsDistinct(s.log.rows)
    && (forall i :: 0 <= i < |s.log.rows| ==> s.log.rows[i].callId in s.log.remembered)
    && (s.call.Some? ==> !HasRow(s.log.rows, s.call.value.callId))
  }

  // Ids are the initiator's own: a placed call gets an id never seen here, and nobody but
  // the live call's contact signals with the live call's id.
  predicate OwnIds(s: State, e: Event) {
    && (e.PlaceCall? ==> e.newId !in s.log.remembered)
    && (e.Receive? && s.call.Some? && e.signal.callId == s.call.value.callId ==>
          e.from.handle == s.call.value.contact.handle)
  }

  lemma OneRowMore(s: State, t: State, id: CallId)
    requires OneRowEach(s) && !HasRow(s.log.rows, id)
    requires t.log.remembered == s.log.remembered + [id]
    requires |t.log.rows| > 0 && t.log.rows == s.log.rows + [t.log.rows[|t.log.rows| - 1]]
    requires t.log.rows[|t.log.rows| - 1].callId == id
    requires t.call.Some? ==> t.call.value.callId != id && !HasRow(s.log.rows, t.call.value.callId)
    ensures OneRowEach(t)
  {
    var row := t.log.rows[|t.log.rows| - 1];
    forall i | 0 <= i < |t.log.rows| ensures t.log.rows[i].callId in t.log.remembered {
      assert t.log.rows[i] == if i < |s.log.rows| then s.log.rows[i] else row;
    }
  }

  lemma NoRowMore(s: State, t: State)
    requires OneRowEach(s) && t.log.rows == s.log.rows && s.log.remembered <= t.log.remembered
    requires t.call.Some? ==> !HasRow(s.log.rows, t.call.value.callId)
    ensures OneRowEach(t)
  {
  }

  // No call with a row has been evicted; ids without one may have been.
  predicate RowsKept(s: State) {
    forall i :: 0 <= i < |s.log.rows| ==> s.log.rows[i].callId in s.recentlyEnded
  }

  lemma KeptRowIsKnown(s: State, id: CallId)
    requires RowsKept(s) && HasRow(s.log.rows, id)
    ensures id in s.recentlyEnded
  {
  }

  lemma RowsAreRemembered(s: State, id: CallId)
    requires OneRowEach(s) && HasRow(s.log.rows, id)
    ensures id in s.log.remembered
  {
  }

  // A call that goes on has no row yet, and a new one has an id not seen before.
  lemma LiveCallHasNoRow(s: State, e: Event, t: State)
    requires Placed(s, e, t) || Adopted(s, e, t) || Yielded(s, e, t) || KeyOf(t) == KeyOf(s)
    requires OneRowEach(s) && RowsKept(s) && OwnIds(s, e) && t.call.Some?
    ensures !HasRow(s.log.rows, t.call.value.callId)
  {
    var id := t.call.value.callId;
    if KeyOf(t) != KeyOf(s) && HasRow(s.log.rows, id) {
      RowsAreRemembered(s, id);
      KeptRowIsKnown(s, id);
    }
  }

  lemma OverKeepsOneRowEach(s: State, e: Event, t: State)
    requires Over(s, e, t) && OneRowEach(s)
    ensures OneRowEach(t)
  {
    if t.log.rows == s.log.rows { NoRowMore(s, t); } else { OneRowMore(s, t, s.call.value.callId); }
  }

  lemma NotedKeepsOneRowEach(s: State, e: Event, t: State)
    requires Noted(s, e, t) && OneRowEach(s) && RowsKept(s) && OwnIds(s, e)
    ensures OneRowEach(t)
  {
    if t.call.Some? { LiveCallHasNoRow(s, e, t); }
    if t.log.rows == s.log.rows {
      NoRowMore(s, t);
    } else {
      if HasRow(s.log.rows, e.signal.callId) { KeptRowIsKnown(s, e.signal.callId); }
      OneRowMore(s, t, e.signal.callId);
    }
  }

  lemma PermittedKeepsOneRowEach(s: State, e: Event, t: State)
    requires Permitted(s, e, t) && OneRowEach(s) && RowsKept(s) && OwnIds(s, e)
    ensures OneRowEach(t)
  {
    if Over(s, e, t) {
      OverKeepsOneRowEach(s, e, t);
    } else if Noted(s, e, t) {
      NotedKeepsOneRowEach(s, e, t);
    } else {
      if t.call.Some? { LiveCallHasNoRow(s, e, t); }
      assert t.log.rows == s.log.rows && s.log.remembered <= t.log.remembered;
      NoRowMore(s, t);
    }
  }

  // The events are honest about ids and no call with a row is evicted before the last one.
  predicate HonestRun(s: State, events: seq<Event>)
    decreases |events|
  {
    events == [] || (RowsKept(s) && OwnIds(s, events[0]) && HonestRun(Step(s, events[0]), events[1..]))
  }

  lemma {:induction false} HonestRunKeepsOneRowEach(s: State, events: seq<Event>)
    requires Valid(s) && OneRowEach(s) && HonestRun(s, events)
    ensures OneRowEach(Run(s, events))
    decreases |events|
  {
    if events != [] {
      StepKeepsValid(s, events[0]);
      StepIsPermitted(s, events[0]);
      PermittedKeepsOneRowEach(s, events[0], Step(s, events[0]));
      HonestRunKeepsOneRowEach(Step(s, events[0]), events[1..]);
    }
  }

  // The exact condition: from a state with one row each, no event that is honest about ids
  // writes a second row if and only if every call with a row is still remembered.
  lemma OneRowEachExactlyWhileKept(s: State)
    requires Valid(s) && OneRowEach(s)
    ensures (forall e :: OwnIds(s, e) ==> RowsDistinct(Step(s, e).log.rows)) <==> RowsKept(s)
  {
    if RowsKept(s) {
      forall e | OwnIds(s, e) ensures RowsDistinct(Step(s, e).log.rows) {
        StepIsPermitted(s, e);
        PermittedKeepsOneRowEach(s, e, Step(s, e));
      }
    } else {
      var i :| 0 <= i < |s.log.rows| && s.log.rows[i].callId !in s.recentlyEnded;
      var id := s.log.rows[i].callId;
      var e := Receive(Contact("peer", "peer"), End(id, Timeout), 0, 0);
      StrayEndIsNoted(s, id);
      SecondRow(Remember(s, id), MissedRow(Contact("peer", "peer"), id));
      assert OwnIds(s, e) && !RowsDistinct(Step(s, e).log.rows);
    }
  }

  // While nothing at all was evicted, rows are kept in particular.
  lemma CompleteKeepsRows(s: State)
    requires OneRowEach(s) && Complete(s)
    ensures RowsKept(s)
  {
  }

  // Few ids means nothing was evicted: the set is complete exactly while at most twenty
  // distinct ids were remembered.
  lemma CompleteWhileFew(s: State)
    requires Remembering(s)
    ensures Complete(s) <==> |Recency(s.log.remembered)| <= 20
  {
    var all := Recency(s.log.remembered);
    RecencyMembers(s.log.remembered);
    if |all| > RECENT_CALL_IDS_MAX {
      assert all[0] in s.log.remembered;
      assert all[0] !in Newest(all);
    }
  }

  // --- an instance: the memory forgets a call with a row, its end marker writes again ---

  function NthId(n: nat): CallId { seq(n + 1, _ => 'x') }

  function NthEnd(n: nat): Event {
    Receive(Contact("peer", "peer"), End(NthId(n), Timeout), 0, 0)
  }

  function Ends(n: nat): seq<Event> {
    if n == 0 then [] else Ends(n - 1) + [NthEnd(n - 1)]
  }

  lemma {:induction false} RunAppend(s: State, events: seq<Event>, e: Event)
    ensures Run(s, events + [e]) == Step(Run(s, events), e)
    decreases |events|
  {
    if events == [] {
      assert events + [e] == [e];
      assert Run(Step(s, e), []) == Step(s, e);
    } else {
      assert (events + [e])[1..] == events[1..] + [e];
      RunAppend(Step(s, events[0]), events[1..], e);
    }
  }

  // No call, n distinct remembered ids, the first of them NthId(0), which has its row.
  predicate Piled(s: State, n: nat) {
    && s.call.None? && Remembering(s)
    && |Recency(s.log.remembered)| == n
    && (forall id :: id in s.log.remembered ==> |id| <= n)
    && (n > 0 ==> Recency(s.log.remembered)[0] == NthId(0) && HasRow(s.log.rows, NthId(0)))
  }

  lemma StrayEndIsNoted(s: State, id: CallId)
    requires (s.call.Some? ==> s.call.value.callId != id) && id !in s.recentlyEnded
    ensures var from := Contact("peer", "peer");
            Step(s, Receive(from, End(id, Timeout), 0, 0)) == WriteRow(Remember(s, id), MissedRow(from, id))
  {
  }

  lemma PileMore(s: State, n: nat, row: Row)
    requires Piled(s, n) && row.callId == NthId(n)
    ensures NthId(n) !in s.recentlyEnded
    ensures Piled(WriteRow(Remember(s, NthId(n)), row), n + 1)
  {
    var id, log := NthId(n), s.log.remembered;
    var t := WriteRow(Remember(s, id), row);
    assert |id| == n + 1 && id !in log;
    RecencyMembers(log);
    RememberingGrows(s, t, id);
    assert t.log.remembered[..|log|] == log;
    WithoutMembers(Recency(log), id);
    assert t.log.rows[|s.log.rows|] == row;
    assert forall i :: 0 <= i < |s.log.rows| ==> t.log.rows[i] == s.log.rows[i];
  }

  lemma {:induction false} EndsPile(n: nat)
    ensures Piled(Run(INITIAL, Ends(n)), n)
  {
    if n > 0 {
      var s, id := Run(INITIAL, Ends(n - 1)), NthId(n - 1);
      EndsPile(n - 1);
      PileMore(s, n - 1, MissedRow(Contact("peer", "peer"), id));
      StrayEndIsNoted(s, id);
      RunAppend(INITIAL, Ends(n - 1), NthEnd(n - 1));
    }
  }

  lemma SecondRow(s: State, row: Row)
    requires HasRow(s.log.rows, row.callId)
    ensures !RowsDistinct(WriteRow(s, row).log.rows)
  {
    var rows := WriteRow(s, row).log.rows;
    var i :| 0 <= i < |s.log.rows| && s.log.rows[i].callId == row.callId;
    assert rows[i].callId == rows[|s.log.rows|].callId;
  }

  lemma EvictionWritesARowTwice()
    ensures !RowsDistinct(Run(INITIAL, Ends(RECENT_CALL_IDS_MAX + 1) + [NthEnd(0)]).log.rows)
  {
    var n, id := RECENT_CALL_IDS_MAX + 1, NthId(0);
    var s := Run(INITIAL, Ends(n));
    EndsPile(n);
    RecencyMembers(s.log.remembered);
    assert id !in s.recentlyEnded;
    StrayEndIsNoted(s, id);
    SecondRow(Remember(s, id), MissedRow(Contact("peer", "peer"), id));
    RunAppend(INITIAL, Ends(n), NthEnd(0));
  }
}
