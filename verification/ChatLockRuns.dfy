// Two runs from an empty chat that lose a text, one for each kind of work that may be
// outstanding when the lock comes off.
module ChatLockRuns {
  import opened ChatLock
  import opened ChatLockWindow
  import opened Options

  const KEY: Key := 1
  const TEXT: Plaintext := "hello"
  const LATE := Draft("m", TEXT, 0, Some(KEY))
  const SAID: map<Id, Plaintext> := map["m" := TEXT]
  const STORED_KEYS := Keystore(Some(KEY), None, true)

  // The chat with its lock on, nothing in progress and the code just entered.
  function Locked(rows: map<Id, Row>, drafts: set<Draft>, said: map<Id, Plaintext>): State {
    State(Disk(rows, STORED_KEYS, Flags(false, Some(KEY))), Memory(Some(KEY), map[]), NoPass, [], drafts, said)
  }

  lemma {:induction false} RunsOn(s: State, events: seq<Event>, mid: State, e: Event)
    requires Runs(s, events, mid) && Enabled(mid, e)
    ensures Runs(s, events + [e], Step(mid, e))
    decreases |events|
  {
    if events == [] {
      assert [e][1..] == [];
      assert Runs(Step(s, e), [], Step(mid, e));
    } else {
      RunsOn(Step(s, events[0]), events[1..], mid, e);
      assert (events + [e])[1..] == events[1..] + [e];
    }
  }

  lemma {:induction false} RunsJoin(s: State, events: seq<Event>, mid: State, more: seq<Event>, t: State)
    requires Runs(s, events, mid) && Runs(mid, more, t)
    ensures Runs(s, events + more, t)
    decreases |events|
  {
    if events == [] {
      assert events + more == more;
    } else {
      RunsJoin(Step(s, events[0]), events[1..], mid, more, t);
      assert (events + more)[1..] == events[1..] + more;
    }
  }

  // Enabling an empty chat, write by write.
  lemma LockGoesOn() returns (events: seq<Event>)
    ensures Runs(INITIAL, events, Locked(map[], {}, map[]))
  {
    var s3 := Locked(map[], {}, map[]).(mem := Memory(None, map[]), pass := EnableRelease(KEY));
    var so := FlagsGoOn(s3);
    var s4 := Step(s3, Advance([]));
    assert SealBatch(s4.disk.rows, []);
    RunsOn(INITIAL, so, s3, Advance([]));
    RunsOn(INITIAL, so + [Advance([])], s4, Advance([]));
    events := so + [Advance([])] + [Advance([])];
    assert Step(s4, Advance([])) == Locked(map[], {}, map[]);
  }

  // The key stored and indexed, the flags set.
  lemma FlagsGoOn(s: State) returns (events: seq<Event>)
    requires s == Locked(map[], {}, map[]).(mem := Memory(None, map[]), pass := EnableRelease(KEY))
    ensures Runs(INITIAL, events, s)
  {
    var s1 := Step(INITIAL, Enable(KEY, false));
    var s2 := Step(s1, Advance([]));
    var s3 := Step(s2, Advance([]));
    RunsOn(INITIAL, [], INITIAL, Enable(KEY, false));
    RunsOn(INITIAL, [] + [Enable(KEY, false)], s1, Advance([]));
    RunsOn(INITIAL, [] + [Enable(KEY, false)] + [Advance([])], s2, Advance([]));
    RunsOn(INITIAL, [] + [Enable(KEY, false)] + [Advance([])] + [Advance([])], s3, Advance([]));
    events := [] + [Enable(KEY, false)] + [Advance([])] + [Advance([])] + [Advance([])];
    assert Step(s3, Advance([])) == s;
  }

  // With no row in the table the flags flip after one empty read.
  lemma LockComesOff(s: State) returns (t: State)
    requires s == Locked(map[], {LATE}, SAID)
    ensures t == At(WithFlags(s, Flags(false, None)), DropBio)
    ensures Runs(s, [Disable, Advance([]), Advance([])], t)
  {
    var s1 := Step(s, Disable);
    assert UnsealBatch(s1.disk.rows, []);
    var s2 := Step(s1, Advance([]));
    t := Step(s2, Advance([]));
    RunsOn(s, [], s, Disable);
    RunsOn(s, [] + [Disable], s1, Advance([]));
    RunsOn(s, [] + [Disable] + [Advance([])], s2, Advance([]));
    assert [] + [Disable] + [Advance([])] + [Advance([])] == [Disable, Advance([]), Advance([])];
  }

  // A message reads the key, the lock comes off with no row in the table, and the message is
  // stored under the key that is gone.
  lemma LateStoreIsLost() returns (events: seq<Event>, t: State)
    ensures Runs(INITIAL, events, t)
    ensures "m" in t.disk.rows && t.disk.flags.pubkey.None? && t.pass.DropBio? && !Readable("m", t)
  {
    var on := LockGoesOn();
    var s0 := Locked(map[], {}, map[]);
    var s1 := Locked(map[], {LATE}, SAID);
    assert s1 == Step(s0, Capture("m", TEXT, 0));
    RunsOn(INITIAL, on, s0, Capture("m", TEXT, 0));
    var s2 := LockComesOff(s1);
    var so := on + [Capture("m", TEXT, 0)];
    RunsJoin(INITIAL, so, s1, [Disable, Advance([]), Advance([])], s2);
    events := so + [Disable, Advance([]), Advance([])];
    t := Step(s2, Store(LATE));
    RunsOn(INITIAL, events, s2, Store(LATE));
    events := events + [Store(LATE)];
  }

  // The row as the chat keeps it while the lock is on, and once it is opened again.
  const SEALED_ROW := Row(Chat, Some(Cipher(KEY, "m", TEXT)), GoodMeta, 0)
  const CLEAR_ROW := Row(Chat, Some(Clear(TEXT)), NoMeta, 0)

  // The lock on, one message sealed.
  lemma OneMessageSealed() returns (events: seq<Event>)
    ensures Runs(INITIAL, events, Locked(map["m" := SEALED_ROW], {}, SAID))
  {
    var on := LockGoesOn();
    var s0 := Locked(map[], {}, map[]);
    var s1 := Step(s0, Capture("m", TEXT, 0));
    assert s1 == Locked(map[], {LATE}, SAID);
    var s2 := Step(s1, Store(LATE));
    assert s2 == Locked(map["m" := SEALED_ROW], {}, SAID);
    RunsOn(s0, [], s0, Capture("m", TEXT, 0));
    RunsOn(s0, [] + [Capture("m", TEXT, 0)], s1, Store(LATE));
    RunsJoin(INITIAL, on, s0, [] + [Capture("m", TEXT, 0)] + [Store(LATE)], s2);
    events := on + ([] + [Capture("m", TEXT, 0)] + [Store(LATE)]);
  }

  function Opening(row: Row, pass: Pass, heal: Heal): State {
    Locked(map["m" := row], {}, SAID).(pass := pass, heals := [heal])
  }

  const HELD := [("m", TEXT)]

  // A last empty read, the boot pass's write, and the flip.
  lemma HealSealsBeforeFlip(s1: State) returns (t: State)
    requires s1 == Opening(CLEAR_ROW, UnsealRead(KEY), HealWrite(KEY, HELD))
    ensures Runs(s1, [Advance([]), HealStep(0, []), Advance([])], t)
    ensures t == At(WithFlags(Opening(SEALED_ROW, NoPass, HealRead(KEY)), Flags(false, None)), DropBio)
  {
    assert UnsealBatch(s1.disk.rows, []);
    var s2 := Step(s1, Advance([]));
    var s3 := Step(s2, HealStep(0, []));
    t := Step(s3, Advance([]));
    RunsOn(s1, [], s1, Advance([]));
    RunsOn(s1, [] + [Advance([])], s2, HealStep(0, []));
    RunsOn(s1, [] + [Advance([])] + [HealStep(0, [])], s3, Advance([]));
    assert [] + [Advance([])] + [HealStep(0, [])] + [Advance([])] == [Advance([]), HealStep(0, []), Advance([])];
  }

  // The disable reads its batch and opens the one row of it.
  lemma RowIsOpened(s: State)
    requires s == Opening(SEALED_ROW, UnsealRead(KEY), HealRead(KEY))
    ensures Runs(s, [Advance(["m"]), Advance([])], Opening(CLEAR_ROW, UnsealRead(KEY), HealRead(KEY)))
  {
    assert UnsealBatch(s.disk.rows, ["m"]);
    var bodies := Bodies(s.disk.rows, ["m"]);
    assert bodies == [("m", Cipher(KEY, "m", TEXT))];
    var s1 := Opening(SEALED_ROW, UnsealWrite(KEY, bodies), HealRead(KEY));
    assert Step(s, Advance(["m"])) == s1;
    assert bodies[1..] == [];
    assert Step(s1, Advance([])) == Opening(CLEAR_ROW, UnsealRead(KEY), HealRead(KEY));
    RunsOn(s, [], s, Advance(["m"]));
    RunsOn(s, [] + [Advance(["m"])], s1, Advance([]));
    assert [] + [Advance(["m"])] + [Advance([])] == [Advance(["m"]), Advance([])];
  }

  lemma HealReadsRow(s: State)
    requires s == Opening(CLEAR_ROW, UnsealRead(KEY), HealRead(KEY))
    ensures Enabled(s, HealStep(0, ["m"]))
    ensures Step(s, HealStep(0, ["m"])) == Opening(CLEAR_ROW, UnsealRead(KEY), HealWrite(KEY, HELD))
  {
    assert SealBatch(s.disk.rows, ["m"]);
    assert Texts(s.disk.rows, ["m"]) == HELD;
  }

  lemma HealMeetsOpenRow(s0: State) returns (events: seq<Event>)
    requires s0 == Locked(map["m" := SEALED_ROW], {}, SAID)
    ensures Runs(s0, events, Opening(CLEAR_ROW, UnsealRead(KEY), HealWrite(KEY, HELD)))
  {
    var s1 := Step(s0, StartHeal);
    var s2 := Opening(SEALED_ROW, UnsealRead(KEY), HealRead(KEY));
    assert Step(s1, Disable) == s2;
    RunsOn(s0, [], s0, StartHeal);
    RunsOn(s0, [] + [StartHeal], s1, Disable);
    RowIsOpened(s2);
    var so := [] + [StartHeal] + [Disable];
    var s3 := Opening(CLEAR_ROW, UnsealRead(KEY), HealRead(KEY));
    RunsJoin(s0, so, s2, [Advance(["m"]), Advance([])], s3);
    HealReadsRow(s3);
    events := so + [Advance(["m"]), Advance([])];
    RunsOn(s0, events, s3, HealStep(0, ["m"]));
    events := events + [HealStep(0, ["m"])];
  }

  // A boot pass is still at work when the lock is taken off: it reads the row just opened, and
  // seals it again before the flags flip.
  lemma HealBesideDisableLoses() returns (events: seq<Event>, t: State)
    ensures Runs(INITIAL, events, t)
    ensures "m" in t.disk.rows && t.disk.flags.pubkey.None? && t.pass.DropBio? && !Readable("m", t)
  {
    var on := OneMessageSealed();
    var s0 := Locked(map["m" := SEALED_ROW], {}, SAID);
    var turned := HealMeetsOpenRow(s0);
    var s1 := Opening(CLEAR_ROW, UnsealRead(KEY), HealWrite(KEY, HELD));
    RunsJoin(INITIAL, on, s0, turned, s1);
    t := HealSealsBeforeFlip(s1);
    RunsJoin(INITIAL, on + turned, s1, [Advance([]), HealStep(0, []), Advance([])], t);
    events := on + turned + [Advance([]), HealStep(0, []), Advance([])];
  }
}
