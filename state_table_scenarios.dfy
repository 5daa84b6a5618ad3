/**
 * The concrete flows of the state table's unit tests, replayed against the
 * model. Each scenario drives a fresh table and returns what the test reads
 * back after each step: the committed value of the key it checks, the
 * committed sequence number and the highest known sequence number. One state
 * per replication unit stands for the tests' `statesPerReplication` copies.
 */
module StateTableScenarios {
  import opened Wrappers
  import opened StateTableSpec
  import opened VolatileActorStateTables

  datatype Observation = Observation(read: Option<int>, committed: int, known: int)

  function ActorKey(key: string): StateKey { StateKey(Actor, key) }

  function Write(k: StateKey, value: int): StateUpdate<int> { StateUpdate(k, value, false) }

  function Delete(k: StateKey): StateUpdate<int> { StateUpdate(k, 0, true) }

  method Observe(t: VolatileActorStateTable<int>, k: StateKey) returns (o: Observation)
    requires t.Valid()
    ensures o == Observation(Read(t.State(), k), t.committedSequenceNumber, t.highestKnownSequenceNumber)
  {
    var r := t.TryGetValue(k);
    o := Observation(r, t.committedSequenceNumber, t.highestKnownSequenceNumber);
  }

  /** Prepares one update on a fully committed table, observes its key, commits it and observes
      again: the first observation still shows the old value, the second shows the update. */
  method Replicate(t: VolatileActorStateTable<int>, u: StateUpdate<int>, sn: int)
    returns (prepared: Observation, committed: Observation)
    requires t.Valid() && t.pending == [] && t.highestKnownSequenceNumber < sn
    modifies t
    ensures t.Valid() && t.pending == [] && t.commits == old(t.commits) + {sn}
    ensures t.committedSequenceNumber == sn && t.highestKnownSequenceNumber == sn
    ensures prepared == Observation(old(Read(t.State(), u.target)), old(t.committedSequenceNumber), sn)
    ensures committed == Observation(if u.isDelete then None else Some(u.value), sn, sn)
    ensures forall k :: k != u.target ==> Read(t.State(), k) == old(Read(t.State(), k))
    ensures Chain(t.chains, u.target) == old(Chain(t.chains, u.target)) + [Version(sn, u.value, u.isDelete)]
    ensures forall k :: k != u.target ==> Chain(t.chains, k) == old(Chain(t.chains, k))
  {
    PrepareHidesUpdate(t.State(), [u], sn);
    ApplyPublishes(t.State(), [u], sn);
    PrepareChainsAt(t.chains, [u], sn, u.target);
    forall k | k != u.target
      ensures Chain(Prepare(t.State(), [u], sn).chains, k) == Chain(t.chains, k)
    {
      PrepareLeavesOtherKeys(t.State(), [u], sn, k);
    }
    t.PrepareUpdate([u], sn);
    prepared := Observe(t, u.target);
    t.CommitUpdate(sn);
    committed := Observe(t, u.target);
  }

  /** Prepares a single write of `k`, stamped `sn`. */
  method PrepareWrite(t: VolatileActorStateTable<int>, k: StateKey, value: int, sn: int)
    requires t.Valid() && t.highestKnownSequenceNumber < sn
    modifies t
    ensures t.Valid()
    ensures t.pending == old(t.pending) + [sn] && t.commits == old(t.commits)
    ensures t.committedSequenceNumber == old(t.committedSequenceNumber) && t.highestKnownSequenceNumber == sn
    ensures Chain(t.chains, k) == old(Chain(t.chains, k)) + [Version(sn, value, false)]
    ensures forall k' :: k' != k ==> Chain(t.chains, k') == old(Chain(t.chains, k'))
  {
    PrepareSingle(t.State(), k, value, sn);
    t.PrepareUpdate([Write(k, value)], sn);
  }

  /** In-order prepare and commit: a prepared key is unreadable while the committed number lags one
      behind the known one; its commit makes it readable and brings the two together. */
  method InOrderPrepareCommit() returns (observed: seq<Observation>)
    ensures observed == [Observation(None, 0, 1), Observation(Some(1), 1, 1),
                         Observation(None, 1, 2), Observation(Some(2), 2, 2),
                         Observation(None, 2, 3), Observation(Some(3), 3, 3)]
  {
    var t := new VolatileActorStateTable<int>();
    var o1, o2 := Replicate(t, Write(ActorKey("a"), 1), 1);
    var o3, o4 := Replicate(t, Write(ActorKey("b"), 2), 2);
    var o5, o6 := Replicate(t, Write(ActorKey("c"), 3), 3);
    observed := [o1, o2, o3, o4, o5, o6];
  }

  /** A prepared update of an existing key leaves the old value readable until it commits. */
  method UpdateCommit() returns (observed: seq<Observation>)
    ensures observed == [Observation(None, 0, 1), Observation(Some(8), 1, 1),
                         Observation(Some(8), 1, 2), Observation(Some(16), 2, 2)]
  {
    var t := new VolatileActorStateTable<int>();
    var x := ActorKey("a-commit");
    var o1, o2 := Replicate(t, Write(x, 8), 1);
    var o3, o4 := Replicate(t, Write(x, 16), 2);
    observed := [o1, o2, o3, o4];
  }

  /** A committed delete makes the key unreadable; re-creating it makes it readable again. */
  method CreateDeleteRecreate() returns (observed: seq<Observation>)
    ensures observed == [Observation(None, 0, 1), Observation(Some(1), 1, 1),
                         Observation(Some(1), 1, 2), Observation(None, 2, 2),
                         Observation(None, 2, 3), Observation(Some(1), 3, 3)]
  {
    var t := new VolatileActorStateTable<int>();
    var x := ActorKey("x");
    var o1, o2 := Replicate(t, Write(x, 1), 1);
    var o3, o4 := Replicate(t, Delete(x), 2);
    var o5, o6 := Replicate(t, Write(x, 1), 3);
    observed := [o1, o2, o3, o4, o5, o6];
  }

  /** Deleting a key that was never written is accepted and commits; other keys stay readable. */
  method DeleteMissingKey() returns (observed: seq<Observation>, exists_: Option<int>)
    ensures observed == [Observation(None, 1, 2), Observation(None, 2, 2)]
    ensures exists_ == Some(1)
  {
    var t := new VolatileActorStateTable<int>();
    var _, _ := Replicate(t, Write(ActorKey("Exists"), 1), 1);
    var o1, o2 := Replicate(t, Delete(ActorKey("NotFound")), 2);
    observed := [o1, o2];
    exists_ := t.TryGetValue(ActorKey("Exists"));
  }

  /** A table holding the key "Exists" under all three state types, committed at 1, 2 and 3. */
  method WriteAllTypes() returns (t: VolatileActorStateTable<int>)
    ensures fresh(t) && t.Valid() && t.pending == [] && t.highestKnownSequenceNumber == 3
    ensures Read(t.State(), StateKey(Actor, "Exists")) == Some(1)
    ensures Read(t.State(), StateKey(LogicalTimestamp, "Exists")) == Some(42)
    ensures Read(t.State(), StateKey(Reminder, "Exists")) == Some(7)
  {
    t := new VolatileActorStateTable<int>();
    var _, _ := Replicate(t, Write(StateKey(Actor, "Exists"), 1), 1);
    var _, _ := Replicate(t, Write(StateKey(LogicalTimestamp, "Exists"), 42), 2);
    var _, _ := Replicate(t, Write(StateKey(Reminder, "Exists"), 7), 3);
  }

  /** The same key under the three state types: deleting the logical timestamp leaves the reminder
      and the actor state readable, and deleting the reminder then leaves the actor state readable. */
  method DeleteAcrossTypes() returns (afterFirst: seq<Option<int>>, afterSecond: seq<Option<int>>)
    ensures afterFirst == [None, Some(7), Some(1)]
    ensures afterSecond == [None, None, Some(1)]
  {
    var t := WriteAllTypes();
    var actor, timestamp, reminder :=
      StateKey(Actor, "Exists"), StateKey(LogicalTimestamp, "Exists"), StateKey(Reminder, "Exists");
    var _, _ := Replicate(t, Delete(timestamp), 4);
    var r1 := t.TryGetValue(timestamp);
    var r2 := t.TryGetValue(reminder);
    var r3 := t.TryGetValue(actor);
    afterFirst := [r1, r2, r3];
    var _, _ := Replicate(t, Delete(reminder), 5);
    r1 := t.TryGetValue(timestamp);
    r2 := t.TryGetValue(reminder);
    r3 := t.TryGetValue(actor);
    afterSecond := [r1, r2, r3];
  }

  /** A table at committed number 6 with g prepared at 7. */
  method PrepareG() returns (t: VolatileActorStateTable<int>)
    ensures fresh(t) && t.Valid()
    ensures t.pending == [7] && t.committedSequenceNumber == 6 && t.highestKnownSequenceNumber == 7
    ensures t.commits == {6}
    ensures Chain(t.chains, ActorKey("g")) == [Version(7, 103, false)]
    ensures Chain(t.chains, ActorKey("h")) == [] && Chain(t.chains, ActorKey("i")) == []
  {
    t := new VolatileActorStateTable<int>();
    var _, _ := Replicate(t, Write(ActorKey("f"), 12), 6);
    PrepareWrite(t, ActorKey("g"), 103, 7);
  }

  /** A table at committed number 6 with g, h and i prepared at 7, 8 and 9. */
  method PrepareGhi() returns (t: VolatileActorStateTable<int>)
    ensures fresh(t) && t.Valid()
    ensures t.pending == [7, 8, 9] && t.committedSequenceNumber == 6 && t.highestKnownSequenceNumber == 9
    ensures 7 !in t.commits && 8 !in t.commits && 9 !in t.commits
    ensures Chain(t.chains, ActorKey("g")) == [Version(7, 103, false)]
    ensures Chain(t.chains, ActorKey("h")) == [Version(8, 104, false)]
    ensures Chain(t.chains, ActorKey("i")) == [Version(9, 105, false)]
  {
    t := PrepareG();
    PrepareWrite(t, ActorKey("h"), 104, 8);
    PrepareWrite(t, ActorKey("i"), 105, 9);
  }

  /** Out-of-order commits over a floor of 6: g, h and i are prepared at 7, 8 and 9; committing 9
      and then 8 leaves them unreadable at committed number 6, and committing 7 releases all three
      at committed number 9. */
  method OutOfOrderCommits() returns (observed: seq<Observation>)
    ensures observed == [Observation(None, 6, 9), Observation(None, 6, 9),
                         Observation(Some(103), 9, 9), Observation(Some(104), 9, 9), Observation(Some(105), 9, 9)]
  {
    var t := PrepareGhi();
    var g, h, i := ActorKey("g"), ActorKey("h"), ActorKey("i");
    OutOfOrderCommitHidden(t.State(), 9);
    t.CommitUpdate(9);
    var o1 := Observe(t, i);
    OutOfOrderCommitHidden(t.State(), 8);
    t.CommitUpdate(8);
    var o2 := Observe(t, h);
    ClosingCommitPublishes(t.State(), 2);
    CommitKeepsValid(t.State(), 7);
    t.CommitUpdate(7);
    var o3 := Observe(t, g);
    var o4 := Observe(t, h);
    var o5 := Observe(t, i);
    observed := [o1, o2, o3, o4, o5];
  }

  /** w and x written with 1 and committed at 1 and 2. */
  method CommitTwo() returns (t: VolatileActorStateTable<int>)
    ensures fresh(t) && t.Valid() && t.pending == [] && t.commits == {1, 2}
    ensures t.committedSequenceNumber == 2 && t.highestKnownSequenceNumber == 2
    ensures Chain(t.chains, ActorKey("w")) == [Version(1, 1, false)]
    ensures Chain(t.chains, ActorKey("x")) == [Version(2, 1, false)]
    ensures forall k :: k !in {ActorKey("w"), ActorKey("x")} ==> Chain(t.chains, k) == []
  {
    t := new VolatileActorStateTable<int>();
    var _, _ := Replicate(t, Write(ActorKey("w"), 1), 1);
    var _, _ := Replicate(t, Write(ActorKey("x"), 1), 2);
  }

  /** w, x, y and z written with 1 and committed at 1, 2, 3 and 4. */
  method CommitFour() returns (t: VolatileActorStateTable<int>)
    ensures fresh(t) && t.Valid() && t.pending == [] && t.commits == {1, 2, 3, 4}
    ensures t.committedSequenceNumber == 4 && t.highestKnownSequenceNumber == 4
    ensures Chain(t.chains, ActorKey("w")) == [Version(1, 1, false)]
    ensures Chain(t.chains, ActorKey("x")) == [Version(2, 1, false)]
    ensures Chain(t.chains, ActorKey("y")) == [Version(3, 1, false)]
    ensures Chain(t.chains, ActorKey("z")) == [Version(4, 1, false)]
    ensures forall k :: k !in {ActorKey("w"), ActorKey("x"), ActorKey("y"), ActorKey("z")} ==> Chain(t.chains, k) == []
  {
    t := CommitTwo();
    var _, _ := Replicate(t, Write(ActorKey("y"), 1), 3);
    var _, _ := Replicate(t, Write(ActorKey("z"), 1), 4);
  }

  /** The table of CommitFour with w and y written with 2 and prepared at 5 and 6. */
  method PrepareWY() returns (t: VolatileActorStateTable<int>)
    ensures fresh(t) && t.Valid()
    ensures t.pending == [5, 6] && t.commits == {1, 2, 3, 4}
    ensures t.committedSequenceNumber == 4 && t.highestKnownSequenceNumber == 6
    ensures Chain(t.chains, ActorKey("w")) == [Version(1, 1, false), Version(5, 2, false)]
    ensures Chain(t.chains, ActorKey("y")) == [Version(3, 1, false), Version(6, 2, false)]
    ensures Chain(t.chains, ActorKey("x")) == [Version(2, 1, false)]
    ensures Chain(t.chains, ActorKey("z")) == [Version(4, 1, false)]
    ensures forall k :: k !in {ActorKey("w"), ActorKey("x"), ActorKey("y"), ActorKey("z")} ==> Chain(t.chains, k) == []
  {
    t := CommitFour();
    PrepareWrite(t, ActorKey("w"), 2, 5);
    PrepareWrite(t, ActorKey("y"), 2, 6);
  }

  /** The table of PrepareWY with a written with 2 and prepared at 7. */
  method PrepareA() returns (t: VolatileActorStateTable<int>)
    ensures fresh(t) && t.Valid()
    ensures t.pending == [5, 6, 7] && t.commits == {1, 2, 3, 4}
    ensures t.committedSequenceNumber == 4 && t.highestKnownSequenceNumber == 7
    ensures Chain(t.chains, ActorKey("w")) == [Version(1, 1, false), Version(5, 2, false)]
    ensures Chain(t.chains, ActorKey("x")) == [Version(2, 1, false)]
    ensures Chain(t.chains, ActorKey("y")) == [Version(3, 1, false), Version(6, 2, false)]
    ensures Chain(t.chains, ActorKey("z")) == [Version(4, 1, false)]
    ensures Chain(t.chains, ActorKey("a")) == [Version(7, 2, false)]
    ensures Chain(t.chains, ActorKey("b")) == [] && Chain(t.chains, ActorKey("c")) == []
  {
    t := PrepareWY();
    PrepareWrite(t, ActorKey("a"), 2, 7);
  }

  /** The table of PrepareA with b and c written with 2 and prepared at 8 and 9. */
  method SnapshotFixture() returns (t: VolatileActorStateTable<int>)
    ensures fresh(t) && t.Valid()
    ensures t.pending == [5, 6, 7, 8, 9] && t.commits == {1, 2, 3, 4}
    ensures t.committedSequenceNumber == 4 && t.highestKnownSequenceNumber == 9
    ensures Chain(t.chains, ActorKey("w")) == [Version(1, 1, false), Version(5, 2, false)]
    ensures Chain(t.chains, ActorKey("x")) == [Version(2, 1, false)]
    ensures Chain(t.chains, ActorKey("y")) == [Version(3, 1, false), Version(6, 2, false)]
    ensures Chain(t.chains, ActorKey("z")) == [Version(4, 1, false)]
    ensures Chain(t.chains, ActorKey("a")) == [Version(7, 2, false)]
    ensures Chain(t.chains, ActorKey("b")) == [Version(8, 2, false)]
    ensures Chain(t.chains, ActorKey("c")) == [Version(9, 2, false)]
  {
    t := PrepareA();
    PrepareWrite(t, ActorKey("b"), 2, 8);
    PrepareWrite(t, ActorKey("c"), 2, 9);
  }

  const LongMaxValue: int := 0x7FFF_FFFF_FFFF_FFFF

  /** On the fixture table, the snapshot bounded by 4 holds only committed versions at or below 4,
      among them w's first version, and the snapshot bounded by the largest sequence number also
      holds the uncommitted versions of w and c. */
  method SnapshotsOfFixture(t: VolatileActorStateTable<int>)
    returns (committedSnapshot: set<SnapshotEntry<int>>, knownSnapshot: set<SnapshotEntry<int>>)
    requires t.Valid() && t.committedSequenceNumber == 4
    requires Chain(t.chains, ActorKey("w")) == [Version(1, 1, false), Version(5, 2, false)]
    requires Chain(t.chains, ActorKey("c")) == [Version(9, 2, false)]
    ensures committedSnapshot == Snapshot(t.State(), 4)
    ensures forall e :: e in committedSnapshot ==> e.isCommitted && e.version.sequenceNumber <= 4
    ensures SnapshotEntry(ActorKey("w"), Version(1, 1, false), true) in committedSnapshot
    ensures SnapshotEntry(ActorKey("w"), Version(5, 2, false), false) in knownSnapshot
    ensures SnapshotEntry(ActorKey("c"), Version(9, 2, false), false) in knownSnapshot
  {
    committedSnapshot := t.GetShallowCopiesEnumerator(4);
    knownSnapshot := t.GetShallowCopiesEnumerator(LongMaxValue);
    SnapshotBelowFloor(t.State(), 4);
    var w, c := ActorKey("w"), ActorKey("c");
    assert Latest(t.chains[w], 4) == Some(Version(1, 1, false));
    assert SnapshotEntry(w, Version(1, 1, false), true) in ChainEntries(w, t.chains[w], 4, 4);
    assert SnapshotEntry(w, Version(5, 2, false), false) in ChainEntries(w, t.chains[w], 4, LongMaxValue);
    assert SnapshotEntry(c, Version(9, 2, false), false) in ChainEntries(c, t.chains[c], 4, LongMaxValue);
  }

  /** Commits 5, 6 and 7 in order on the fixture table; a snapshot bounded by 4 is the same before
      and after. */
  method CommitFiveToSeven(t: VolatileActorStateTable<int>)
    requires t.Valid() && t.pending == [5, 6, 7, 8, 9] && t.commits == {1, 2, 3, 4}
    requires t.committedSequenceNumber == 4 && t.highestKnownSequenceNumber == 9
    modifies t
    ensures t.Valid() && t.chains == old(t.chains)
    ensures t.committedSequenceNumber == 7 && t.highestKnownSequenceNumber == 9
    ensures Snapshot(t.State(), 4) == old(Snapshot(t.State(), 4))
  {
    SnapshotStableUnderCommit(t.State(), 5, 4);
    CommitHead(t.State());
    t.CommitUpdate(5);
    SnapshotStableUnderCommit(t.State(), 6, 4);
    CommitHead(t.State());
    t.CommitUpdate(6);
    SnapshotStableUnderCommit(t.State(), 7, 4);
    CommitHead(t.State());
    t.CommitUpdate(7);
  }

  /** Snapshot isolation: snapshots taken on the fixture table, then the commits of 5, 6 and 7,
      after which a snapshot bounded by 4 equals the earlier one and reads see x, z, w, y and a but
      not b or c. */
  method SnapshotIsolation()
    returns (committedSnapshot: set<SnapshotEntry<int>>, knownSnapshot: set<SnapshotEntry<int>>,
             laterSnapshot: set<SnapshotEntry<int>>, observed: seq<Option<int>>, committed: int, known: int)
    ensures forall e :: e in committedSnapshot ==> e.isCommitted && e.version.sequenceNumber <= 4
    ensures SnapshotEntry(ActorKey("w"), Version(1, 1, false), true) in committedSnapshot
    ensures SnapshotEntry(ActorKey("w"), Version(5, 2, false), false) in knownSnapshot
    ensures SnapshotEntry(ActorKey("c"), Version(9, 2, false), false) in knownSnapshot
    ensures laterSnapshot == committedSnapshot
    ensures observed == [Some(1), Some(1), Some(2), Some(2), Some(2), None, None]
    ensures committed == 7 && known == 9
  {
    var t := SnapshotFixture();
    committedSnapshot, knownSnapshot := SnapshotsOfFixture(t);
    CommitFiveToSeven(t);
    laterSnapshot := t.GetShallowCopiesEnumerator(4);
    var rx := t.TryGetValue(ActorKey("x"));
    var rz := t.TryGetValue(ActorKey("z"));
    var rw := t.TryGetValue(ActorKey("w"));
    var ry := t.TryGetValue(ActorKey("y"));
    var ra := t.TryGetValue(ActorKey("a"));
    var rb := t.TryGetValue(ActorKey("b"));
    var rc := t.TryGetValue(ActorKey("c"));
    observed := [rx, rz, rw, ry, ra, rb, rc];
    committed, known := t.committedSequenceNumber, t.highestKnownSequenceNumber;
  }
}
