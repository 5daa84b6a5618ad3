/**
 * The volatile actor state table as a mutable object. Each method is proved
 * against the pure specification in StateTableSpec: its new state is the
 * specification function applied to the old state, and the properties the
 * table promises are lemmas about those functions.
 */
module VolatileActorStateTables {
  import opened Wrappers
  import opened StateTableSpec

  class VolatileActorStateTable<V(==)> {
    var chains: map<StateKey, seq<Version<V>>>
    var pending: seq<int>
    var commits: set<int>
    var committedSequenceNumber: int
    var highestKnownSequenceNumber: int

    function State(): TableState<V>
      reads this
    {
      TableState(chains, pending, commits, committedSequenceNumber, highestKnownSequenceNumber)
    }

    ghost predicate Valid()
      reads this
    {
      StateTableSpec.Valid(State())
    }

    constructor ()
      ensures Valid() && State() == Empty()
    {
      chains := map[];
      pending := [];
      commits := {};
      committedSequenceNumber := 0;
      highestKnownSequenceNumber := 0;
    }

    function GetCommittedSequenceNumber(): (r: int)
      reads this
      requires Valid()
      ensures 0 <= r <= highestKnownSequenceNumber
    {
      committedSequenceNumber
    }

    function GetHighestKnownSequenceNumber(): (r: int)
      reads this
      requires Valid()
      ensures r >= committedSequenceNumber
    {
      highestKnownSequenceNumber
    }

    /** Stores the versions of one replication unit under a new sequence number, without making them visible. */
    method PrepareUpdate(updates: seq<StateUpdate<V>>, sequenceNumber: int)
      requires Valid() && highestKnownSequenceNumber < sequenceNumber
      modifies this
      ensures Valid()
      ensures State() == Prepare(old(State()), updates, sequenceNumber)
    {
      PrepareHidesUpdate(State(), updates, sequenceNumber);
      var i := 0;
      while i < |updates|
        invariant 0 <= i <= |updates|
        invariant chains == PrepareChains(old(chains), updates[..i], sequenceNumber)
        invariant unchanged(`pending, `commits, `committedSequenceNumber, `highestKnownSequenceNumber)
      {
        var u := updates[i];
        assert updates[..i + 1][..i] == updates[..i];
        var c := if u.target in chains then chains[u.target] else [];
        chains := chains[u.target := c + [Version(sequenceNumber, u.value, u.isDelete)]];
        i := i + 1;
      }
      assert updates[..i] == updates;
      pending := pending + [sequenceNumber];
      highestKnownSequenceNumber := sequenceNumber;
    }

    /** Records the commit of a prepared sequence number and releases the floor over every committed
        number at the head of the pending list. A number that is not pending changes nothing. */
    method CommitUpdate(sequenceNumber: int)
      requires Valid()
      modifies this
      ensures Valid()
      ensures State() == Commit(old(State()), sequenceNumber)
    {
      CommitKeepsValid(State(), sequenceNumber);
      if sequenceNumber !in pending {
        return;
      }
      commits := commits + {sequenceNumber};
      while pending != [] && pending[0] in commits
        invariant Advance(committedSequenceNumber, pending, commits)
               == Advance(old(committedSequenceNumber), old(pending), commits)
        invariant chains == old(chains) && commits == old(commits) + {sequenceNumber}
        invariant highestKnownSequenceNumber == old(highestKnownSequenceNumber)
        decreases |pending|
      {
        committedSequenceNumber := pending[0];
        pending := pending[1..];
      }
    }

    /** Prepares and commits one replication unit in a single step. */
    method ApplyUpdates(updates: seq<StateUpdate<V>>, sequenceNumber: int)
      requires Valid() && highestKnownSequenceNumber < sequenceNumber
      modifies this
      ensures Valid()
      ensures State() == Apply(old(State()), updates, sequenceNumber)
    {
      PrepareUpdate(updates, sequenceNumber);
      CommitUpdate(sequenceNumber);
    }

    /** Applies a batch of replication units in order. */
    method ApplyBatch(units: seq<ReplicationUnit<V>>)
      requires Valid() && Ascending(units, highestKnownSequenceNumber)
      modifies this
      ensures Valid()
      ensures State() == ApplyAll(old(State()), units)
    {
      var i := 0;
      while i < |units|
        invariant 0 <= i <= |units|
        invariant Valid()
        invariant Ascending(units[i..], highestKnownSequenceNumber)
        invariant ApplyAll(State(), units[i..]) == ApplyAll(old(State()), units)
      {
        ghost var before := State();
        ApplyUpdates(units[i].updates, units[i].sequenceNumber);
        assert units[i..][1..] == units[i + 1..];
        AscendingTail(units[i..], before.known);
        i := i + 1;
      }
    }

    /** The committed value of a key, or None when it is absent or deleted. */
    method TryGetValue(k: StateKey) returns (r: Option<V>)
      requires Valid()
      ensures r == Read(State(), k)
    {
      var c := if k in chains then chains[k] else [];
      var floor := committedSequenceNumber;
      var i := |c|;
      assert c[..i] == c;
      while i > 0 && c[i - 1].sequenceNumber > floor
        invariant 0 <= i <= |c|
        invariant Latest(c[..i], floor) == Latest(c, floor)
      {
        assert c[..i][..i - 1] == c[..i - 1];
        i := i - 1;
      }
      if i == 0 {
        r := None;
      } else {
        assert Latest(c[..i], floor) == Some(c[i - 1]);
        r := if c[i - 1].isDelete then None else Some(c[i - 1].value);
      }
    }

    /** The entries one chain contributes to a shallow-copies enumerator. */
    static method CopyChain(k: StateKey, c: seq<Version<V>>, floor: int, ceiling: int)
      returns (entries: set<SnapshotEntry<V>>)
      ensures entries == ChainEntries(k, c, floor, ceiling)
    {
      var bound := Min(ceiling, floor);
      var latest: Option<Version<V>> := None;
      var uncommitted: set<SnapshotEntry<V>> := {};
      var i := 0;
      while i < |c|
        invariant 0 <= i <= |c|
        invariant latest == Latest(c[..i], bound)
        invariant uncommitted == set v | v in c[..i] && floor < v.sequenceNumber <= ceiling :: SnapshotEntry(k, v, false)
      {
        assert c[..i + 1][..i] == c[..i];
        assert c[..i + 1] == c[..i] + [c[i]];
        if c[i].sequenceNumber <= bound {
          latest := Some(c[i]);
        }
        if floor < c[i].sequenceNumber <= ceiling {
          uncommitted := uncommitted + {SnapshotEntry(k, c[i], false)};
        }
        i := i + 1;
      }
      assert c[..i] == c;
      entries := (match latest case None => {} case Some(v) => {SnapshotEntry(k, v, true)}) + uncommitted;
    }

    /** The entries of every chain of a table state, collected one key at a time. */
    static method CopyChains(s: TableState<V>, ceiling: int) returns (entries: set<SnapshotEntry<V>>)
      ensures entries == Snapshot(s, ceiling)
    {
      var pending := s.chains.Keys;
      ghost var done: set<StateKey> := {};
      entries := {};
      while pending != {}
        invariant pending + done == s.chains.Keys && pending !! done
        invariant entries == SnapshotOf(s, done, ceiling)
        decreases |pending|
      {
        var k :| k in pending;
        var part := CopyChain(k, s.chains[k], s.committed, ceiling);
        SnapshotOfInsert(s, done, k, ceiling);
        entries := entries + part;
        pending := pending - {k};
        done := done + {k};
      }
    }

    /** The shallow-copies enumerator bounded by a sequence-number ceiling: for every key its latest
        version committed at or below the ceiling, plus every uncommitted version at or below it. */
    method GetShallowCopiesEnumerator(ceiling: int) returns (entries: set<SnapshotEntry<V>>)
      requires Valid()
      ensures entries == Snapshot(State(), ceiling)
    {
      entries := CopyChains(State(), ceiling);
    }

    /** The enumerator scoped to one state type: the committed entries of that type only. */
    method GetShallowCopiesEnumeratorForType(t: StateType) returns (entries: set<SnapshotEntry<V>>)
      requires Valid()
      ensures entries == TypeSnapshot(State(), t)
      ensures forall e :: e in entries ==> e.target.stateType == t && e.isCommitted
    {
      var all := GetShallowCopiesEnumerator(committedSequenceNumber);
      SnapshotBelowFloor(State(), committedSequenceNumber);
      entries := set e | e in all && e.target.stateType == t;
    }
  }
}
