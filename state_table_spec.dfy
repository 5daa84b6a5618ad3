/**
 * Abstract state of the volatile actor state table and the pure functions that
 * specify its operations.
 *
 * Every (state type, key) pair owns a chain of versions, oldest first. A
 * version is stamped with the sequence number of the replication unit that
 * wrote it; deletes are stored as tombstone versions. Sequence numbers are
 * first prepared, in increasing order (the highest one is `known`), and then
 * committed in any order. `pending` lists, in order, the prepared numbers
 * above the floor; `commits` holds the numbers whose commit has arrived; and
 * `committed` is the floor: it moves past a pending number only once that
 * number and every pending number before it have been committed. Reads and
 * committed snapshots see only versions at or below the floor.
 */
module StateTableSpec {
  import opened Wrappers

  datatype StateType = Actor | LogicalTimestamp | Reminder

  datatype StateKey = StateKey(stateType: StateType, key: string)

  /** One change carried by a replication unit: a write of `value`, or a delete. */
  datatype StateUpdate<V> = StateUpdate(target: StateKey, value: V, isDelete: bool)

  datatype Version<V> = Version(sequenceNumber: int, value: V, isDelete: bool)

  /** One entry produced by a shallow-copies enumerator. */
  datatype SnapshotEntry<V> = SnapshotEntry(target: StateKey, version: Version<V>, isCommitted: bool)

  datatype TableState<V> = TableState(
    chains: map<StateKey, seq<Version<V>>>,
    pending: seq<int>,
    commits: set<int>,
    committed: int,
    known: int)

  function Min(a: int, b: int): int { if a <= b then a else b }

  function Chain<V>(chains: map<StateKey, seq<Version<V>>>, k: StateKey): seq<Version<V>>
  {
    if k in chains then chains[k] else []
  }

  /** Versions are stamped 1..known and appear in non-decreasing sequence-number order. */
  ghost predicate ChainValid<V>(c: seq<Version<V>>, known: int)
  {
    && (forall i :: 0 <= i < |c| ==> 0 < c[i].sequenceNumber <= known)
    && (forall i, j :: 0 <= i < j < |c| ==> c[i].sequenceNumber <= c[j].sequenceNumber)
  }

  /** Pending numbers are strictly increasing and lie above `floor`, at or below `known`. */
  ghost predicate PendingValid(pending: seq<int>, floor: int, known: int)
  {
    && (forall i :: 0 <= i < |pending| ==> floor < pending[i] <= known)
    && (forall i, j :: 0 <= i < j < |pending| ==> pending[i] < pending[j])
  }

  ghost predicate Valid<V>(s: TableState<V>)
  {
    && 0 <= s.committed <= s.known
    && PendingValid(s.pending, s.committed, s.known)
    && s.known == (if s.pending == [] then s.committed else s.pending[|s.pending| - 1])
    && (s.pending == [] || s.pending[0] !in s.commits)
    && (forall n :: n in s.commits ==> n <= s.known)
    && (forall k :: k in s.chains ==> ChainValid(s.chains[k], s.known))
  }

  function Empty<V>(): (s: TableState<V>)
    ensures Valid(s)
  {
    TableState(map[], [], {}, 0, 0)
  }

  /** The last version of `c` stamped at or below `ceiling`. */
  function Latest<V>(c: seq<Version<V>>, ceiling: int): (r: Option<Version<V>>)
    ensures r.None? <==> forall i :: 0 <= i < |c| ==> c[i].sequenceNumber > ceiling
    ensures r.Some? ==> exists i :: 0 <= i < |c| && c[i] == r.value && c[i].sequenceNumber <= ceiling
                                    && forall j :: i < j < |c| ==> c[j].sequenceNumber > ceiling
  {
    if c == [] then None
    else if c[|c| - 1].sequenceNumber <= ceiling then Some(c[|c| - 1])
    else Latest(c[..|c| - 1], ceiling)
  }

  /** The committed value of `k`, absent when never written or when its latest committed version is a delete. */
  function Read<V>(s: TableState<V>, k: StateKey): Option<V>
  {
    match Latest(Chain(s.chains, k), s.committed)
    case None => None
    case Some(v) => if v.isDelete then None else Some(v.value)
  }

  /** Versions that `updates`, stamped `sn`, add to the chain of `k`, in update order. */
  function VersionsFor<V>(updates: seq<StateUpdate<V>>, k: StateKey, sn: int): (r: seq<Version<V>>)
    ensures |r| <= |updates|
    ensures forall i :: 0 <= i < |r| ==> r[i].sequenceNumber == sn
    ensures forall i :: 0 <= i < |r| ==> exists j :: 0 <= j < |updates| && updates[j].target == k
                                                    && r[i] == Version(sn, updates[j].value, updates[j].isDelete)
    ensures r == [] <==> forall j :: 0 <= j < |updates| ==> updates[j].target != k
  {
    if updates == [] then []
    else
      var u := updates[|updates| - 1];
      VersionsFor(updates[..|updates| - 1], k, sn)
        + (if u.target == k then [Version(sn, u.value, u.isDelete)] else [])
  }

  /** The last update in `updates` that targets `k`. */
  function LastUpdateFor<V>(updates: seq<StateUpdate<V>>, k: StateKey): (r: Option<StateUpdate<V>>)
    ensures r.Some? ==> r.value in updates && r.value.target == k
    ensures r.Some? ==> exists i :: 0 <= i < |updates| && updates[i] == r.value
                                    && forall j :: i < j < |updates| ==> updates[j].target != k
    ensures r.None? <==> forall i :: 0 <= i < |updates| ==> updates[i].target != k
  {
    if updates == [] then None
    else if updates[|updates| - 1].target == k then Some(updates[|updates| - 1])
    else LastUpdateFor(updates[..|updates| - 1], k)
  }

  /** The chains after appending the versions of `updates`, in update order. */
  function PrepareChains<V>(chains: map<StateKey, seq<Version<V>>>, updates: seq<StateUpdate<V>>, sn: int)
    : map<StateKey, seq<Version<V>>>
  {
    if updates == [] then chains
    else
      var p := PrepareChains(chains, updates[..|updates| - 1], sn);
      var u := updates[|updates| - 1];
      p[u.target := Chain(p, u.target) + [Version(sn, u.value, u.isDelete)]]
  }

  /** Prepare a replication unit: its versions are stored but stay invisible until committed. */
  function Prepare<V>(s: TableState<V>, updates: seq<StateUpdate<V>>, sn: int): (r: TableState<V>)
    ensures r.committed == s.committed && r.commits == s.commits
    ensures r.pending == s.pending + [sn] && r.known == sn
  {
    s.(chains := PrepareChains(s.chains, updates, sn), pending := s.pending + [sn], known := sn)
  }

  /** The floor and pending list after releasing every committed number at the head of `pending`. */
  datatype Release = Release(floor: int, rest: seq<int>)

  /** Release the committed numbers at the head of `pending`, stopping at the first uncommitted one;
      the floor becomes the last number released. */
  function Advance(floor: int, pending: seq<int>, commits: set<int>): (r: Release)
    ensures r.rest == [] || r.rest[0] !in commits
    decreases |pending|
  {
    if pending != [] && pending[0] in commits then Advance(pending[0], pending[1..], commits)
    else Release(floor, pending)
  }

  /** Commit sequence number `sn`. A number that is not pending (never prepared, or already below
      the floor) changes nothing; otherwise it is recorded and the floor is released as far as the
      commits allow. */
  function Commit<V>(s: TableState<V>, sn: int): (r: TableState<V>)
    ensures r.chains == s.chains && r.known == s.known
    ensures sn !in s.pending ==> r == s
    ensures sn in s.pending ==> sn in r.commits && (r.pending == [] || r.pending[0] !in r.commits)
  {
    if sn !in s.pending then s
    else
      var commits := s.commits + {sn};
      var r := Advance(s.committed, s.pending, commits);
      s.(pending := r.rest, commits := commits, committed := r.floor)
  }

  /** Prepare and commit in one step. */
  function Apply<V>(s: TableState<V>, updates: seq<StateUpdate<V>>, sn: int): (r: TableState<V>)
    ensures r.chains == PrepareChains(s.chains, updates, sn) && r.known == sn && sn in r.commits
  {
    Commit(Prepare(s, updates, sn), sn)
  }

  /** Entries a shallow-copies enumerator yields for one chain: the latest version committed at or
      below the ceiling (tombstones included), then every uncommitted version at or below it. */
  function ChainEntries<V(==)>(k: StateKey, c: seq<Version<V>>, floor: int, ceiling: int): set<SnapshotEntry<V>>
  {
    (match Latest(c, Min(ceiling, floor))
     case None => {}
     case Some(v) => {SnapshotEntry(k, v, true)})
    + (set v | v in c && floor < v.sequenceNumber <= ceiling :: SnapshotEntry(k, v, false))
  }

  /** Snapshot of the chains whose keys are in `keys`. */
  function SnapshotOf<V(==)>(s: TableState<V>, keys: set<StateKey>, ceiling: int): set<SnapshotEntry<V>>
  {
    set k, e | k in keys && k in s.chains && e in ChainEntries(k, s.chains[k], s.committed, ceiling) :: e
  }

  function Snapshot<V(==)>(s: TableState<V>, ceiling: int): set<SnapshotEntry<V>>
  {
    SnapshotOf(s, s.chains.Keys, ceiling)
  }

  /** The committed entries of one state type. */
  function TypeSnapshot<V(==)>(s: TableState<V>, t: StateType): (r: set<SnapshotEntry<V>>)
    ensures forall e :: e in r ==> e.target.stateType == t && e.isCommitted && e.version.sequenceNumber <= s.committed
  {
    SnapshotEntriesGenuine(s, s.committed);
    set e | e in Snapshot(s, s.committed) && e.target.stateType == t
  }

  // ---------------------------------------------------------------------------
  // Lemmas
  // ---------------------------------------------------------------------------

  /** A read returns the value of the last version at or below the committed number, provided that
      version is not a delete; a key with no version at or below it reads nothing. */
  lemma ReadIsLatestCommitted<V>(s: TableState<V>, k: StateKey)
    ensures var c := Chain(s.chains, k);
            Read(s, k).Some? ==> exists i :: 0 <= i < |c| && c[i].sequenceNumber <= s.committed && !c[i].isDelete
                                            && c[i].value == Read(s, k).value
                                            && forall j :: i < j < |c| ==> c[j].sequenceNumber > s.committed
    ensures var c := Chain(s.chains, k);
            (forall i :: 0 <= i < |c| ==> c[i].sequenceNumber > s.committed) ==> Read(s, k).None?
  {
  }

  /** Every entry of one chain's part of a snapshot is a version of that chain at or below the
      ceiling, flagged committed exactly when it is at or below the floor. */
  lemma ChainEntriesGenuine<V>(k: StateKey, c: seq<Version<V>>, floor: int, ceiling: int)
    ensures forall e :: e in ChainEntries(k, c, floor, ceiling) ==>
              && e.target == k && e.version in c && e.version.sequenceNumber <= ceiling
              && (e.isCommitted <==> e.version.sequenceNumber <= floor)
  {
  }

  /** The entries a shallow-copies enumerator bounded by `ceiling` yields are stored versions at or
      below the ceiling, flagged committed exactly when they are at or below the committed number. */
  lemma SnapshotEntriesGenuine<V>(s: TableState<V>, ceiling: int)
    ensures forall e :: e in Snapshot(s, ceiling) ==>
              && e.target in s.chains && e.version in s.chains[e.target] && e.version.sequenceNumber <= ceiling
              && (e.isCommitted <==> e.version.sequenceNumber <= s.committed)
  {
    forall e | e in Snapshot(s, ceiling)
      ensures e.target in s.chains && e.version in s.chains[e.target] && e.version.sequenceNumber <= ceiling
      ensures e.isCommitted <==> e.version.sequenceNumber <= s.committed
    {
      var k :| k in s.chains && e in ChainEntries(k, s.chains[k], s.committed, ceiling);
      ChainEntriesGenuine(k, s.chains[k], s.committed, ceiling);
    }
  }

  lemma {:induction false} PrepareChainsAt<V>(chains: map<StateKey, seq<Version<V>>>, updates: seq<StateUpdate<V>>,
                                              sn: int, k: StateKey)
    ensures Chain(PrepareChains(chains, updates, sn), k) == Chain(chains, k) + VersionsFor(updates, k, sn)
    decreases |updates|
  {
    if updates != [] {
      PrepareChainsAt(chains, updates[..|updates| - 1], sn, k);
    }
  }

  lemma {:induction false} PrepareChainsKeys<V>(chains: map<StateKey, seq<Version<V>>>, updates: seq<StateUpdate<V>>,
                                                sn: int)
    ensures PrepareChains(chains, updates, sn).Keys == chains.Keys + set u | u in updates :: u.target
    decreases |updates|
  {
    if updates != [] {
      var front := updates[..|updates| - 1];
      PrepareChainsKeys(chains, front, sn);
      assert updates == front + [updates[|updates| - 1]];
    }
  }

  /** Appending versions stamped above the ceiling does not change what is visible below it. */
  lemma {:induction false} LatestIgnoresLater<V>(c: seq<Version<V>>, extra: seq<Version<V>>, ceiling: int)
    requires forall i :: 0 <= i < |extra| ==> extra[i].sequenceNumber > ceiling
    ensures Latest(c + extra, ceiling) == Latest(c, ceiling)
    decreases |extra|
  {
    if extra != [] {
      var front := extra[..|extra| - 1];
      assert (c + extra)[..|c + extra| - 1] == c + front;
      assert (c + extra)[|c + extra| - 1] == extra[|extra| - 1];
      LatestIgnoresLater(c, front, ceiling);
    } else {
      assert c + extra == c;
    }
  }

  /** When the ceiling covers the whole chain, the latest version is the last one. */
  lemma LatestOfCovered<V>(c: seq<Version<V>>, ceiling: int)
    requires c != [] && c[|c| - 1].sequenceNumber <= ceiling
    ensures Latest(c, ceiling) == Some(c[|c| - 1])
  {
  }

  lemma {:induction false} VersionsForLast<V>(updates: seq<StateUpdate<V>>, k: StateKey, sn: int)
    ensures var vs := VersionsFor(updates, k, sn);
            match LastUpdateFor(updates, k)
            case None => vs == []
            case Some(u) => vs != [] && vs[|vs| - 1] == Version(sn, u.value, u.isDelete)
    decreases |updates|
  {
    if updates != [] {
      VersionsForLast(updates[..|updates| - 1], k, sn);
    }
  }

  lemma {:induction false} PrepareChainsValid<V>(chains: map<StateKey, seq<Version<V>>>, updates: seq<StateUpdate<V>>,
                                                 known: int, sn: int)
    requires forall k :: k in chains ==> ChainValid(chains[k], known)
    requires 0 <= known < sn
    ensures forall k :: k in PrepareChains(chains, updates, sn) ==> ChainValid(PrepareChains(chains, updates, sn)[k], sn)
  {
    var p := PrepareChains(chains, updates, sn);
    forall k | k in p
      ensures ChainValid(p[k], sn)
    {
      PrepareChainsAt(chains, updates, sn, k);
      assert p[k] == Chain(chains, k) + VersionsFor(updates, k, sn);
    }
  }

  lemma PendingAppend(pending: seq<int>, floor: int, known: int, sn: int)
    requires PendingValid(pending, floor, known) && floor <= known < sn
    ensures PendingValid(pending + [sn], floor, sn)
  {
  }

  /** Releasing keeps the pending list strictly increasing above the new floor, with the highest
      known number still its last element (or the floor, once nothing is pending). */
  lemma {:induction false} AdvanceKeepsPending(floor: int, pending: seq<int>, commits: set<int>, known: int)
    requires PendingValid(pending, floor, known) && floor <= known
    requires known == (if pending == [] then floor else pending[|pending| - 1])
    ensures var r := Advance(floor, pending, commits);
            && floor <= r.floor <= known
            && PendingValid(r.rest, r.floor, known)
            && known == (if r.rest == [] then r.floor else r.rest[|r.rest| - 1])
    decreases |pending|
  {
    if pending != [] && pending[0] in commits {
      var tail := pending[1..];
      assert PendingValid(tail, pending[0], known) by {
        forall i | 0 <= i < |tail|
          ensures pending[0] < tail[i] <= known
        {
          assert tail[i] == pending[i + 1];
        }
      }
      AdvanceKeepsPending(pending[0], tail, commits, known);
    }
  }

  /** Preparing keeps the table valid, hides the update from every read, leaves the floor where it
      was and raises the highest known number to the prepared one. */
  lemma PrepareHidesUpdate<V>(s: TableState<V>, updates: seq<StateUpdate<V>>, sn: int)
    requires Valid(s) && s.known < sn
    ensures var p := Prepare(s, updates, sn);
            && Valid(p)
            && p.committed == s.committed
            && p.known == sn
            && forall k :: Read(p, k) == Read(s, k)
  {
    var p := Prepare(s, updates, sn);
    PrepareChainsValid(s.chains, updates, s.known, sn);
    PendingAppend(s.pending, s.committed, s.known, sn);
    assert p.pending[|p.pending| - 1] == sn;
    assert p.pending[0] == (if s.pending == [] then sn else s.pending[0]);
    assert 0 <= p.committed <= p.known;
    assert PendingValid(p.pending, p.committed, p.known);
    assert p.pending[0] !in p.commits;
    assert forall k :: k in p.chains ==> ChainValid(p.chains[k], p.known);
    forall k
      ensures Read(p, k) == Read(s, k)
    {
      PrepareChainsAt(s.chains, updates, sn, k);
      LatestIgnoresLater(Chain(s.chains, k), VersionsFor(updates, k, sn), s.committed);
    }
  }

  /** Committing keeps the table valid, leaves the chains and the highest known number alone, and
      never lowers the floor; a number that is not pending changes nothing. */
  lemma CommitKeepsValid<V>(s: TableState<V>, sn: int)
    requires Valid(s)
    ensures var c := Commit(s, sn);
            && Valid(c)
            && c.known == s.known
            && c.chains == s.chains
            && (sn !in s.pending ==> c == s)
            && c.committed >= s.committed
  {
    if sn in s.pending {
      var commits := s.commits + {sn};
      AdvanceKeepsPending(s.committed, s.pending, commits, s.known);
    }
  }

  /** Releasing raises the floor exactly when the head of `pending` is committed, and every pending
      number at or below the new floor is committed. */
  lemma {:induction false} AdvanceReleases(floor: int, pending: seq<int>, commits: set<int>, known: int)
    requires PendingValid(pending, floor, known)
    ensures var r := Advance(floor, pending, commits);
            && r.floor >= floor
            && (r.floor > floor <==> pending != [] && pending[0] in commits)
            && |r.rest| <= |pending| && r.rest == pending[|pending| - |r.rest|..]
            && forall i :: 0 <= i < |pending| && pending[i] <= r.floor ==> pending[i] in commits
    decreases |pending|
  {
    if pending != [] && pending[0] in commits {
      var tail := pending[1..];
      assert PendingValid(tail, pending[0], known) by {
        forall i | 0 <= i < |tail|
          ensures pending[0] < tail[i] <= known
        {
          assert tail[i] == pending[i + 1];
        }
      }
      AdvanceReleases(pending[0], tail, commits, known);
      var r := Advance(pending[0], tail, commits);
      assert tail[|tail| - |r.rest|..] == pending[|pending| - |r.rest|..];
      forall i | 0 < i < |pending| && pending[i] <= r.floor
        ensures pending[i] in commits
      {
        assert pending[i] == tail[i - 1];
      }
    }
  }

  /** The floor rises exactly when the first pending number is committed; the numbers it passes are
      all committed, and the others stay pending in order. */
  lemma CommitAdvancesFloor<V>(s: TableState<V>, sn: int)
    requires Valid(s)
    ensures var c := Commit(s, sn);
            && (c.committed > s.committed <==> s.pending != [] && sn == s.pending[0])
            && |c.pending| <= |s.pending| && c.pending == s.pending[|s.pending| - |c.pending|..]
            && (forall i :: 0 <= i < |s.pending| && s.pending[i] <= c.committed ==>
                  s.pending[i] in s.commits || s.pending[i] == sn)
  {
    if sn in s.pending {
      AdvanceReleases(s.committed, s.pending, s.commits + {sn}, s.known);
    }
  }

  /** An in-order commit: committing the first pending number when the next one is not committed
      yet releases exactly that number. */
  lemma CommitHead<V>(s: TableState<V>)
    requires Valid(s) && s.pending != []
    requires |s.pending| == 1 || s.pending[1] !in s.commits
    ensures Commit(s, s.pending[0])
         == s.(pending := s.pending[1..], commits := s.commits + {s.pending[0]}, committed := s.pending[0])
  {
    var commits := s.commits + {s.pending[0]};
    assert Advance(s.committed, s.pending, commits) == Advance(s.pending[0], s.pending[1..], commits);
    assert |s.pending| > 1 ==> s.pending[1] != s.pending[0];
  }

  /** A commit that leaves an uncommitted pending number before it is invisible: the floor and every
      read stay as they were. */
  lemma OutOfOrderCommitHidden<V>(s: TableState<V>, sn: int)
    requires Valid(s) && sn in s.pending && sn != s.pending[0]
    ensures Commit(s, sn).committed == s.committed
    ensures forall k :: Read(Commit(s, sn), k) == Read(s, k)
  {
  }

  /** Releasing passes over a committed run at the head of `pending`: when the first j+1 pending
      numbers are all committed, the floor reaches at least the last of them. */
  lemma {:induction false} AdvancePassesRun(floor: int, pending: seq<int>, commits: set<int>, known: int, j: int)
    requires PendingValid(pending, floor, known) && 0 <= j < |pending|
    requires forall i :: 0 <= i <= j ==> pending[i] in commits
    ensures Advance(floor, pending, commits).floor >= pending[j]
    decreases |pending|
  {
    var tail := pending[1..];
    assert PendingValid(tail, pending[0], known) by {
      forall i | 0 <= i < |tail|
        ensures pending[0] < tail[i] <= known
      {
        assert tail[i] == pending[i + 1];
      }
    }
    AdvanceReleases(pending[0], tail, commits, known);
    if j > 0 {
      assert forall i :: 0 <= i <= j - 1 ==> tail[i] == pending[i + 1];
      AdvancePassesRun(pending[0], tail, commits, known, j - 1);
    }
  }

  /** Closing the gap: committing the first pending number releases it together with every pending
      number after it that was already committed, up to position `j`. */
  lemma ClosingCommitPublishes<V>(s: TableState<V>, j: int)
    requires Valid(s) && 0 <= j < |s.pending|
    requires forall i :: 0 < i <= j ==> s.pending[i] in s.commits
    ensures Commit(s, s.pending[0]).committed >= s.pending[j]
  {
    AdvancePassesRun(s.committed, s.pending, s.commits + {s.pending[0]}, s.known, j);
  }

  /** Apply on a fully committed table: the floor and the highest known number both become `sn`,
      nothing stays pending, and each key reads the value of the last update targeting it (none for
      a delete); keys the unit does not touch keep their value. */
  lemma ApplyPublishes<V>(s: TableState<V>, updates: seq<StateUpdate<V>>, sn: int)
    requires Valid(s) && s.pending == [] && s.known < sn
    ensures var a := Apply(s, updates, sn);
            && Valid(a)
            && a.committed == sn && a.known == sn && a.pending == []
            && forall k :: Read(a, k) == match LastUpdateFor(updates, k)
                                         case None => Read(s, k)
                                         case Some(u) => if u.isDelete then None else Some(u.value)
  {
    var p := Prepare(s, updates, sn);
    PrepareHidesUpdate(s, updates, sn);
    var a := Apply(s, updates, sn);
    assert p.pending == [sn];
    assert Advance(p.committed, [sn], p.commits + {sn}) == Advance(sn, [], p.commits + {sn}) == Release(sn, []);
    CommitKeepsValid(p, sn);
    forall k
      ensures Read(a, k) == match LastUpdateFor(updates, k)
                            case None => Read(s, k)
                            case Some(u) => if u.isDelete then None else Some(u.value)
    {
      PrepareChainsAt(s.chains, updates, sn, k);
      VersionsForLast(updates, k, sn);
      var c := Chain(s.chains, k) + VersionsFor(updates, k, sn);
      assert Chain(a.chains, k) == c;
      match LastUpdateFor(updates, k)
      case None =>
        assert c == Chain(s.chains, k);
        if Chain(s.chains, k) != [] {
          LatestOfCovered(Chain(s.chains, k), s.committed);
          LatestOfCovered(c, sn);
        }
      case Some(u) =>
        LatestOfCovered(c, sn);
    }
  }

  /** A batch of replication units, each with its own sequence number. */
  datatype ReplicationUnit<V> = ReplicationUnit(sequenceNumber: int, updates: seq<StateUpdate<V>>)

  /** Sequence numbers of `units` increase strictly, starting above `known`. */
  ghost predicate Ascending<V>(units: seq<ReplicationUnit<V>>, known: int)
  {
    && (units != [] ==> units[0].sequenceNumber > known)
    && forall i :: 0 < i < |units| ==> units[i - 1].sequenceNumber < units[i].sequenceNumber
  }

  lemma AscendingTail<V>(units: seq<ReplicationUnit<V>>, known: int)
    requires Ascending(units, known) && units != []
    ensures Ascending(units[1..], units[0].sequenceNumber)
  {
    var tail := units[1..];
    forall i | 0 < i < |tail|
      ensures tail[i - 1].sequenceNumber < tail[i].sequenceNumber
    {
      assert tail[i] == units[i + 1];
    }
  }

  /** Apply each unit in turn. */
  function ApplyAll<V>(s: TableState<V>, units: seq<ReplicationUnit<V>>): (r: TableState<V>)
    ensures units == [] ==> r == s
    ensures units != [] ==> r.known == units[|units| - 1].sequenceNumber
    decreases |units|
  {
    if units == [] then s else ApplyAll(Apply(s, units[0].updates, units[0].sequenceNumber), units[1..])
  }

  /** The last update across `units` that targets `k`. */
  function LastWrite<V>(units: seq<ReplicationUnit<V>>, k: StateKey): (r: Option<StateUpdate<V>>)
    ensures r.Some? ==> r.value.target == k
    decreases |units|
  {
    if units == [] then None
    else match LastWrite(units[1..], k)
         case Some(u) => Some(u)
         case None => LastUpdateFor(units[0].updates, k)
  }

  /** Applying a batch to a fully committed table publishes all of it: the floor and the highest
      known number reach the last unit's sequence number, and every key reads its last write in
      the batch (none for a delete), or its old value when the batch does not touch it. */
  lemma {:induction false} ApplyAllPublishes<V>(s: TableState<V>, units: seq<ReplicationUnit<V>>)
    requires Valid(s) && s.pending == [] && Ascending(units, s.known)
    ensures var a := ApplyAll(s, units);
            && Valid(a) && a.pending == []
            && a.committed == a.known == (if units == [] then s.known else units[|units| - 1].sequenceNumber)
            && forall k :: Read(a, k) == match LastWrite(units, k)
                                         case None => Read(s, k)
                                         case Some(u) => if u.isDelete then None else Some(u.value)
    decreases |units|
  {
    if units != [] {
      var s1 := Apply(s, units[0].updates, units[0].sequenceNumber);
      assert units[0].sequenceNumber > s.known;
      ApplyPublishes(s, units[0].updates, units[0].sequenceNumber);
      AscendingTail(units, s.known);
      ApplyAllPublishes(s1, units[1..]);
    }
  }

  /** A unit that does not touch `k` leaves the chain of `k` as it was; in particular the same key
      string under another state type is unaffected. */
  lemma PrepareLeavesOtherKeys<V>(s: TableState<V>, updates: seq<StateUpdate<V>>, sn: int, k: StateKey)
    requires forall i :: 0 <= i < |updates| ==> updates[i].target != k
    ensures Chain(Prepare(s, updates, sn).chains, k) == Chain(s.chains, k)
  {
    PrepareChainsAt(s.chains, updates, sn, k);
    VersionsForLast(updates, k, sn);
  }
  /** Preparing a single write of `k` appends one version to its chain, hides it from reads, and
      leaves the chain of every other key alone. */
  lemma PrepareSingle<V>(s: TableState<V>, k: StateKey, value: V, sn: int)
    requires Valid(s) && s.known < sn
    ensures var p := Prepare(s, [StateUpdate(k, value, false)], sn);
            && Chain(p.chains, k) == Chain(s.chains, k) + [Version(sn, value, false)]
            && (forall k' :: k' != k ==> Chain(p.chains, k') == Chain(s.chains, k'))
            && (forall k' :: Read(p, k') == Read(s, k'))
  {
    var u := [StateUpdate(k, value, false)];
    PrepareHidesUpdate(s, u, sn);
    PrepareChainsAt(s.chains, u, sn, k);
    forall k' | k' != k
      ensures Chain(Prepare(s, u, sn).chains, k') == Chain(s.chains, k')
    {
      PrepareLeavesOtherKeys(s, u, sn, k');
    }
  }

  /** Versions above the ceiling and a higher floor do not change what one chain yields for a
      ceiling at or below the floor. */
  lemma ChainEntriesStable<V>(k: StateKey, c: seq<Version<V>>, extra: seq<Version<V>>,
                                  floor: int, floor': int, ceiling: int)
    requires ceiling <= floor <= floor'
    requires forall i :: 0 <= i < |extra| ==> extra[i].sequenceNumber > ceiling
    ensures ChainEntries(k, c + extra, floor', ceiling) == ChainEntries(k, c, floor, ceiling)
  {
    LatestIgnoresLater(c, extra, ceiling);
    assert Min(ceiling, floor) == Min(ceiling, floor') == ceiling;
  }

  /** Adding one key to the keys a snapshot covers adds exactly that key's chain entries. */
  lemma SnapshotOfInsert<V>(s: TableState<V>, keys: set<StateKey>, k: StateKey, ceiling: int)
    requires k in s.chains
    ensures SnapshotOf(s, keys + {k}, ceiling) == SnapshotOf(s, keys, ceiling) + ChainEntries(k, s.chains[k], s.committed, ceiling)
  {
  }

  /** Two tables whose chains give the same entries key by key, the second covering at least the keys
      of the first, have the same snapshot. */
  lemma SnapshotsAgree<V>(s: TableState<V>, p: TableState<V>, ceiling: int)
    requires s.chains.Keys <= p.chains.Keys
    requires forall k :: k in p.chains ==>
               ChainEntries(k, p.chains[k], p.committed, ceiling) == ChainEntries(k, Chain(s.chains, k), s.committed, ceiling)
    ensures Snapshot(p, ceiling) == Snapshot(s, ceiling)
  {
    forall e | e in Snapshot(p, ceiling)
      ensures e in Snapshot(s, ceiling)
    {
      var k :| k in p.chains && e in ChainEntries(k, p.chains[k], p.committed, ceiling);
      assert k in s.chains;
    }
    forall e | e in Snapshot(s, ceiling)
      ensures e in Snapshot(p, ceiling)
    {
      var k :| k in s.chains && e in ChainEntries(k, s.chains[k], s.committed, ceiling);
      assert k in p.chains;
    }
  }

  /** A snapshot whose ceiling is at or below the floor is unchanged by a later prepare. */
  lemma SnapshotStableUnderPrepare<V>(s: TableState<V>, updates: seq<StateUpdate<V>>, sn: int, ceiling: int)
    requires ceiling <= s.committed <= s.known < sn
    ensures Snapshot(Prepare(s, updates, sn), ceiling) == Snapshot(s, ceiling)
  {
    var p := Prepare(s, updates, sn);
    PrepareChainsKeys(s.chains, updates, sn);
    forall k | k in p.chains
      ensures ChainEntries(k, p.chains[k], p.committed, ceiling) == ChainEntries(k, Chain(s.chains, k), s.committed, ceiling)
    {
      PrepareChainsAt(s.chains, updates, sn, k);
      assert p.chains[k] == Chain(s.chains, k) + VersionsFor(updates, k, sn);
      ChainEntriesStable(k, Chain(s.chains, k), VersionsFor(updates, k, sn), s.committed, p.committed, ceiling);
    }
    SnapshotsAgree(s, p, ceiling);
  }

  /** A snapshot whose ceiling is at or below the floor is unchanged by a later commit. */
  lemma SnapshotStableUnderCommit<V>(s: TableState<V>, sn: int, ceiling: int)
    requires Valid(s) && ceiling <= s.committed
    ensures Snapshot(Commit(s, sn), ceiling) == Snapshot(s, ceiling)
  {
    var c := Commit(s, sn);
    CommitAdvancesFloor(s, sn);
    forall k | k in s.chains
      ensures ChainEntries(k, c.chains[k], c.committed, ceiling) == ChainEntries(k, s.chains[k], s.committed, ceiling)
    {
      assert s.chains[k] + [] == s.chains[k];
      ChainEntriesStable(k, s.chains[k], [], s.committed, c.committed, ceiling);
    }
  }

  /** A snapshot whose ceiling is at or below the floor holds exactly one committed entry per key
      that has a version at or below the ceiling, namely its latest such version. */
  lemma SnapshotBelowFloor<V>(s: TableState<V>, ceiling: int)
    requires ceiling <= s.committed
    ensures forall e :: e in Snapshot(s, ceiling) ==>
              e.isCommitted && e.target in s.chains && Latest(s.chains[e.target], ceiling) == Some(e.version)
    ensures forall k :: k in s.chains && Latest(s.chains[k], ceiling).Some? ==>
              SnapshotEntry(k, Latest(s.chains[k], ceiling).value, true) in Snapshot(s, ceiling)
  {
    forall e | e in Snapshot(s, ceiling)
      ensures e.isCommitted && e.target in s.chains && Latest(s.chains[e.target], ceiling) == Some(e.version)
    {
      var k :| k in s.chains && e in ChainEntries(k, s.chains[k], s.committed, ceiling);
      assert Min(ceiling, s.committed) == ceiling;
    }
    forall k | k in s.chains && Latest(s.chains[k], ceiling).Some?
      ensures SnapshotEntry(k, Latest(s.chains[k], ceiling).value, true) in Snapshot(s, ceiling)
    {
      assert Min(ceiling, s.committed) == ceiling;
      assert SnapshotEntry(k, Latest(s.chains[k], ceiling).value, true) in ChainEntries(k, s.chains[k], s.committed, ceiling);
    }
  }
}
