/**
 Batched offset commits over many partitions: the value of an `OffsetCommitTracker`, what
 each call does to it, and what every history of calls keeps.

 The commit call into Kafka is an environment answer: `accept` says whether it succeeded.
 `published` is the `{partition: next offset}` mapping Kafka took.
 */
module TrackerSpec {
  import opened Prelude
  import F = Frontier

  datatype PartitionKey = PartitionKey(topic: nat, partition: nat)

  datatype Tracker = Tracker(
    parts: map<PartitionKey, F.Partition>,
    sinceFlush: nat,
    lastFlush: real)

  datatype Flushed = Flushed(tracker: Tracker, published: map<PartitionKey, int>, raised: bool)

  datatype Config = Config(batchSize: nat, interval: real)

  function Part(t: Tracker, key: PartitionKey): F.Partition {
    if key in t.parts then t.parts[key] else F.FRESH
  }

  function MarkTerminal(t: Tracker, key: PartitionKey, offset: int): Tracker {
    t.(parts := t.parts[key := F.Mark(Part(t, key), offset)], sinceFlush := t.sinceFlush + 1)
  }

  function Observe(t: Tracker, key: PartitionKey, offset: int): Tracker {
    t.(parts := t.parts[key := F.Observe(Part(t, key), offset)])
  }

  function Drop(t: Tracker, keys: set<PartitionKey>): Tracker {
    t.(parts := t.parts - keys)
  }

  predicate Selected(only: Option<set<PartitionKey>>, key: PartitionKey) {
    only.None? || key in only.value
  }

  /** The mapping a flush asks Kafka to commit. */
  function Commits(t: Tracker, only: Option<set<PartitionKey>>): map<PartitionKey, int> {
    map k | k in t.parts && Selected(only, k) && F.Uncommitted(t.parts[k]) :: t.parts[k].safe.value + 1
  }

  function Confirmed(t: Tracker, keys: set<PartitionKey>): map<PartitionKey, F.Partition> {
    map k | k in t.parts :: if k in keys then F.Confirm(t.parts[k]) else t.parts[k]
  }

  function Reset(t: Tracker, only: Option<set<PartitionKey>>, now: real): Tracker {
    if only.None? then t.(sinceFlush := 0, lastFlush := now) else t
  }

  function Flush(t: Tracker, only: Option<set<PartitionKey>>, accept: bool, now: real): Flushed {
    var commits := Commits(t, only);
    if commits == map[] then Flushed(Reset(t, only, now), map[], false)
    else if !accept then Flushed(t, map[], true)
    else Flushed(Reset(t.(parts := Confirmed(t, commits.Keys)), only, now), commits, false)
  }

  function MaybeFlush(config: Config, t: Tracker, accept: bool, now: real): Flushed {
    if t.sinceFlush == 0 then Flushed(t, map[], false)
    else if t.sinceFlush >= config.batchSize || now - t.lastFlush >= config.interval then
      Flush(t, None, accept, now)
    else Flushed(t, map[], false)
  }

  /** `commit_terminal` on a partition that is still owned. */
  function CommitTerminal(
    config: Config, t: Tracker, key: PartitionKey, offset: int, accept: bool, now: real): Flushed
  {
    MaybeFlush(config, MarkTerminal(t, key, offset), accept, now)
  }

  lemma ConfirmedGrows(t: Tracker, done: set<PartitionKey>, key: PartitionKey)
    requires key in t.parts && key !in done
    ensures Confirmed(t, done)[key := F.Confirm(Confirmed(t, done)[key])] == Confirmed(t, done + {key})
  {
  }

  // ----- what every history keeps -----

  datatype Op =
    | Terminal(key: PartitionKey, offset: int, accept: bool, now: real)
    | Dispatched(key: PartitionKey, offset: int)
    | Idle(accept: bool, now: real)
    | FlushAll(accept: bool, now: real)
    | Revoked(keys: set<PartitionKey>, accept: bool, now: real)

  function Step(config: Config, t: Tracker, op: Op): Flushed {
    match op
    case Terminal(k, o, accept, now) => CommitTerminal(config, t, k, o, accept, now)
    case Dispatched(k, o) => Flushed(Observe(t, k, o), map[], false)
    case Idle(accept, now) => MaybeFlush(config, t, accept, now)
    case FlushAll(accept, now) => Flush(t, None, accept, now)
    case Revoked(keys, accept, now) =>
      var f := Flush(t, Some(keys), accept, now);
      f.(tracker := Drop(f.tracker, keys), raised := false)
  }

  ghost predicate PartitionOk(p: F.Partition) {
    && (p.committed.Some? ==> p.safe.Some? && p.committed.value <= p.safe.value)
    && (p.safe.None? ==> p.pending == {})
    && (forall o :: o in p.pending ==> p.safe.value + 1 < o)
  }

  ghost predicate TrackerOk(t: Tracker) {
    && (forall k :: k in t.parts ==> PartitionOk(t.parts[k]))
    && (t.sinceFlush == 0 ==> Commits(t, None) == map[])
  }

  lemma MarkKeepsPartition(p: F.Partition, offset: int)
    requires PartitionOk(p)
    ensures var q := F.Mark(p, offset);
            PartitionOk(q) && q.committed == p.committed && q.safe.Some?
            && (p.safe.Some? ==> p.safe.value <= q.safe.value)
  {
  }

  lemma FlushKeeps(t: Tracker, only: Option<set<PartitionKey>>, accept: bool, now: real)
    requires TrackerOk(t)
    ensures TrackerOk(Flush(t, only, accept, now).tracker)
    ensures var f := Flush(t, only, accept, now);
            f.raised ==> f.tracker == t && Commits(f.tracker, only) == Commits(t, only) != map[]
    ensures var f := Flush(t, only, accept, now);
            !f.raised ==> Commits(f.tracker, only) == map[]
  {
    var f := Flush(t, only, accept, now);
    var commits := Commits(t, only);
    if commits != map[] && accept {
      assert Commits(f.tracker, only) == map[];
      assert t.sinceFlush != 0 by {
        var k :| k in commits;
        assert k in Commits(t, None);
      }
    }
  }

  lemma StepKeeps(config: Config, t: Tracker, op: Op)
    requires TrackerOk(t)
    ensures TrackerOk(Step(config, t, op).tracker)
  {
    match op
    case Terminal(k, o, accept, now) =>
      MarkKeeps(t, k, o, k);
      FlushKeeps(MarkTerminal(t, k, o), None, accept, now);
    case Dispatched(k, o) =>
      var t' := Observe(t, k, o);
      assert forall j :: j in t'.parts && F.Uncommitted(t'.parts[j]) ==> j in t.parts && F.Uncommitted(t.parts[j]);
      assert t'.sinceFlush == 0 ==> Commits(t', None) == map[] by {
        if t'.sinceFlush == 0 {
          forall j | j in t.parts ensures !F.Uncommitted(t.parts[j]) {
            assert j !in Commits(t, None);
          }
        }
      }
    case Idle(accept, now) => FlushKeeps(t, None, accept, now);
    case FlushAll(accept, now) => FlushKeeps(t, None, accept, now);
    case Revoked(keys, accept, now) =>
      FlushKeeps(t, Some(keys), accept, now);
      var flushed := Flush(t, Some(keys), accept, now).tracker;
      var dropped := Drop(flushed, keys);
      assert forall j :: j in Commits(dropped, None) ==> j in Commits(flushed, None);
      assert dropped.sinceFlush == 0 ==> Commits(dropped, None) == map[];
  }

  function Run(config: Config, t: Tracker, ops: seq<Op>): Tracker
    decreases |ops|
  {
    if ops == [] then t else Run(config, Step(config, t, ops[0]).tracker, ops[1..])
  }

  lemma {:induction false} RunSnoc(config: Config, t: Tracker, ops: seq<Op>, op: Op)
    ensures Run(config, t, ops + [op]) == Step(config, Run(config, t, ops), op).tracker
    decreases |ops|
  {
    hide Step;
    if ops == [] {
      assert ([] + [op])[1..] == [];
    } else {
      assert (ops + [op])[1..] == ops[1..] + [op];
      RunSnoc(config, Step(config, t, ops[0]).tracker, ops[1..], op);
    }
  }

  /** The tracker a process starts with. */
  function Init(now: real): Tracker { Tracker(map[], 0, now) }

  lemma {:induction false} RunKeeps(config: Config, t: Tracker, ops: seq<Op>)
    requires TrackerOk(t)
    ensures TrackerOk(Run(config, t, ops))
    decreases |ops|
  {
    if ops != [] {
      StepKeeps(config, t, ops[0]);
      RunKeeps(config, Step(config, t, ops[0]).tracker, ops[1..]);
    }
  }

  /**
   No stranded commit: in every state a tracker reaches, a zero record counter means that no
   partition has a safe offset Kafka has not confirmed, and confirmed never passes safe.
   */
  lemma NoStrandedCommit(config: Config, start: real, ops: seq<Op>, key: PartitionKey)
    ensures var t := Run(config, Init(start), ops);
            && (t.sinceFlush == 0 && key in t.parts ==> !F.Uncommitted(t.parts[key]))
            && (Part(t, key).committed.Some? ==> Part(t, key).safe.Some? && Part(t, key).committed.value <= Part(t, key).safe.value)
  {
    hide PartitionOk;
    RunKeeps(config, Init(start), ops);
    var t := Run(config, Init(start), ops);
    assert key in t.parts ==> (F.Uncommitted(t.parts[key]) <==> key in Commits(t, None));
    CommittedWithinSafe(t, key);
  }

  lemma CommittedWithinSafe(t: Tracker, key: PartitionKey)
    requires TrackerOk(t)
    ensures Part(t, key).committed.Some? ==> Part(t, key).safe.Some? && Part(t, key).committed.value <= Part(t, key).safe.value
  {
  }

  /** A `commit_terminal` that returns leaves fewer unflushed records than the batch size. */
  lemma BatchBound(config: Config, t: Tracker, key: PartitionKey, offset: int, accept: bool, now: real)
    requires config.batchSize > 0
    ensures var f := CommitTerminal(config, t, key, offset, accept, now);
            !f.raised ==> f.tracker.sinceFlush < config.batchSize
  {
  }

  /**
   When a flush is due: with a record pending, on a full batch or after the interval. Otherwise
   nothing happens; and a call that returns leaves nothing due.
   */
  lemma FlushesWhenDue(config: Config, t: Tracker, accept: bool, now: real)
    requires config.batchSize > 0
    ensures var f := MaybeFlush(config, t, accept, now);
            var due := t.sinceFlush > 0 && (t.sinceFlush >= config.batchSize || now >= t.lastFlush + config.interval);
            && (!due ==> f == Flushed(t, map[], false))
            && (due && accept ==> f.published == Commits(t, None) && f.tracker.sinceFlush == 0 && f.tracker.lastFlush == now)
            && (f.raised <==> due && !accept && Commits(t, None) != map[])
            && (!f.raised && f.tracker.sinceFlush > 0 ==>
                  f.tracker.sinceFlush < config.batchSize && now < f.tracker.lastFlush + config.interval)
  {
  }

  /** The offset counts as completed: it is pending or at or below the safe offset. */
  predicate IsMarked(t: Tracker, key: PartitionKey, offset: int) {
    && key in t.parts
    && (offset in t.parts[key].pending || (t.parts[key].safe.Some? && offset <= t.parts[key].safe.value))
  }

  /** A completion is recorded, and what was recorded stays so until the partition is revoked. */
  lemma MarkedStays(config: Config, t: Tracker, key: PartitionKey, offset: int, k: PartitionKey, o: int, accept: bool, now: real)
    ensures IsMarked(CommitTerminal(config, t, k, o, accept, now).tracker, k, o)
    ensures IsMarked(t, key, offset) ==>
              && IsMarked(CommitTerminal(config, t, k, o, accept, now).tracker, key, offset)
              && IsMarked(MaybeFlush(config, t, accept, now).tracker, key, offset)
              && IsMarked(Flush(t, None, accept, now).tracker, key, offset)
              && IsMarked(Observe(t, k, o), key, offset)
  {
    hide Flush, MaybeFlush, F.Mark;
    MarkIsMarked(t, key, offset, k, o);
    FlushKeepsMarked(config, MarkTerminal(t, k, o), key, offset, accept, now);
    FlushKeepsMarked(config, MarkTerminal(t, k, o), k, o, accept, now);
    FlushKeepsMarked(config, t, key, offset, accept, now);
  }

  lemma MarkIsMarked(t: Tracker, key: PartitionKey, offset: int, k: PartitionKey, o: int)
    ensures IsMarked(MarkTerminal(t, k, o), k, o)
    ensures IsMarked(t, key, offset) ==> IsMarked(MarkTerminal(t, k, o), key, offset)
  {
  }

  lemma FlushKeepsMarked(config: Config, t: Tracker, key: PartitionKey, offset: int, accept: bool, now: real)
    ensures IsMarked(t, key, offset) ==>
              IsMarked(Flush(t, None, accept, now).tracker, key, offset) && IsMarked(MaybeFlush(config, t, accept, now).tracker, key, offset)
  {
  }

  /** A broker that accepts: no flush raises, and a full flush leaves nothing to commit. */
  lemma NeverRaises(config: Config, t: Tracker, key: PartitionKey, offset: int, now: real)
    ensures !CommitTerminal(config, t, key, offset, true, now).raised && !MaybeFlush(config, t, true, now).raised
    ensures !Flush(t, None, true, now).raised && Commits(Flush(t, None, true, now).tracker, None) == map[]
  {
    var f := Flush(t, None, true, now);
    assert Commits(f.tracker, None) == map[];
  }

  /** The positions Kafka is given for `key` along a history, oldest first. */
  function Positions(config: Config, t: Tracker, ops: seq<Op>, key: PartitionKey): seq<int>
    decreases |ops|
  {
    if ops == [] then []
    else
      var f := Step(config, t, ops[0]);
      (if key in f.published then [f.published[key]] else []) + Positions(config, f.tracker, ops[1..], key)
  }

  predicate Increasing(s: seq<int>) {
    forall i, j :: 0 <= i < j < |s| ==> s[i] < s[j]
  }

  /** A position already confirmed, as seen by the next commit of the same partition. */
  ghost predicate Beyond(t: Tracker, key: PartitionKey, positions: seq<int>) {
    forall i :: 0 <= i < |positions| && Part(t, key).committed.Some? ==>
      Part(t, key).committed.value + 1 < positions[i]
  }

  lemma FlushAdvances(t: Tracker, only: Option<set<PartitionKey>>, accept: bool, now: real, key: PartitionKey)
    requires TrackerOk(t)
    ensures var f := Flush(t, only, accept, now);
            if key in f.published then
              && Part(f.tracker, key).committed == Some(f.published[key] - 1)
              && (Part(t, key).committed.Some? ==> Part(t, key).committed.value + 1 < f.published[key])
            else Part(f.tracker, key).committed == Part(t, key).committed
  {
  }

  lemma MarkKeeps(t: Tracker, k: PartitionKey, offset: int, key: PartitionKey)
    requires TrackerOk(t)
    ensures var t' := MarkTerminal(t, k, offset);
            TrackerOk(t') && Part(t', key).committed == Part(t, key).committed
  {
    MarkKeepsPartition(Part(t, k), offset);
  }

  lemma StepAdvances(config: Config, t: Tracker, op: Op, key: PartitionKey)
    requires TrackerOk(t)
    requires op.Revoked? ==> key !in op.keys
    ensures var f := Step(config, t, op);
            if key in f.published then
              && Part(f.tracker, key).committed == Some(f.published[key] - 1)
              && (Part(t, key).committed.Some? ==> Part(t, key).committed.value + 1 < f.published[key])
            else Part(f.tracker, key).committed == Part(t, key).committed
  {
    hide F.Mark;
    match op
    case Terminal(k, o, accept, now) =>
      hide Flush;
      MarkKeeps(t, k, o, key);
      FlushAdvances(MarkTerminal(t, k, o), None, accept, now, key);
    case Dispatched(k, o) =>
    case Idle(accept, now) => FlushAdvances(t, None, accept, now, key);
    case FlushAll(accept, now) => FlushAdvances(t, None, accept, now, key);
    case Revoked(keys, accept, now) => FlushAdvances(t, Some(keys), accept, now, key);
  }

  /**
   Committed positions of a partition strictly increase along every history that does not
   revoke it, whatever the completion order, failures and flush triggers.
   */
  lemma {:induction false} PositionsIncrease(config: Config, t: Tracker, ops: seq<Op>, key: PartitionKey)
    requires TrackerOk(t)
    requires forall i :: 0 <= i < |ops| && ops[i].Revoked? ==> key !in ops[i].keys
    ensures Increasing(Positions(config, t, ops, key))
    ensures Beyond(t, key, Positions(config, t, ops, key))
    decreases |ops|
  {
    if ops != [] {
      var f := Step(config, t, ops[0]);
      StepKeeps(config, t, ops[0]);
      StepAdvances(config, t, ops[0], key);
      PositionsIncrease(config, f.tracker, ops[1..], key);
    }
  }
}

/** `services/event_processor/offset_tracker.py` in its own imperative form. */
module OffsetTracker {
  import opened Prelude
  import opened TrackerSpec
  import F = Frontier

  // `heapq` shows its callers only the minimum and the multiset of elements; an ascending
  // list is one layout that satisfies its heap property.
  ghost predicate Ascending(h: seq<int>) {
    forall i, j :: 0 <= i < j < |h| ==> h[i] < h[j]
  }

  ghost function Elements(h: seq<int>): set<int> { set i | 0 <= i < |h| :: h[i] }

  function HeapPush(h: seq<int>, x: int): (r: seq<int>)
    requires Ascending(h) && x !in h
    ensures Ascending(r) && Elements(r) == Elements(h) + {x}
  {
    if h == [] || x < h[0] then
      assert forall i :: 1 <= i < |[x] + h| ==> ([x] + h)[i] == h[i - 1];
      assert Elements([x] + h) == Elements(h) + {x} by { ElementsCons(x, h); }
      [x] + h
    else
      assert h == [h[0]] + h[1..];
      var tail := HeapPush(h[1..], x);
      assert Elements(h) == {h[0]} + Elements(h[1..]) by { ElementsCons(h[0], h[1..]); }
      assert Elements([h[0]] + tail) == {h[0]} + Elements(tail) by { ElementsCons(h[0], tail); }
      assert forall i :: 0 <= i < |tail| ==> tail[i] in Elements(tail);
      [h[0]] + tail
  }

  lemma ElementsCons(x: int, h: seq<int>)
    ensures Elements([x] + h) == {x} + Elements(h)
  {
    var r := [x] + h;
    assert r[0] == x;
    forall y | y in Elements(h) ensures y in Elements(r) {
      var i :| 0 <= i < |h| && h[i] == y;
      assert r[i + 1] == y;
    }
    forall y | y in Elements(r) ensures y == x || y in Elements(h) {
      var i :| 0 <= i < |r| && r[i] == y;
      if i > 0 { assert h[i - 1] == y; }
    }
  }

  lemma HeapMember(h: seq<int>, x: int)
    ensures x in h <==> x in Elements(h)
  {
  }

  /** The state of the drain loop that started at `start` with the pending offsets `known`. */
  ghost predicate Draining(start: int, known: set<int>, safe: int, heap: seq<int>, seen: set<int>) {
    && start <= safe
    && Ascending(heap) && Elements(heap) == seen
    && seen == F.Above(safe, known)
    && (forall o :: start < o <= safe ==> o in known)
  }

  lemma DrainStep(start: int, known: set<int>, safe: int, heap: seq<int>, seen: set<int>)
    requires Draining(start, known, safe, heap, seen)
    requires heap != [] && heap[0] == safe + 1
    ensures Draining(start, known, safe + 1, heap[1..], seen - {heap[0]})
  {
    assert heap == [heap[0]] + heap[1..];
    ElementsCons(heap[0], heap[1..]);
    HeapMember(heap[1..], heap[0]);
    assert heap[0] in seen;
  }

  lemma DrainEnd(start: int, known: set<int>, safe: int, heap: seq<int>, seen: set<int>)
    requires Draining(start, known, safe, heap, seen)
    requires heap == [] || heap[0] != safe + 1
    ensures safe == F.RunEnd(start, known)
    ensures forall o :: o in seen ==> safe + 1 < o
  {
    forall o | o in seen ensures safe + 1 < o {
      HeapMember(heap, o);
      HeapMember(heap, heap[0]);
    }
    assert safe + 1 in known ==> safe + 1 in F.Above(safe, known);
    F.RunEndUnique(start, known, safe);
  }

  class PartitionState {
    var safeOffset: Option<int>
    var committedOffset: Option<int>
    var recordsSinceCommit: int
    var pendingHeap: seq<int>
    var pendingSeen: set<int>
    var dispatchFloor: Option<int>
    ghost const owner: PartitionKey  // the dictionary key of this entry

    ghost predicate Valid() reads this {
      && Ascending(pendingHeap)
      && Elements(pendingHeap) == pendingSeen
      && PartitionOk(View())
    }

    ghost function View(): F.Partition reads this {
      F.Partition(safeOffset, committedOffset, recordsSinceCommit, pendingSeen, dispatchFloor)
    }

    constructor (ghost owner: PartitionKey)
      ensures Valid() && View() == F.FRESH && this.owner == owner
    {
      this.owner := owner;
      safeOffset, committedOffset, recordsSinceCommit := None, None, 0;
      pendingHeap, pendingSeen, dispatchFloor := [], {}, None;
    }

    method Observe(offset: int)
      requires Valid()
      modifies this
      ensures Valid() && View() == F.Observe(old(View()), offset)
    {
      if dispatchFloor.None? {
        dispatchFloor := Some(offset - 1);
      }
    }

    method MarkTerminal(offset: int)
      requires Valid()
      modifies this
      ensures Valid() && View() == F.Mark(old(View()), offset)
    {
      ghost var before := View();
      if safeOffset.None? {
        safeOffset := if dispatchFloor.Some? then dispatchFloor else Some(offset - 1);
      }
      ghost var start := safeOffset.value;
      if offset <= safeOffset.value || offset in pendingSeen {
        return;
      }
      ghost var known := pendingSeen + {offset};
      assert offset !in pendingHeap by { HeapMember(pendingHeap, offset); }
      pendingHeap := HeapPush(pendingHeap, offset);
      pendingSeen := pendingSeen + {offset};
      while |pendingHeap| > 0 && pendingHeap[0] == safeOffset.value + 1
        invariant safeOffset.Some?
        invariant Draining(start, known, safeOffset.value, pendingHeap, pendingSeen)
        invariant recordsSinceCommit == before.sinceCommit + (safeOffset.value - start)
        invariant committedOffset == before.committed && dispatchFloor == before.floor
        decreases |pendingHeap|
      {
        var popped := pendingHeap[0];
        DrainStep(start, known, safeOffset.value, pendingHeap, pendingSeen);
        pendingHeap := pendingHeap[1..];
        pendingSeen := pendingSeen - {popped};
        safeOffset := Some(popped);
        recordsSinceCommit := recordsSinceCommit + 1;
      }
      DrainEnd(start, known, safeOffset.value, pendingHeap, pendingSeen);
    }

    /** A commit of `safe_offset + 1` succeeded. */
    method Confirm(nextOffset: int)
      requires Valid() && View().safe == Some(nextOffset - 1)
      modifies this
      ensures Valid() && View() == F.Confirm(old(View()))
    {
      committedOffset := Some(nextOffset - 1);
      recordsSinceCommit := 0;
    }

    /** `has_uncommitted_safe_offset` */
    predicate HasUncommittedSafeOffset() reads this {
      safeOffset.Some? && safeOffset != committedOffset
    }
  }

  class OffsetCommitTracker {
    const config: Config
    var partitions: map<PartitionKey, PartitionState>
    var recordsSinceFlush: nat
    var lastFlushAt: real
    ghost var parts: map<PartitionKey, F.Partition>  // what the entries of `partitions` hold
    ghost var entries: set<PartitionState>           // the objects in `partitions`

    ghost predicate Valid() reads this, entries {
      && partitions.Keys == parts.Keys
      && forall k :: k in partitions ==> partitions[k] in entries && Entry(k, partitions[k])
    }

    ghost predicate Entry(key: PartitionKey, state: PartitionState) reads this, state {
      state.Valid() && state.owner == key && key in parts && parts[key] == state.View()
    }

    ghost function View(): Tracker reads this {
      Tracker(parts, recordsSinceFlush, lastFlushAt)
    }

    constructor (config: Config, now: real)
      ensures Valid() && View() == Init(now) && this.config == config
      ensures entries == {}
    {
      this.config := config;
      partitions, recordsSinceFlush, lastFlushAt := map[], 0, now;
      parts, entries := map[], {};
    }

    /** `dict.setdefault(key, _PartitionState())` */
    method SetDefault(key: PartitionKey) returns (state: PartitionState)
      requires Valid()
      modifies this`partitions, this`parts, this`entries
      ensures Valid() && key in partitions && partitions[key] == state
      ensures entries == old(entries) + {state} && (state in old(entries) || fresh(state))
      ensures parts == old(parts)[key := Part(old(View()), key)]
    {
      hide PartitionState.Valid;
      if key in partitions {
        state := partitions[key];
      } else {
        state := new PartitionState(key);
        partitions := partitions[key := state];
        parts, entries := parts[key := F.FRESH], entries + {state};
      }
    }

    method MarkTerminal(key: PartitionKey, offset: int)
      requires Valid()
      modifies this, entries
      ensures Valid() && View() == TrackerSpec.MarkTerminal(old(View()), key, offset)
      ensures fresh(entries - old(entries))
    {
      hide PartitionState.Valid, PartitionState.View, F.Mark;
      var state := SetDefault(key);
      state.MarkTerminal(offset);
      parts := parts[key := F.Mark(parts[key], offset)];
      recordsSinceFlush := recordsSinceFlush + 1;
    }

    method Observe(key: PartitionKey, offset: int)
      requires Valid()
      modifies this`partitions, this`parts, this`entries, entries
      ensures Valid() && View() == TrackerSpec.Observe(old(View()), key, offset)
      ensures fresh(entries - old(entries))
    {
      hide PartitionState.Valid, PartitionState.View, F.Observe;
      var state := SetDefault(key);
      state.Observe(offset);
      parts := parts[key := F.Observe(parts[key], offset)];
    }

    /** `_flush`: collect, commit, and only then move `committed_offset`. */
    method Flush(only: Option<set<PartitionKey>>, accept: bool, now: real)
      returns (published: map<PartitionKey, int>, raised: bool)
      requires Valid()
      modifies this`recordsSinceFlush, this`lastFlushAt, this`parts, entries
      ensures Valid()
      ensures Flushed(View(), published, raised) == TrackerSpec.Flush(old(View()), only, accept, now)
    {
      hide PartitionState.Valid, Confirmed;
      var commits := CollectCommits(only);
      if commits == map[] {
        if only.None? {
          recordsSinceFlush, lastFlushAt := 0, now;
        }
        return map[], false;
      }
      if !accept {
        return map[], true;
      }
      ConfirmAll(only, commits);
      if only.None? {
        recordsSinceFlush, lastFlushAt := 0, now;
      }
      return commits, false;
    }

    method CollectCommits(only: Option<set<PartitionKey>>) returns (commits: map<PartitionKey, int>)
      requires Valid()
      ensures commits == Commits(View(), only)
    {
      hide PartitionState.Valid;
      ghost var all := Commits(View(), only);
      commits := map[];
      var todo := partitions.Keys;
      while todo != {}
        invariant todo <= partitions.Keys
        invariant commits.Keys == all.Keys - todo
        invariant forall k :: k in commits ==> commits[k] == all[k]
        decreases todo
      {
        var key :| key in todo;
        todo := todo - {key};
        assert Entry(key, partitions[key]);
        if Selected(only, key) && partitions[key].HasUncommittedSafeOffset() {
          assert key in all;
          commits := commits[key := partitions[key].safeOffset.value + 1];
        } else {
          assert key !in all;
        }
      }
    }

    method ConfirmOne(key: PartitionKey, nextOffset: int)
      requires Valid() && key in partitions && parts[key].safe == Some(nextOffset - 1)
      modifies this`parts, entries
      ensures Valid() && parts == old(parts)[key := F.Confirm(old(parts)[key])]
    {
      hide PartitionState.Valid, PartitionState.View, F.Confirm;
      assert Entry(key, partitions[key]);
      partitions[key].Confirm(nextOffset);
      parts := parts[key := F.Confirm(parts[key])];
    }

    method ConfirmAll(ghost only: Option<set<PartitionKey>>, commits: map<PartitionKey, int>)
      requires Valid() && commits == Commits(View(), only)
      modifies this`parts, entries
      ensures Valid() && parts == Confirmed(old(View()), commits.Keys)
    {
      hide PartitionState.Valid, PartitionState.View, F.Confirm;
      ghost var before := View();
      ghost var done: set<PartitionKey> := {};
      var todo := commits.Keys;
      assert Confirmed(before, {}) == parts;
      while todo != {}
        invariant done == commits.Keys - todo && todo <= commits.Keys
        invariant Valid() && parts == Confirmed(before, done)
        decreases todo
      {
        var key :| key in todo;
        todo := todo - {key};
        ConfirmOne(key, commits[key]);
        ConfirmedGrows(before, done, key);
        done := done + {key};
      }
      assert done == commits.Keys;
    }

    method MaybeFlush(accept: bool, now: real) returns (published: map<PartitionKey, int>, raised: bool)
      requires Valid()
      modifies this`recordsSinceFlush, this`lastFlushAt, this`parts, entries
      ensures Valid()
      ensures Flushed(View(), published, raised) == TrackerSpec.MaybeFlush(config, old(View()), accept, now)
    {
      hide PartitionState.Valid, TrackerSpec.Flush;
      if recordsSinceFlush == 0 {
        return map[], false;
      }
      if recordsSinceFlush >= config.batchSize || now - lastFlushAt >= config.interval {
        published, raised := Flush(None, accept, now);
      } else {
        return map[], false;
      }
    }

    method DropPartition(key: PartitionKey)
      requires Valid()
      modifies this`partitions, this`parts
      ensures Valid() && View() == Drop(old(View()), {key})
    {
      hide PartitionState.Valid;
      partitions := partitions - {key};
      parts := parts - {key};
    }
  }
}
