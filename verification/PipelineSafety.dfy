/** No loss: what every run keeps about the offsets each processor holds and commits. */
module PipelineSafety {
  import opened Prelude
  import opened Commerce
  import opened TrackerSpec
  import opened Ledger
  import opened Pipeline
  import opened PipelineRecords
  import P = RecordProtocol
  import F = Frontier

  // ----- no loss -----

  ghost predicate HandledBelow(setup: Setup, d: Durable, key: PartitionKey, bound: int) {
    forall o :: setup.origin(key) <= o < bound ==> Handled(setup, d, Coordinate(key, o))
  }

  /** No loss: nothing below a committed position is unaccounted for. */
  ghost predicate NoLoss(setup: Setup, w: World) {
    forall k :: k in w.committed ==> HandledBelow(setup, Of(w), k, w.committed[k])
  }

  lemma HandledBelowStays(setup: Setup, d: Durable, d': Durable, key: PartitionKey, bound: int)
    requires Grows(d, d') && HandledBelow(setup, d, key, bound)
    ensures HandledBelow(setup, d', key, bound)
  {
    forall o | setup.origin(key) <= o < bound ensures Handled(setup, d', Coordinate(key, o)) {
      HandledStays(setup, d, d', Coordinate(key, o));
    }
  }

  // ----- the inductive invariant -----

  ghost predicate PartOk(setup: Setup, d: Durable, key: PartitionKey, p: F.Partition) {
    && (p.safe.Some? ==> HandledBelow(setup, d, key, p.safe.value + 1))
    && (p.floor.Some? ==> HandledBelow(setup, d, key, p.floor.value + 1))
    && (forall o :: o in p.pending ==> Handled(setup, d, Coordinate(key, o)))
  }

  ghost predicate TrackerSafe(setup: Setup, d: Durable, t: Tracker) {
    forall k :: k in t.parts ==> PartOk(setup, d, k, t.parts[k])
  }

  /** Assigned at the moment, or revoked since. */
  predicate Known(q: Processor, key: PartitionKey) {
    key in q.positions || key in q.revoked
  }

  /** Nothing was dispatched from the partition since its tracker entry was made. */
  predicate Unanchored(q: Processor, key: PartitionKey) {
    key !in q.tracker.parts || q.tracker.parts[key].floor.None?
  }

  /**
   The pooled loop anchors a partition at its first dispatch. An entry made earlier, by a stale
   completion, has a frontier already, and the position of the partition has not moved yet.
   */
  ghost predicate PooledOk(setup: Setup, d: Durable, q: Processor) {
    && (forall k :: k in q.tracker.parts ==> q.tracker.parts[k].floor.Some? || q.tracker.parts[k].safe.Some?)
    && (forall k :: k in q.positions && Unanchored(q, k) ==> HandledBelow(setup, d, k, q.positions[k]))
    && (forall i :: 0 <= i < |q.queue| ==> Handled(setup, d, q.queue[i]) && Known(q, q.queue[i].key))
    && (forall t :: t in q.inflight ==> Known(q, q.inflight[t].source.key))
  }

  /** The single-threaded loop has one record in flight, the last one it fetched. */
  ghost predicate SingleOk(setup: Setup, d: Durable, q: Processor) {
    && q.queue == []
    && (forall t, t' :: t in q.inflight && t' in q.inflight ==> t == t')
    && (q.running && q.inflight == map[] ==> forall k :: k in q.positions ==> HandledBelow(setup, d, k, q.positions[k]))
    && (forall t :: t in q.inflight ==> Current(setup, d, q, q.inflight[t].source))
  }

  ghost predicate Current(setup: Setup, d: Durable, q: Processor, c: Coordinate) {
    && c.key in q.positions && c.offset + 1 == q.positions[c.key]
    && HandledBelow(setup, d, c.key, c.offset)
    && (forall k :: k in q.positions && k != c.key ==> HandledBelow(setup, d, k, q.positions[k]))
  }

  ghost predicate ProcessorOk(setup: Setup, d: Durable, q: Processor) {
    && q.tracker.parts.Keys <= q.positions.Keys
    && TrackerSafe(setup, d, q.tracker)
    && (if q.pooled then PooledOk(setup, d, q) else SingleOk(setup, d, q))
  }

  ghost predicate OffsetsOk(setup: Setup, w: World) {
    NoLoss(setup, w) && forall p :: p in w.processors ==> ProcessorOk(setup, Of(w), w.processors[p])
  }

  ghost predicate Inv(setup: Setup, w: World) {
    RecordsOk(setup, w) && OffsetsOk(setup, w)
  }

  // ----- growth of the durable state preserves each processor's part -----

  lemma TrackerSafeStays(setup: Setup, d: Durable, d': Durable, t: Tracker)
    requires Grows(d, d') && TrackerSafe(setup, d, t)
    ensures TrackerSafe(setup, d', t)
  {
    forall k | k in t.parts ensures PartOk(setup, d', k, t.parts[k]) {
      var p := t.parts[k];
      assert PartOk(setup, d, k, p);
      if p.safe.Some? { HandledBelowStays(setup, d, d', k, p.safe.value + 1); }
      if p.floor.Some? { HandledBelowStays(setup, d, d', k, p.floor.value + 1); }
      forall o | o in p.pending ensures Handled(setup, d', Coordinate(k, o)) {
        HandledStays(setup, d, d', Coordinate(k, o));
      }
    }
  }

  lemma PositionsStay(setup: Setup, d: Durable, d': Durable, q: Processor)
    requires Grows(d, d')
    requires if q.pooled then PooledOk(setup, d, q) else SingleOk(setup, d, q)
    ensures if q.pooled then PooledOk(setup, d', q) else SingleOk(setup, d', q)
  {
    forall k | k in q.positions && HandledBelow(setup, d, k, q.positions[k])
      ensures HandledBelow(setup, d', k, q.positions[k])
    {
      HandledBelowStays(setup, d, d', k, q.positions[k]);
    }
    forall i | 0 <= i < |q.queue| && Handled(setup, d, q.queue[i]) ensures Handled(setup, d', q.queue[i]) {
      HandledStays(setup, d, d', q.queue[i]);
    }
    forall t | t in q.inflight && Current(setup, d, q, q.inflight[t].source)
      ensures Current(setup, d', q, q.inflight[t].source)
    {
      HandledBelowStays(setup, d, d', q.inflight[t].source.key, q.inflight[t].source.offset);
    }
  }

  lemma ProcessorOkStays(setup: Setup, d: Durable, d': Durable, q: Processor)
    requires Grows(d, d') && ProcessorOk(setup, d, q)
    ensures ProcessorOk(setup, d', q)
  {
    TrackerSafeStays(setup, d, d', q.tracker);
    PositionsStay(setup, d, d', q);
  }

  /** Replacing one processor, growing the durable state and publishing sound positions. */
  lemma InstallKeeps(setup: Setup, w: World, w': World, p: ProcessorId, q: Processor, published: map<PartitionKey, int>)
    requires OffsetsOk(setup, w) && Grows(Of(w), Of(w'))
    requires w'.processors == w.processors[p := q] && ProcessorOk(setup, Of(w'), q)
    requires w'.committed == w.committed + published
    requires forall k :: k in published ==> HandledBelow(setup, Of(w'), k, published[k])
    ensures OffsetsOk(setup, w')
  {
    hide ProcessorOk, Grows, HandledBelow;
    forall r | r in w'.processors ensures ProcessorOk(setup, Of(w'), w'.processors[r]) {
      if r != p { ProcessorOkStays(setup, Of(w), Of(w'), w.processors[r]); }
    }
    forall k | k in w'.committed ensures HandledBelow(setup, Of(w'), k, w'.committed[k]) {
      if k !in published { HandledBelowStays(setup, Of(w), Of(w'), k, w.committed[k]); }
    }
  }

  // ----- the tracker under the invariant -----

  lemma MarkSafe(setup: Setup, d: Durable, key: PartitionKey, p: F.Partition, offset: int)
    requires PartOk(setup, d, key, p) && Handled(setup, d, Coordinate(key, offset))
    requires HandledBelow(setup, d, key, F.Anchor(p, offset) + 1)
    ensures PartOk(setup, d, key, F.Mark(p, offset))
    ensures F.Mark(p, offset).floor == p.floor
  {
    var q := F.Mark(p, offset);
    var s := F.Anchor(p, offset);
    forall o | setup.origin(key) <= o < q.safe.value + 1 ensures Handled(setup, d, Coordinate(key, o)) {
      if s < o { assert o in p.pending + {offset}; }
    }
  }

  /** A flush changes neither the frontiers nor the dispatch floors. */
  ghost predicate SameAnchors(t: Tracker, t': Tracker) {
    && t'.parts.Keys == t.parts.Keys
    && forall k :: k in t.parts ==> t'.parts[k].floor == t.parts[k].floor && t'.parts[k].safe == t.parts[k].safe
  }

  lemma FlushSafe(setup: Setup, d: Durable, t: Tracker, only: Option<set<PartitionKey>>, accept: bool, now: real)
    requires TrackerSafe(setup, d, t)
    ensures var f := Flush(t, only, accept, now);
            && TrackerSafe(setup, d, f.tracker)
            && SameAnchors(t, f.tracker)
            && (forall k :: k in f.published ==> HandledBelow(setup, d, k, f.published[k]))
  {
    var f := Flush(t, only, accept, now);
    forall k | k in f.tracker.parts ensures PartOk(setup, d, k, f.tracker.parts[k]) {
      assert PartOk(setup, d, k, t.parts[k]);
    }
  }

  /** `commit_terminal` on a handled record whose partition is anchored on handled ground. */
  lemma CommitTerminalSafe(setup: Setup, d: Durable, t: Tracker, c: Coordinate, accept: bool, now: real)
    requires TrackerSafe(setup, d, t) && Handled(setup, d, c)
    requires HandledBelow(setup, d, c.key, F.Anchor(Part(t, c.key), c.offset) + 1)
    ensures var f := CommitTerminal(setup.commits, t, c.key, c.offset, accept, now);
            && TrackerSafe(setup, d, f.tracker)
            && SameAnchors(MarkTerminal(t, c.key, c.offset), f.tracker)
            && (forall k :: k in f.published ==> HandledBelow(setup, d, k, f.published[k]))
  {
    assert PartOk(setup, d, c.key, Part(t, c.key));
    MarkSafe(setup, d, c.key, Part(t, c.key), c.offset);
    var marked := MarkTerminal(t, c.key, c.offset);
    assert TrackerSafe(setup, d, marked);
    FlushSafe(setup, d, marked, None, accept, now);
  }

  lemma AnchoredPart(setup: Setup, d: Durable, t: Tracker, key: PartitionKey)
    requires TrackerSafe(setup, d, t)
    ensures PartOk(setup, d, key, Part(t, key))
  {
    assert key in t.parts ==> PartOk(setup, d, key, t.parts[key]);
  }

  // ----- steps of the record protocol -----

  lemma SettleKeeps(setup: Setup, d: Durable, q: Processor, token: Token, phase: P.Phase)
    requires ProcessorOk(setup, d, q) && token in q.inflight
    requires phase.Returned? && phase.status != P.Unresolved ==> Handled(setup, d, q.inflight[token].source)
    ensures ProcessorOk(setup, d, Settle(q, token, q.inflight[token].source, phase))
  {
    hide TrackerSafe;
    var c := q.inflight[token].source;
    var q' := Settle(q, token, c, phase);
    if !q.pooled {
      assert Current(setup, d, q, c);
      if q'.inflight == map[] && q'.running {
        assert HandledBelow(setup, d, c.key, c.offset + 1);
      }
    }
  }

  lemma OnlyUnresolvedReturns(setup: Setup, w: World, step: Step)
    requires Enabled(w, step) && IsWorker(step)
    ensures var phase := PhaseAfter(setup, w, step); phase.Returned? ==> phase.status == P.Unresolved
  {
    hide Attempt, ReserveReply, CompleteReply;
  }

  lemma WorkerKeepsOffsets(setup: Setup, w: World, step: Step)
    requires OffsetsOk(setup, w) && Enabled(w, step) && IsWorker(step)
    requires Grows(Of(w), Of(Next(setup, w, step)))
    ensures OffsetsOk(setup, Next(setup, w, step))
  {
    hide OffsetsOk, Next, Enabled, ProcessorOk, Grows, PhaseAfter, Settle;
    var w' := Next(setup, w, step);
    WorkerMoves(setup, w, step);
    OnlyUnresolvedReturns(setup, w, step);
    var q, phase := w.processors[step.p], PhaseAfter(setup, w, step);
    OffsetsParts(setup, w, step.p);
    ProcessorOkStays(setup, Of(w), Of(w'), q);
    SettleKeeps(setup, Of(w'), q, step.token, phase);
    InstallKeeps(setup, w, w', step.p, Settle(q, step.token, q.inflight[step.token].source, phase), map[]);
  }

  lemma OffsetsParts(setup: Setup, w: World, p: ProcessorId)
    requires OffsetsOk(setup, w)
    ensures NoLoss(setup, w) && (p in w.processors ==> ProcessorOk(setup, Of(w), w.processors[p]))
  {
  }

  // ----- steps of the consumer -----

  lemma PollPooledOk(setup: Setup, d: Durable, q: Processor, key: PartitionKey, token: Token)
    requires ProcessorOk(setup, d, q) && q.pooled && key in q.positions
    ensures var offset := q.positions[key];
            ProcessorOk(setup, d, q.(
              tracker := Observe(q.tracker, key, offset),
              positions := q.positions[key := offset + 1],
              inflight := q.inflight[token := Work(Coordinate(key, offset), P.Validating)]))
  {
    hide HandledBelow, Handled;
    var t' := Observe(q.tracker, key, q.positions[key]);
    forall k | k in t'.parts ensures PartOk(setup, d, k, t'.parts[k]) {
      assert k in q.tracker.parts ==> PartOk(setup, d, k, q.tracker.parts[k]);
    }
  }

  lemma PollSingleOk(setup: Setup, d: Durable, q: Processor, key: PartitionKey, token: Token)
    requires ProcessorOk(setup, d, q) && !q.pooled && q.running && q.inflight == map[] && key in q.positions
    ensures var offset := q.positions[key];
            ProcessorOk(setup, d, q.(
              positions := q.positions[key := offset + 1],
              inflight := q.inflight[token := Work(Coordinate(key, offset), P.Validating)]))
  {
    hide HandledBelow, Handled, TrackerSafe;
    var offset := q.positions[key];
    var q' := q.(positions := q.positions[key := offset + 1],
                 inflight := q.inflight[token := Work(Coordinate(key, offset), P.Validating)]);
    assert HandledBelow(setup, d, key, offset);
    assert forall k :: k in q'.positions && k != key ==> k in q.positions && HandledBelow(setup, d, k, q.positions[k]);
    assert Current(setup, d, q', Coordinate(key, offset));
    assert token in q'.inflight;
  }

  lemma PollOk(setup: Setup, w: World, p: ProcessorId, key: PartitionKey)
    requires Enabled(w, Poll(p, key)) && ProcessorOk(setup, Of(w), w.processors[p])
    ensures ProcessorOk(setup, Of(w), PollOne(setup, w, p, key).processors[p])
  {
    hide ProcessorOk;
    if w.processors[p].pooled {
      PollPooledOk(setup, Of(w), w.processors[p], key, w.nextToken);
    } else {
      PollSingleOk(setup, Of(w), w.processors[p], key, w.nextToken);
    }
  }

  lemma PollKeepsOffsets(setup: Setup, w: World, p: ProcessorId, key: PartitionKey)
    requires OffsetsOk(setup, w) && ExactlyOnce(w.db) && Enabled(w, Poll(p, key))
    ensures OffsetsOk(setup, PollOne(setup, w, p, key))
  {
    hide OffsetsOk, ProcessorOk;
    var w' := PollOne(setup, w, p, key);
    OffsetsParts(setup, w, p);
    PollOk(setup, w, p, key);
    InstallKeeps(setup, w, w', p, w'.processors[p], map[]);
  }

  /** One processor changes and positions are published. */
  lemma FlushingKeeps(setup: Setup, w: World, p: ProcessorId, q: Processor, f: Flushed)
    requires OffsetsOk(setup, w) && ExactlyOnce(w.db) && ProcessorOk(setup, Of(w), q.(tracker := f.tracker))
    requires forall k :: k in f.published ==> HandledBelow(setup, Of(w), k, f.published[k])
    ensures OffsetsOk(setup, Flushing(w, p, q, f))
  {
    hide OffsetsOk, ProcessorOk;
    InstallKeeps(setup, w, Flushing(w, p, q, f), p, q.(tracker := f.tracker), f.published);
  }

  /** Only the processor itself changes. */
  lemma LocalKeeps(setup: Setup, w: World, p: ProcessorId, q: Processor)
    requires OffsetsOk(setup, w) && ExactlyOnce(w.db) && ProcessorOk(setup, Of(w), q)
    ensures OffsetsOk(setup, Install(w, p, q))
  {
    hide OffsetsOk, ProcessorOk;
    InstallKeeps(setup, w, Install(w, p, q), p, q, map[]);
  }

  lemma FinishPooledOk(setup: Setup, d: Durable, q: Processor, t: Token)
    requires ProcessorOk(setup, d, q) && q.pooled && t in q.inflight && Handled(setup, d, q.inflight[t].source)
    ensures ProcessorOk(setup, d, q.(queue := q.queue + [q.inflight[t].source]))
  {
    hide HandledBelow, TrackerSafe, Handled;
    assert PooledOk(setup, d, q.(queue := q.queue + [q.inflight[t].source]));
  }

  lemma FinishPooledKeeps(setup: Setup, w: World, p: ProcessorId, t: Token, accept: bool, now: real)
    requires OffsetsOk(setup, w) && ExactlyOnce(w.db) && Enabled(w, Finish(p, t, accept, now)) && w.processors[p].pooled
    requires Handled(setup, Of(w), w.processors[p].inflight[t].source)
    ensures OffsetsOk(setup, FinishOne(setup, w, p, t, accept, now))
  {
    hide OffsetsOk, ProcessorOk, ExactlyOnce, Handled;
    OffsetsParts(setup, w, p);
    var q := w.processors[p];
    var Work(source, phase) := q.inflight[t];
    var queued := q.(queue := q.queue + [source]);
    var done := P.Returned(phase.status, phase.attempts);
    FinishPooledOk(setup, Of(w), q, t);
    SettleKeeps(setup, Of(w), queued, t, done);
    LocalKeeps(setup, w, p, Settle(queued, t, source, done));
  }

  lemma FinishSingleOk(setup: Setup, d: Durable, q: Processor, t: Token, accept: bool, now: real)
    requires ProcessorOk(setup, d, q) && !q.pooled && t in q.inflight && Handled(setup, d, q.inflight[t].source)
    ensures var c := q.inflight[t].source;
            var f := CommitTerminal(setup.commits, q.tracker, c.key, c.offset, accept, now);
            && ProcessorOk(setup, d, q.(tracker := f.tracker))
            && forall k :: k in f.published ==> HandledBelow(setup, d, k, f.published[k])
  {
    hide CommitTerminal, TrackerSafe, Handled;
    var c := q.inflight[t].source;
    assert Current(setup, d, q, c);
    AnchoredPart(setup, d, q.tracker, c.key);
    CommitTerminalSafe(setup, d, q.tracker, c, accept, now);
    var f := CommitTerminal(setup.commits, q.tracker, c.key, c.offset, accept, now);
    var q' := q.(tracker := f.tracker);
    assert Current(setup, d, q', c);
    assert SingleOk(setup, d, q');
  }

  lemma FinishRevokedKeeps(setup: Setup, w: World, p: ProcessorId, t: Token, accept: bool, now: real)
    requires OffsetsOk(setup, w) && ExactlyOnce(w.db) && Enabled(w, Finish(p, t, accept, now)) && !w.processors[p].pooled
    requires w.processors[p].inflight[t].source.key in w.processors[p].revoked
    ensures OffsetsOk(setup, FinishOne(setup, w, p, t, accept, now))
  {
    hide OffsetsOk, ProcessorOk, ExactlyOnce;
    OffsetsParts(setup, w, p);
    var q := w.processors[p];
    SettleKeeps(setup, Of(w), q, t, P.Raised);
    LocalKeeps(setup, w, p, Settle(q, t, q.inflight[t].source, P.Raised));
  }

  lemma FinishSingleKeeps(setup: Setup, w: World, p: ProcessorId, t: Token, accept: bool, now: real)
    requires OffsetsOk(setup, w) && ExactlyOnce(w.db) && Enabled(w, Finish(p, t, accept, now)) && !w.processors[p].pooled
    requires w.processors[p].inflight[t].source.key !in w.processors[p].revoked
    requires Handled(setup, Of(w), w.processors[p].inflight[t].source)
    ensures OffsetsOk(setup, FinishOne(setup, w, p, t, accept, now))
  {
    hide OffsetsOk, ProcessorOk, ExactlyOnce, CommitTerminal, Handled;
    var q := w.processors[p];
    var Work(source, phase) := q.inflight[t];
    OffsetsParts(setup, w, p);
    var f := CommitTerminal(setup.commits, q.tracker, source.key, source.offset, accept, now);
    var phase' := P.AfterCommit(phase.status, phase.attempts, !f.raised);
    FinishSingleOk(setup, Of(w), q, t, accept, now);
    SettleKeeps(setup, Of(w), q.(tracker := f.tracker), t, phase');
    FlushingKeeps(setup, w, p, Settle(q, t, source, phase'), f);
  }

  lemma FinishKeepsOffsets(setup: Setup, w: World, p: ProcessorId, t: Token, accept: bool, now: real)
    requires Inv(setup, w) && Enabled(w, Finish(p, t, accept, now))
    ensures OffsetsOk(setup, FinishOne(setup, w, p, t, accept, now))
  {
    hide OffsetsOk, ExactlyOnce, FinishOne, RecordsOk, Handled;
    WorkIsOk(setup, w, p, t);
    if w.processors[p].pooled {
      FinishPooledKeeps(setup, w, p, t, accept, now);
    } else if w.processors[p].inflight[t].source.key in w.processors[p].revoked {
      FinishRevokedKeeps(setup, w, p, t, accept, now);
    } else {
      FinishSingleKeeps(setup, w, p, t, accept, now);
    }
  }

  /** Where a completion anchors: below it everything is handled unless it overtakes. */
  lemma DrainAnchor(setup: Setup, d: Durable, q: Processor)
    requires ProcessorOk(setup, d, q) && q.pooled && q.queue != [] && q.queue[0].key !in q.revoked
    ensures var c := q.queue[0];
            && Handled(setup, d, c) && c.key in q.positions
            && (c.key in q.tracker.parts || c.offset <= q.positions[c.key] ==>
                  HandledBelow(setup, d, c.key, F.Anchor(Part(q.tracker, c.key), c.offset) + 1))
  {
    hide Handled;
    var c := q.queue[0];
    assert Known(q, c.key);
    AnchoredPart(setup, d, q.tracker, c.key);
    assert c.key in q.tracker.parts ==> q.tracker.parts[c.key].floor.Some? || q.tracker.parts[c.key].safe.Some?;
    assert c.key !in q.tracker.parts ==> Unanchored(q, c.key);
  }

  lemma DrainOk(setup: Setup, d: Durable, q: Processor, running: bool, accept: bool, now: real)
    requires ProcessorOk(setup, d, q) && q.pooled && q.queue != [] && q.queue[0].key !in q.revoked
    requires HandledBelow(setup, d, q.queue[0].key, F.Anchor(Part(q.tracker, q.queue[0].key), q.queue[0].offset) + 1)
    ensures var c := q.queue[0];
            var f := CommitTerminal(setup.commits, q.tracker, c.key, c.offset, accept, now);
            && ProcessorOk(setup, d, q.(queue := q.queue[1..], running := running, tracker := f.tracker))
            && forall k :: k in f.published ==> HandledBelow(setup, d, k, f.published[k])
  {
    hide CommitTerminal, MarkTerminal, ProcessorOk, Handled, HandledBelow, F.Anchor;
    var c := q.queue[0];
    DrainAnchor(setup, d, q);
    SafeTracker(setup, d, q);
    CommitTerminalSafe(setup, d, q.tracker, c, accept, now);
    MarkAnchors(q.tracker, c);
    DrainedOk(setup, d, q, running, CommitTerminal(setup.commits, q.tracker, c.key, c.offset, accept, now).tracker);
  }

  lemma DrainedOk(setup: Setup, d: Durable, q: Processor, running: bool, t: Tracker)
    requires ProcessorOk(setup, d, q) && q.pooled && q.queue != [] && q.queue[0].key in q.positions
    requires TrackerSafe(setup, d, t) && SameAnchors(MarkTerminal(q.tracker, q.queue[0].key, q.queue[0].offset), t)
    ensures ProcessorOk(setup, d, q.(queue := q.queue[1..], running := running, tracker := t))
  {
    hide TrackerSafe, Handled, HandledBelow, MarkTerminal;
    var q' := q.(queue := q.queue[1..], running := running, tracker := t);
    MarkAnchors(q.tracker, q.queue[0]);
    assert forall k :: k in q'.positions && Unanchored(q', k) ==> Unanchored(q, k);
    assert PooledOk(setup, d, q');
  }

  lemma MarkAnchors(t: Tracker, c: Coordinate)
    ensures var t' := MarkTerminal(t, c.key, c.offset);
            && t'.parts.Keys == t.parts.Keys + {c.key}
            && t'.parts[c.key].safe.Some? && t'.parts[c.key].floor == Part(t, c.key).floor
            && forall k :: k in t.parts && k != c.key ==> t'.parts[k] == t.parts[k]
  {
    hide F.RunEnd;
  }

  lemma DrainKeepsOffsets(setup: Setup, w: World, p: ProcessorId, accept: bool, now: real)
    requires OffsetsOk(setup, w) && ExactlyOnce(w.db) && Enabled(w, Drain(p, accept, now))
    requires !Overtakes(w, Drain(p, accept, now))
    ensures OffsetsOk(setup, DrainOne(setup, w, p, accept, now))
  {
    hide OffsetsOk, ProcessorOk, ExactlyOnce, HandledBelow, Handled, CommitTerminal, F.Anchor;
    var q := w.processors[p];
    var c := q.queue[0];
    OffsetsParts(setup, w, p);
    if c.key in q.revoked {
      RevokedDrainOk(setup, Of(w), q);
      LocalKeeps(setup, w, p, q.(queue := q.queue[1..], running := false));
    } else {
      var f := CommitTerminal(setup.commits, q.tracker, c.key, c.offset, accept, now);
      DrainAnchor(setup, Of(w), q);
      DrainOk(setup, Of(w), q, q.running && !f.raised, accept, now);
      FlushingKeeps(setup, w, p, q.(queue := q.queue[1..], running := q.running && !f.raised), f);
    }
  }

  lemma RevokedDrainOk(setup: Setup, d: Durable, q: Processor)
    requires ProcessorOk(setup, d, q) && q.pooled && q.queue != []
    ensures ProcessorOk(setup, d, q.(queue := q.queue[1..], running := false))
  {
    hide HandledBelow, Handled, TrackerSafe;
    assert PooledOk(setup, d, q.(queue := q.queue[1..], running := false));
  }

  lemma RevokeOk(setup: Setup, d: Durable, q: Processor, keys: set<PartitionKey>, t: Tracker)
    requires ProcessorOk(setup, d, q) && (q.pooled || q.inflight == map[])
    requires TrackerSafe(setup, d, t) && SameAnchors(q.tracker, t)
    ensures ProcessorOk(setup, d, q.(
              revoked := q.revoked + keys, positions := q.positions - keys, tracker := Drop(t, keys)))
  {
    hide HandledBelow, Handled;
    var q' := q.(revoked := q.revoked + keys, positions := q.positions - keys, tracker := Drop(t, keys));
    assert forall k :: k in q'.positions && Unanchored(q', k) ==> Unanchored(q, k);
    assert forall k :: Known(q, k) ==> Known(q', k);
  }

  lemma RevokeKeepsOffsets(setup: Setup, w: World, p: ProcessorId, keys: set<PartitionKey>, accept: bool, now: real)
    requires OffsetsOk(setup, w) && ExactlyOnce(w.db) && Enabled(w, Revoke(p, keys, accept, now))
    ensures OffsetsOk(setup, RevokeKeys(w, p, keys, accept, now))
  {
    hide OffsetsOk, Flush, ProcessorOk, HandledBelow, ExactlyOnce, SameAnchors;
    var q := w.processors[p];
    var f := Flush(q.tracker, Some(keys), accept, now);
    OffsetsParts(setup, w, p);
    SafeTracker(setup, Of(w), q);
    FlushSafe(setup, Of(w), q.tracker, Some(keys), accept, now);
    RevokeOk(setup, Of(w), q, keys, f.tracker);
    FlushingKeeps(setup, w, p, q.(revoked := q.revoked + keys, positions := q.positions - keys),
                  f.(tracker := Drop(f.tracker, keys)));
  }

  lemma SafeTracker(setup: Setup, d: Durable, q: Processor)
    requires ProcessorOk(setup, d, q)
    ensures TrackerSafe(setup, d, q.tracker)
  {
  }

  lemma FlushedOk(setup: Setup, d: Durable, q: Processor, running: bool, t: Tracker)
    requires ProcessorOk(setup, d, q) && (running ==> q.running)
    requires TrackerSafe(setup, d, t) && SameAnchors(q.tracker, t)
    ensures ProcessorOk(setup, d, q.(running := running, tracker := t))
  {
    hide HandledBelow, Handled;
    var q' := q.(running := running, tracker := t);
    assert forall k :: k in q'.positions && Unanchored(q', k) ==> Unanchored(q, k);
    assert forall k :: Known(q, k) ==> Known(q', k);
    assert forall tk :: tk in q.inflight && Current(setup, d, q, q.inflight[tk].source) ==>
        Current(setup, d, q', q.inflight[tk].source);
  }

  lemma AssignOk(setup: Setup, d: Durable, q: Processor, key: PartitionKey, begin: int)
    requires ProcessorOk(setup, d, q) && key !in q.positions && (q.pooled || q.inflight == map[])
    requires HandledBelow(setup, d, key, begin)
    ensures ProcessorOk(setup, d, q.(revoked := q.revoked - {key}, positions := q.positions[key := begin]))
  {
    hide HandledBelow, Handled, TrackerSafe;
    var q' := q.(revoked := q.revoked - {key}, positions := q.positions[key := begin]);
    assert forall k :: Known(q, k) ==> Known(q', k);
  }

  lemma BeginHandled(setup: Setup, w: World, key: PartitionKey)
    requires NoLoss(setup, w)
    ensures HandledBelow(setup, Of(w), key, Begin(setup, w, key))
  {
  }

  lemma AssignKeepsOffsets(setup: Setup, w: World, p: ProcessorId, key: PartitionKey)
    requires OffsetsOk(setup, w) && ExactlyOnce(w.db) && Enabled(w, Assign(p, key))
    ensures OffsetsOk(setup, Next(setup, w, Assign(p, key)))
  {
    hide OffsetsOk, ProcessorOk, HandledBelow, ExactlyOnce;
    OffsetsParts(setup, w, p);
    BeginHandled(setup, w, key);
    var q := w.processors[p];
    AssignOk(setup, Of(w), q, key, Begin(setup, w, key));
    LocalKeeps(setup, w, p, q.(revoked := q.revoked - {key}, positions := q.positions[key := Begin(setup, w, key)]));
  }

  lemma IdleKeepsOffsets(setup: Setup, w: World, step: Step)
    requires OffsetsOk(setup, w) && ExactlyOnce(w.db) && Enabled(w, step) && (step.Idle? || step.Shutdown?)
    ensures OffsetsOk(setup, Next(setup, w, step))
  {
    hide OffsetsOk, Flush, ProcessorOk, ExactlyOnce, HandledBelow, SameAnchors;
    var q := w.processors[step.p];
    OffsetsParts(setup, w, step.p);
    SafeTracker(setup, Of(w), q);
    FlushSafe(setup, Of(w), q.tracker, None, step.accept, step.now);
    SameAnchorsRefl(q.tracker);
    var f := if step.Idle? then MaybeFlush(setup.commits, q.tracker, step.accept, step.now)
             else Flush(q.tracker, None, step.accept, step.now);
    var running := step.Idle? && q.running && !f.raised;
    FlushedOk(setup, Of(w), q, running, f.tracker);
    FlushingKeeps(setup, w, step.p, q.(running := running), f);
  }

  lemma SameAnchorsRefl(t: Tracker)
    ensures SameAnchors(t, t)
  {
  }

  lemma FreshProcessorOk(setup: Setup, d: Durable, pooled: bool, now: real)
    ensures ProcessorOk(setup, d, Processor(pooled, true, Init(now), {}, map[], map[], []))
  {
  }

  lemma StoppedOk(setup: Setup, d: Durable, q: Processor)
    requires ProcessorOk(setup, d, q)
    ensures ProcessorOk(setup, d, q.(running := false))
  {
    SameAnchorsRefl(q.tracker);
    FlushedOk(setup, d, q, false, q.tracker);
  }

  lemma StartKeepsOffsets(setup: Setup, w: World, step: Step)
    requires OffsetsOk(setup, w) && ExactlyOnce(w.db) && Enabled(w, step) && (step.Start? || step.Stop?)
    ensures OffsetsOk(setup, Next(setup, w, step))
  {
    hide OffsetsOk, ExactlyOnce, ProcessorOk;
    if step.Start? {
      FreshProcessorOk(setup, Of(w), step.pooled, step.now);
    } else {
      OffsetsParts(setup, w, step.p);
      StoppedOk(setup, Of(w), w.processors[step.p]);
    }
    LocalKeeps(setup, w, step.p, Next(setup, w, step).processors[step.p]);
  }

  lemma CrashKeepsOffsets(setup: Setup, w: World, step: Step)
    requires OffsetsOk(setup, w) && Enabled(w, step) && (step.Crash? || step.Expire?)
    ensures OffsetsOk(setup, Next(setup, w, step))
  {
    hide ProcessorOk, HandledBelow;
    assert Of(Next(setup, w, step)) == Of(w);
  }

  lemma ProcessKeepsOffsets(setup: Setup, w: World, step: Step)
    requires OffsetsOk(setup, w) && ExactlyOnce(w.db) && Enabled(w, step)
    requires step.Start? || step.Crash? || step.Stop? || step.Expire?
    ensures OffsetsOk(setup, Next(setup, w, step))
  {
    hide OffsetsOk, ExactlyOnce, Next, Enabled;
    if step.Start? || step.Stop? { StartKeepsOffsets(setup, w, step); } else { CrashKeepsOffsets(setup, w, step); }
  }

  /** Every step of every processor and of the environment keeps the invariant, except one that overtakes. */
  lemma StepKeeps(setup: Setup, w: World, step: Step)
    requires Inv(setup, w) && Enabled(w, step) && !Overtakes(w, step)
    ensures Inv(setup, Next(setup, w, step))
  {
    hide RecordsOk, OffsetsOk, PollOne, FinishOne, DrainOne, RevokeKeys, Overtakes;
    StepKeepsRecords(setup, w, step);
    OnceOk(setup, w);
    StepKeepsOffsets(setup, w, step);
  }

  lemma StepKeepsOffsets(setup: Setup, w: World, step: Step)
    requires Inv(setup, w) && ExactlyOnce(w.db) && Enabled(w, step) && !Overtakes(w, step)
    requires Grows(Of(w), Of(Next(setup, w, step)))
    ensures OffsetsOk(setup, Next(setup, w, step))
  {
    hide RecordsOk, OffsetsOk, PollOne, FinishOne, DrainOne, RevokeKeys, Overtakes, ExactlyOnce, Grows;
    match step
    case Poll(p, key) => PollKeepsOffsets(setup, w, p, key);
    case Finish(p, t, accept, now) => FinishKeepsOffsets(setup, w, p, t, accept, now);
    case Drain(p, accept, now) => DrainKeepsOffsets(setup, w, p, accept, now);
    case Revoke(p, keys, accept, now) => RevokeKeepsOffsets(setup, w, p, keys, accept, now);
    case Assign(p, key) => AssignKeepsOffsets(setup, w, p, key);
    case Idle(_, _, _) => IdleKeepsOffsets(setup, w, step);
    case Shutdown(_, _, _) => IdleKeepsOffsets(setup, w, step);
    case _ =>
      hide Next, Enabled;
      if IsWorker(step) { WorkerKeepsOffsets(setup, w, step); } else { ProcessKeepsOffsets(setup, w, step); }
  }

  // ----- whole runs -----

  lemma InitOk(setup: Setup)
    ensures Inv(setup, INIT)
  {
    InitIsOk(setup);
  }

  /** From any state of the invariant, every run in which no completion overtakes stays in it. */
  lemma {:induction false} RunKeeps(setup: Setup, w: World, steps: seq<Step>)
    requires Inv(setup, w) && Legal(setup, w, steps) && NoneOvertakes(setup, w, steps)
    ensures Inv(setup, Pipeline.Run(setup, w, steps))
    decreases |steps|
  {
    hide Inv, Next, Enabled;
    if steps != [] {
      StepKeeps(setup, w, steps[0]);
      RunKeeps(setup, Next(setup, w, steps[0]), steps[1..]);
    }
  }

  /** All processors of a run use the one-record-at-a-time loop. */
  ghost predicate SingleThreaded(steps: seq<Step>) {
    forall i :: 0 <= i < |steps| && steps[i].Start? ==> !steps[i].pooled
  }

  ghost predicate NoPool(w: World) {
    forall p :: p in w.processors ==> !w.processors[p].pooled
  }

  lemma InstallStaysSingle(w: World, w': World, p: ProcessorId, q: Processor)
    requires NoPool(w) && w'.processors == w.processors[p := q] && !q.pooled
    ensures NoPool(w')
  {
  }

  lemma WorkerStaysSingle(setup: Setup, w: World, step: Step)
    requires NoPool(w) && Enabled(w, step) && IsWorker(step)
    ensures NoPool(Next(setup, w, step))
  {
    hide Next, PhaseAfter;
    WorkerMoves(setup, w, step);
    InstallStaysSingle(w, Next(setup, w, step), step.p, Next(setup, w, step).processors[step.p]);
  }

  lemma ConsumerStaysSingle(setup: Setup, w: World, step: Step)
    requires NoPool(w) && Enabled(w, step) && !IsWorker(step) && (step.Start? ==> !step.pooled)
    ensures NoPool(Next(setup, w, step))
  {
    hide Flush, MaybeFlush, CommitTerminal, Observe, NoPool, Begin, Drop;
    if step.Crash? || step.Expire? {
      RemovalStaysSingle(w, Next(setup, w, step));
    } else {
      if !step.Start? { PooledElsewhere(w, step.p); }
      InstallStaysSingle(w, Next(setup, w, step), step.p, Next(setup, w, step).processors[step.p]);
    }
  }

  lemma RemovalStaysSingle(w: World, w': World)
    requires NoPool(w) && forall p :: p in w'.processors ==> p in w.processors && w'.processors[p] == w.processors[p]
    ensures NoPool(w')
  {
  }

  lemma PooledElsewhere(w: World, p: ProcessorId)
    requires NoPool(w) && p in w.processors
    ensures !w.processors[p].pooled
  {
  }

  lemma {:induction false} SingleNeverOvertakes(setup: Setup, w: World, steps: seq<Step>)
    requires NoPool(w) && Legal(setup, w, steps) && SingleThreaded(steps)
    ensures NoneOvertakes(setup, w, steps)
    decreases |steps|
  {
    hide Next, Enabled;
    if steps != [] {
      if IsWorker(steps[0]) { WorkerStaysSingle(setup, w, steps[0]); } else { ConsumerStaysSingle(setup, w, steps[0]); }
      SingleDrainsNothing(w, steps[0]);
      assert forall i :: 0 <= i < |steps[1..]| ==> steps[1..][i] == steps[i + 1];
      SingleNeverOvertakes(setup, Next(setup, w, steps[0]), steps[1..]);
    }
  }

  lemma SingleDrainsNothing(w: World, step: Step)
    requires NoPool(w) && Enabled(w, step)
    ensures !Overtakes(w, step)
  {
  }

  /**
   No loss, single-threaded: in every state that crashes, restarts, lease expiry, refused
   commits, rebalances and lost answers can reach, every offset below a committed position is
   in the ledger with its id and content, or in the dead-letter topic.
   */
  lemma NoLossSingleThreaded(setup: Setup, steps: seq<Step>)
    requires Legal(setup, INIT, steps) && SingleThreaded(steps)
    ensures NoLoss(setup, Pipeline.Run(setup, INIT, steps))
  {
    InitOk(setup);
    SingleNeverOvertakes(setup, INIT, steps);
    RunKeeps(setup, INIT, steps);
  }

  /**
   No loss for any mixture of pooled and single-threaded processors, as long as no completion of
   an earlier ownership epoch is ahead of the next offset of its partition. Completions of an
   earlier epoch at or below that offset are harmless.
   */
  lemma NoLossPooled(setup: Setup, steps: seq<Step>)
    requires Legal(setup, INIT, steps) && NoneOvertakes(setup, INIT, steps)
    ensures NoLoss(setup, Pipeline.Run(setup, INIT, steps))
  {
    InitOk(setup);
    RunKeeps(setup, INIT, steps);
  }
}
