/**
 The pooled loop across ownership epochs: a run in which it loses a record, and exactly when a
 completion of an earlier epoch leads to such a loss.
 */
module PooledEpochs {
  import opened Prelude
  import opened Commerce
  import opened TrackerSpec
  import opened Ledger
  import opened Pipeline
  import opened PipelineRecords
  import opened PipelineSafety
  import P = RecordProtocol
  import F = Frontier

  const K := PartitionKey(0, 0)

  function AllMalformed(): Setup {
    Setup((c: Coordinate) => Malformed, (k: PartitionKey) => 0, 1, Config(50, 1.0))
  }

  /**
   Two records are dispatched, the partition is revoked and assigned again, and then the second
   record of the old epoch completes before anything of the new epoch is dispatched. The
   completion only marks; the interval flush of the next idle poll commits.
   */
  const STALE_RUN: seq<Step> := [
    Start(0, true, 0.0), Assign(0, K), Poll(0, K), Poll(0, K),
    Revoke(0, {K}, true, 0.0), Assign(0, K),
    Validate(0, 1), Publish(0, 1, Sound), Finish(0, 1, true, 0.0), Drain(0, true, 0.0), Step.Idle(0, true, 1.0)]

  function Pool(
    positions: map<PartitionKey, int>, revoked: set<PartitionKey>, tracker: Tracker,
    inflight: map<Token, Work>, queue: seq<Coordinate>, tokens: nat, dlq: set<Coordinate>): World
  {
    World(map[], map[], NO_TABLES, dlq, map[0 := Processor(true, true, tracker, revoked, positions, inflight, queue)], tokens)
  }

  const FIRST := Work(Coordinate(K, 0), P.Validating)
  const DISPATCHED := Tracker(map[K := F.Partition(None, None, 0, {}, Some(-1))], 0, 0.0)

  function Two(phase: P.Phase): map<Token, Work> { map[0 := FIRST, 1 := Work(Coordinate(K, 1), phase)] }

  const SKIPPED := Tracker(map[K := F.Partition(Some(1), None, 1, {}, None)], 1, 0.0)
  const COMMITTED := Tracker(map[K := F.Partition(Some(1), Some(1), 0, {}, None)], 0, 1.0)

  function After(n: nat): World
    requires n <= 11
  {
    match n
    case 0 => INIT
    case 1 => Pool(map[], {}, Init(0.0), map[], [], 0, {})
    case 2 => Pool(map[K := 0], {}, Init(0.0), map[], [], 0, {})
    case 3 => Pool(map[K := 1], {}, DISPATCHED, map[0 := FIRST], [], 1, {})
    case 4 => Pool(map[K := 2], {}, DISPATCHED, Two(P.Validating), [], 2, {})
    case 5 => Pool(map[], {K}, Init(0.0), Two(P.Validating), [], 2, {})
    case 6 => Pool(map[K := 0], {}, Init(0.0), Two(P.Validating), [], 2, {})
    case 7 => Pool(map[K := 0], {}, Init(0.0), Two(P.DeadLettering(1)), [], 2, {})
    case 8 => Pool(map[K := 0], {}, Init(0.0), Two(P.Committing(P.DeadLettered, 1)), [], 2, {Coordinate(K, 1)})
    case 9 => Pool(map[K := 0], {}, Init(0.0), map[0 := FIRST], [Coordinate(K, 1)], 2, {Coordinate(K, 1)})
    case 10 => Pool(map[K := 0], {}, SKIPPED, map[0 := FIRST], [], 2, {Coordinate(K, 1)})
    case _ =>
      World(map[K := 2], map[], NO_TABLES, {Coordinate(K, 1)},
            map[0 := Processor(true, true, COMMITTED, {}, map[K := 0], map[0 := FIRST], [])], 2)
  }

  /** Step `n` of the run leads from `After(n)` to `After(n + 1)`. */
  ghost predicate Follows(n: nat)
    requires n < 11
  {
    Enabled(After(n), STALE_RUN[n]) && Next(AllMalformed(), After(n), STALE_RUN[n]) == After(n + 1)
  }

  lemma StaleStart() ensures Follows(0) {}

  lemma StaleAssign()
    ensures Follows(1) && Follows(5)
  {
    hide Flush, MaybeFlush, CommitTerminal, Attempt;
    var w, w' := Next(AllMalformed(), After(1), Assign(0, K)), Next(AllMalformed(), After(5), Assign(0, K));
    assert w.processors[0].revoked == {} && w'.processors[0].revoked == {};
    assert w.processors == After(2).processors && w'.processors == After(6).processors;
  }

  lemma FirstPoll()
    ensures Follows(2)
  {
    hide Flush, MaybeFlush, CommitTerminal, Attempt;
    var q := PollOne(AllMalformed(), After(2), 0, K).processors[0];
    assert q.positions == map[K := 1] && q.tracker == DISPATCHED && q.inflight == map[0 := FIRST];
    assert After(2).processors[0 := After(3).processors[0]] == After(3).processors;
  }

  lemma SecondPoll()
    ensures Follows(3)
  {
    hide Flush, MaybeFlush, CommitTerminal, Attempt;
    var q := PollOne(AllMalformed(), After(3), 0, K).processors[0];
    assert q.positions == map[K := 2] && q.tracker == DISPATCHED && q.inflight == Two(P.Validating);
    assert After(3).processors[0 := After(4).processors[0]] == After(4).processors;
  }

  lemma StaleRevocation()
    ensures Follows(4)
  {
    var q := After(4).processors[0];
    assert Commits(q.tracker, Some({K})) == map[];
    assert Flush(q.tracker, Some({K}), true, 0.0) == Flushed(q.tracker, map[], false);
    assert q.tracker.parts - {K} == map[];
    assert q.positions - {K} == map[] && q.revoked + {K} == {K};
    assert After(4).committed + map[] == After(4).committed;
    assert After(4).processors[0 := After(5).processors[0]] == After(5).processors;
  }

  lemma StaleValidates()
    ensures Follows(6)
  {
    hide Flush, MaybeFlush, CommitTerminal, Attempt;
    assert Two(P.Validating)[1 := Work(Coordinate(K, 1), P.DeadLettering(1))] == Two(P.DeadLettering(1));
    assert After(6).processors[0 := After(7).processors[0]] == After(7).processors;
  }

  lemma StaleDeadLetters()
    ensures Follows(7)
  {
    hide Flush, MaybeFlush, CommitTerminal, Attempt;
    var committing := P.Committing(P.DeadLettered, 1);
    assert Two(P.DeadLettering(1))[1 := Work(Coordinate(K, 1), committing)] == Two(committing);
    assert After(7).processors[0 := After(8).processors[0]] == After(8).processors;
  }

  lemma StaleFinishes()
    ensures Follows(8)
  {
    hide Flush, MaybeFlush, CommitTerminal, Attempt;
    var q := FinishOne(AllMalformed(), After(8), 0, 1, true, 0.0).processors[0];
    assert q.inflight == map[0 := FIRST] && q.queue == [Coordinate(K, 1)];
    assert After(8).processors[0 := After(9).processors[0]] == After(9).processors;
  }

  lemma StaleStep(n: nat)
    requires n < 11
    ensures Follows(n)
  {
    hide Follows;
    if n == 0 { StaleStart(); }
    else if n == 1 || n == 5 { StaleAssign(); }
    else if n == 2 { FirstPoll(); }
    else if n == 3 { SecondPoll(); }
    else if n == 4 { StaleRevocation(); }
    else if n == 6 { StaleValidates(); }
    else if n == 7 { StaleDeadLetters(); }
    else if n == 8 { StaleFinishes(); }
    else if n == 9 { StaleDrains(); }
    else { StaleCommits(); }
  }

  lemma StaleDrains()
    ensures Follows(9)
  {
    F.RunEndUnique(0, {1}, 1);
    assert F.FRESH.pending + {1} == {1} && F.Above(1, {1}) == {};
    assert F.Mark(F.FRESH, 1) == F.Partition(Some(1), None, 1, {}, None);
    var q := After(9).processors[0];
    assert MarkTerminal(q.tracker, K, 1) == SKIPPED;
    assert MaybeFlush(AllMalformed().commits, SKIPPED, true, 0.0) == Flushed(SKIPPED, map[], false);
    assert After(9).committed + map[] == After(9).committed && q.queue[1..] == [];
    assert After(9).processors[0 := After(10).processors[0]] == After(10).processors;
  }

  lemma SkippedIsFlushed()
    ensures MaybeFlush(AllMalformed().commits, SKIPPED, true, 1.0) == Flushed(COMMITTED, map[K := 2], false)
  {
    assert Commits(SKIPPED, None) == map[K := 2];
    assert Confirmed(SKIPPED, {K}) == COMMITTED.parts;
  }

  lemma StaleCommits()
    ensures Follows(10)
  {
    hide Flush, MaybeFlush, CommitTerminal, Attempt;
    SkippedIsFlushed();
    assert After(10).committed + map[K := 2] == map[K := 2];
    assert After(10).processors[0 := After(11).processors[0]] == After(11).processors;
  }

  lemma {:induction false} StaleRunIsLegal(n: nat)
    requires n <= 11
    ensures Legal(AllMalformed(), After(n), STALE_RUN[n..])
    ensures Pipeline.Run(AllMalformed(), After(n), STALE_RUN[n..]) == After(11)
    decreases 11 - n
  {
    hide Next, Enabled, After, AllMalformed;
    if n == 11 {
      assert STALE_RUN[11..] == [];
    } else {
      StaleStep(n);
      StaleRunIsLegal(n + 1);
      assert STALE_RUN[n..][1..] == STALE_RUN[n + 1..] && STALE_RUN[n..][0] == STALE_RUN[n];
    }
  }

  /**
   No loss fails for the pooled loop: the run above commits position 2 although offset 0 was
   neither stored nor dead-lettered. Its only stale completion overtakes.
   */
  lemma PooledLoopCanLose()
    ensures Legal(AllMalformed(), INIT, STALE_RUN)
    ensures !NoLoss(AllMalformed(), Pipeline.Run(AllMalformed(), INIT, STALE_RUN))
    ensures Overtakes(After(9), STALE_RUN[9])
  {
    StaleRunIsLegal(0);
    assert STALE_RUN[0..] == STALE_RUN;
    assert !Handled(AllMalformed(), Of(After(11)), Coordinate(K, 0));
    assert !HandledBelow(AllMalformed(), Of(After(11)), K, 2);
  }

  // ----- exactly when -----

  /** The world after the drain, and after the next full flush that Kafka accepts. */
  function AfterDrain(setup: Setup, w: World, p: ProcessorId, accept: bool, now: real): (w': World)
    requires Enabled(w, Drain(p, accept, now))
    ensures p in w'.processors && Of(w') == Of(w)
  {
    DrainOne(setup, w, p, accept, now)
  }

  function AfterFlush(setup: Setup, w: World, p: ProcessorId, now: real): (w': World)
    requires p in w.processors
    ensures Of(w') == Of(w)
  {
    Next(setup, w, Shutdown(p, true, now))
  }

  /** The tracker entry a stale completion makes, whether or not the drain also flushes. */
  lemma StaleEntry(setup: Setup, w: World, p: ProcessorId, accept: bool, now: real)
    requires StaleDrain(w, Drain(p, accept, now))
    ensures var c := w.processors[p].queue[0];
            var w' := AfterDrain(setup, w, p, accept, now);
            var t := w'.processors[p].tracker;
            && c.key in t.parts && t.parts[c.key].safe == F.Mark(F.FRESH, c.offset).safe == Some(c.offset)
            && (F.Uncommitted(t.parts[c.key]) || (c.key in w'.committed && w'.committed[c.key] == c.offset + 1))
  {
    var q := w.processors[p];
    var c := q.queue[0];
    F.RunEndUnique(c.offset - 1, F.FRESH.pending + {c.offset}, c.offset);
    var t := MarkTerminal(q.tracker, c.key, c.offset);
    hide F.Mark;
    assert c.key in Commits(t, None) && Commits(t, None)[c.key] == c.offset + 1;
  }

  /**
   A stale completion declares an offset safe that was neither completed nor delivered in this
   epoch exactly when it overtakes: the condition the poll thread could test before it drains.
   */
  lemma StaleDrainSkipsIff(setup: Setup, w: World, p: ProcessorId, accept: bool, now: real)
    requires StaleDrain(w, Drain(p, accept, now)) && w.processors[p].queue[0].key in w.processors[p].positions
    ensures var c := w.processors[p].queue[0];
            var parts := AfterDrain(setup, w, p, accept, now).processors[p].tracker.parts;
            && c.key in parts && parts[c.key].safe.Some?
            && (F.SkipsUnmarked(w.processors[p].positions[c.key], c.offset, parts[c.key].safe.value) <==>
                Overtakes(w, Drain(p, accept, now)))
  {
    hide AfterDrain;
    StaleEntry(setup, w, p, accept, now);
    F.BootstrapSkipsIff(w.processors[p].positions[w.processors[p].queue[0].key], w.processors[p].queue[0].offset);
  }

  /**
   The records the oldest completion jumps over, from the next offset to be delivered, are all
   handled; trivially so when it does not overtake.
   */
  ghost predicate GapHandled(setup: Setup, d: Durable, q: Processor)
    requires q.queue != []
  {
    var c := q.queue[0];
    c.key in q.positions &&
    forall o :: Max(setup.origin(c.key), q.positions[c.key]) <= o < c.offset ==> Handled(setup, d, Coordinate(c.key, o))
  }

  lemma NoGapUnlessOvertaking(setup: Setup, w: World, p: ProcessorId, accept: bool, now: real)
    requires StaleDrain(w, Drain(p, accept, now)) && w.processors[p].queue[0].key in w.processors[p].positions
    ensures !Overtakes(w, Drain(p, accept, now)) ==> GapHandled(setup, Of(w), w.processors[p])
  {
    hide Handled;
  }

  lemma GapMeansBelow(setup: Setup, d: Durable, q: Processor)
    requires ProcessorOk(setup, d, q) && q.pooled && q.queue != []
    requires q.queue[0].key !in q.revoked && q.queue[0].key !in q.tracker.parts
    ensures q.queue[0].key in q.positions && Handled(setup, d, q.queue[0])
    ensures GapHandled(setup, d, q) <==> HandledBelow(setup, d, q.queue[0].key, q.queue[0].offset)
    ensures GapHandled(setup, d, q) <==> HandledBelow(setup, d, q.queue[0].key, q.queue[0].offset + 1)
  {
    hide Handled, TrackerSafe;
    var c := q.queue[0];
    assert Known(q, c.key) && Unanchored(q, c.key);
    assert Coordinate(c.key, c.offset) == c;
  }

  /** What the next full flush has committed of the partition. */
  lemma StaleIsCommitted(setup: Setup, w: World, p: ProcessorId, accept: bool, now: real, later: real)
    requires StaleDrain(w, Drain(p, accept, now))
    ensures var c := w.processors[p].queue[0];
            var w' := AfterFlush(setup, AfterDrain(setup, w, p, accept, now), p, later);
            c.key in w'.committed && w'.committed[c.key] == c.offset + 1
  {
    hide AfterDrain;
    StaleEntry(setup, w, p, accept, now);
    var c := w.processors[p].queue[0];
    var t := AfterDrain(setup, w, p, accept, now).processors[p].tracker;
    assert F.Uncommitted(t.parts[c.key]) <==> c.key in Commits(t, None);
  }

  /**
   Exactly when a stale completion leads to a loss, whatever the batch size and whether or not the
   drain itself commits: with the next full flush, no loss holds if and only if every record from
   the next offset to be delivered up to the completion was handled already.
   */
  lemma StaleDrainLosesIff(setup: Setup, w: World, p: ProcessorId, accept: bool, now: real, later: real)
    requires Inv(setup, w) && StaleDrain(w, Drain(p, accept, now))
    ensures var w' := AfterDrain(setup, w, p, accept, now);
            && (TrackerSafe(setup, Of(w'), w'.processors[p].tracker) <==> GapHandled(setup, Of(w), w.processors[p]))
            && (NoLoss(setup, AfterFlush(setup, w', p, later)) <==> GapHandled(setup, Of(w), w.processors[p]))
  {
    hide RecordsOk, OffsetsOk, AfterDrain, AfterFlush, Handled, HandledBelow, GapHandled, TrackerSafe, ProcessorOk;
    var c := w.processors[p].queue[0];
    OffsetsParts(setup, w, p);
    OnceOk(setup, w);
    GapMeansBelow(setup, Of(w), w.processors[p]);
    StaleEntry(setup, w, p, accept, now);
    StaleIsCommitted(setup, w, p, accept, now, later);
    if GapHandled(setup, Of(w), w.processors[p]) {
      HarmlessDrain(setup, w, p, accept, now, later);
    } else {
      EntryShows(setup, Of(w), AfterDrain(setup, w, p, accept, now).processors[p].tracker, c);
    }
  }

  lemma EntryShows(setup: Setup, d: Durable, t: Tracker, c: Coordinate)
    requires c.key in t.parts && t.parts[c.key].safe == Some(c.offset)
    ensures TrackerSafe(setup, d, t) ==> HandledBelow(setup, d, c.key, c.offset + 1)
  {
    hide HandledBelow;
    assert TrackerSafe(setup, d, t) ==> PartOk(setup, d, c.key, t.parts[c.key]);
  }

  lemma HarmlessDrain(setup: Setup, w: World, p: ProcessorId, accept: bool, now: real, later: real)
    requires OffsetsOk(setup, w) && ExactlyOnce(w.db) && StaleDrain(w, Drain(p, accept, now))
    requires HandledBelow(setup, Of(w), w.processors[p].queue[0].key, w.processors[p].queue[0].offset)
    ensures var w' := AfterDrain(setup, w, p, accept, now);
            TrackerSafe(setup, Of(w'), w'.processors[p].tracker) && NoLoss(setup, AfterFlush(setup, w', p, later))
  {
    hide OffsetsOk, ProcessorOk, Handled, HandledBelow, TrackerSafe, CommitTerminal, ExactlyOnce, Next;
    var q := w.processors[p];
    var c := q.queue[0];
    OffsetsParts(setup, w, p);
    var f := CommitTerminal(setup.commits, q.tracker, c.key, c.offset, accept, now);
    DrainOk(setup, Of(w), q, q.running && !f.raised, accept, now);
    FlushingKeeps(setup, w, p, q.(queue := q.queue[1..], running := q.running && !f.raised), f);
    var w' := AfterDrain(setup, w, p, accept, now);
    OffsetsParts(setup, w', p);
    SafeTracker(setup, Of(w'), w'.processors[p]);
    IdleKeepsOffsets(setup, w', Shutdown(p, true, later));
    OffsetsParts(setup, AfterFlush(setup, w', p, later), p);
  }
}
