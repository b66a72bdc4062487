/**
 What the steps of the pipeline do to a record, its lease, the tables and the offsets, each on its
 own terms.
 */
module PipelineSteps {
  import opened Prelude
  import opened Commerce
  import opened TrackerSpec
  import opened Ledger
  import opened Pipeline
  import P = RecordProtocol
  import F = Frontier

  /** The record is given up for now: its work ends, and a sequential loop ends with it. */
  ghost predicate GivesUp(w: World, w': World, p: ProcessorId, t: Token)
    requires p in w.processors
  {
    && p in w'.processors && w'.processors - {p} == w.processors - {p}
    && (var q, q' := w.processors[p], w'.processors[p];
        && t !in q'.inflight && q'.inflight == q.inflight - {t}
        && q'.running == (q.running && q.pooled)
        && q'.queue == q.queue && q'.tracker == q.tracker && q'.positions == q.positions && q'.revoked == q.revoked)
  }

  /** The record's work goes on in this phase. */
  ghost predicate GoesOn(w: World, w': World, p: ProcessorId, t: Token, phase: P.Phase)
    requires HasWork(w, p, t)
  {
    var q := w.processors[p];
    w'.processors == w.processors[p := q.(inflight := q.inflight[t := Work(q.inflight[t].source, phase)])]
  }

  /**
   What a reservation does. A free event is leased under the call's own token and goes on to its
   transaction; a completed one goes on to be reconciled; one whose lease another worker holds is
   left alone, and nothing is published, committed or written for it. A call that fails takes a
   lease at most, and only where there was none.
   */
  lemma ReserveMeans(setup: Setup, w: World, p: ProcessorId, t: Token, fault: Fault)
    requires Enabled(w, Reserve(p, t, fault))
    ensures var w', e := Next(setup, w, Reserve(p, t, fault)), w.processors[p].inflight[t].phase.event;
            && w'.db == w.db && w'.dlq == w.dlq && w'.committed == w.committed && w'.nextToken == w.nextToken
            && (fault == Sound && e.id !in w.leases ==>
                  w'.leases == w.leases[e.id := Held(t)] && GoesOn(w, w', p, t, P.Persisting(e, false, 1)))
            && (fault == Sound && e.id in w.leases && w.leases[e.id] == CompletedMarker ==>
                  w'.leases == w.leases && GoesOn(w, w', p, t, P.Persisting(e, true, 1)))
            && (fault == Sound && e.id in w.leases && w.leases[e.id].Held? ==>
                  w'.leases == w.leases && GivesUp(w, w', p, t))
            && (fault != Sound ==>
                  && GivesUp(w, w', p, t)
                  && (w'.leases == w.leases || (fault == AnswerLost && e.id !in w.leases && w'.leases == w.leases[e.id := Held(t)])))
  {
  }

  /**
   What a completion does. Only the holder's call that is answered leads to a commit; a lost
   lease, and a call that fails, leave the record for later.
   */
  lemma CompleteMeans(setup: Setup, w: World, p: ProcessorId, t: Token, fault: Fault)
    requires Enabled(w, Complete(p, t, fault))
    ensures var w', phase := Next(setup, w, Complete(p, t, fault)), w.processors[p].inflight[t].phase;
            var held := phase.event.id in w.leases && w.leases[phase.event.id] == Held(t);
            && w'.db == w.db && w'.dlq == w.dlq && w'.committed == w.committed
            && (fault == Sound && held ==> GoesOn(w, w', p, t, P.Committing(P.Processed, phase.attempts)))
            && (!(fault == Sound && held) ==> GivesUp(w, w', p, t))
            && w'.leases == if held && fault != NotApplied then w.leases[phase.event.id := CompletedMarker] else w.leases
  {
  }

  /** A release frees the event of its own lease only, and the record goes on to the dead-letter topic. */
  lemma ReleaseMeans(setup: Setup, w: World, p: ProcessorId, t: Token, fault: Fault)
    requires Enabled(w, Release(p, t, fault))
    ensures var w', phase := Next(setup, w, Release(p, t, fault)), w.processors[p].inflight[t].phase;
            var held := phase.event.id in w.leases && w.leases[phase.event.id] == Held(t);
            && w'.db == w.db && w'.dlq == w.dlq && w'.committed == w.committed
            && GoesOn(w, w', p, t, P.DeadLettering(phase.attempts))
            && w'.leases == if held && fault != NotApplied then w.leases - {phase.event.id} else w.leases
  {
  }

  /**
   What a transaction does. Unless the environment interferes, a stored event goes on to its
   completion, or straight to its commit when the marker was there already; a missing dependency is
   tried again while attempts are left; anything else goes the way of the dead letters.
   */
  lemma TransactMeans(setup: Setup, w: World, p: ProcessorId, t: Token, trouble: TransactionFault)
    requires Enabled(w, Transact(p, t, trouble))
    ensures var w', work := Next(setup, w, Transact(p, t, trouble)), w.processors[p].inflight[t];
            var phase := work.phase;
            var (db', r) := Persist(w.db, phase.event, work.source);
            var again := P.Persisting(phase.event, phase.recovering, phase.attempt + 1);
            && w'.leases == w.leases && w'.dlq == w.dlq && w'.committed == w.committed
            && w'.db == (if trouble.RolledBack? then w.db else db')
            && (trouble == NoFault && (r == Committed || r == AlreadyPersisted) ==>
                  GoesOn(w, w', p, t, if phase.recovering then P.Committing(P.Duplicate, 1) else P.Completing(phase.event, phase.attempt)))
            && (trouble == NoFault && r == Refused(MissingDependency) && phase.attempt < setup.maximumAttempts ==> GoesOn(w, w', p, t, again))
            && (trouble == NoFault && r == Refused(MissingDependency) && phase.attempt >= setup.maximumAttempts ==>
                  GoesOn(w, w', p, t, if phase.recovering then P.DeadLettering(setup.maximumAttempts)
                                      else P.Releasing(phase.event, setup.maximumAttempts)))
            && (trouble == NoFault && r == Refused(IntegrityFailure) ==>
                  GoesOn(w, w', p, t, if phase.recovering then P.DeadLettering(1) else P.Releasing(phase.event, 1)))
  {
    hide Persist;
  }

  /** A dead letter that Kafka confirms leads to the commit; one whose answer is lost is out all the same. */
  lemma PublishMeans(setup: Setup, w: World, p: ProcessorId, t: Token, fault: Fault)
    requires Enabled(w, Publish(p, t, fault))
    ensures var w', work := Next(setup, w, Publish(p, t, fault)), w.processors[p].inflight[t];
            && w'.db == w.db && w'.leases == w.leases && w'.committed == w.committed
            && w'.dlq == (if fault == NotApplied then w.dlq else w.dlq + {work.source})
            && (fault == Sound ==> GoesOn(w, w', p, t, P.Committing(P.DeadLettered, work.phase.attempts)))
            && (fault != Sound ==> GivesUp(w, w', p, t))
  {
  }

  /** A malformed record goes to the dead letters, any other to its reservation. */
  lemma ValidateMeans(setup: Setup, w: World, p: ProcessorId, t: Token)
    requires Enabled(w, Validate(p, t))
    ensures var w', work := Next(setup, w, Validate(p, t)), w.processors[p].inflight[t];
            && w'.(processors := w.processors) == w
            && GoesOn(w, w', p, t, match setup.log(work.source) case WellFormed(e) => P.Reserving(e) case Malformed => P.DeadLettering(1))
  {
  }

  /** Nothing outside the processor changes. */
  predicate Inside(w: World, w': World, p: ProcessorId) {
    && p in w.processors && p in w'.processors && w'.processors - {p} == w.processors - {p}
    && w'.db == w.db && w'.dlq == w.dlq && w'.leases == w.leases
  }

  lemma NextIs(setup: Setup, w: World, p: ProcessorId, t: Token, keys: set<PartitionKey>, accept: bool, now: real)
    ensures Enabled(w, Finish(p, t, accept, now)) ==> Next(setup, w, Finish(p, t, accept, now)) == FinishOne(setup, w, p, t, accept, now)
    ensures Enabled(w, Drain(p, accept, now)) ==> Next(setup, w, Drain(p, accept, now)) == DrainOne(setup, w, p, accept, now)
    ensures Enabled(w, Revoke(p, keys, accept, now)) ==> Next(setup, w, Revoke(p, keys, accept, now)) == RevokeKeys(w, p, keys, accept, now)
  {
    hide FinishOne, DrainOne, RevokeKeys;
  }

  /**
   The end of a record in the sequential loop: on a revoked partition the commit raises and ends
   the loop; otherwise the offset is recorded, and the loop goes on unless the broker refuses.
   */
  lemma FinishMeans(setup: Setup, w: World, p: ProcessorId, t: Token, accept: bool, now: real)
    requires Enabled(w, Finish(p, t, accept, now)) && !w.processors[p].pooled
    ensures var w', q := Next(setup, w, Finish(p, t, accept, now)), w.processors[p];
            var Work(source, phase) := q.inflight[t];
            && Inside(w, w', p)
            && (var q' := w'.processors[p];
                && q'.inflight == q.inflight - {t} && q'.positions == q.positions && q'.revoked == q.revoked && q'.queue == q.queue
                && (source.key in q.revoked ==> !q'.running && q'.tracker == q.tracker && w'.committed == w.committed)
                && (source.key !in q.revoked ==> IsMarked(q'.tracker, source.key, source.offset))
                && (source.key !in q.revoked && accept && phase.status != P.Unresolved ==> q'.running == q.running))
  {
    hide CommitTerminal, IsMarked, Next;
    NextIs(setup, w, p, t, {}, accept, now);
    var source := w.processors[p].inflight[t].source;
    MarkedStays(setup.commits, w.processors[p].tracker, source.key, source.offset, source.key, source.offset, accept, now);
    NeverRaises(setup.commits, w.processors[p].tracker, source.key, source.offset, now);
  }

  /** A pooled worker hands the finished record to the poll thread. */
  lemma HandOverMeans(setup: Setup, w: World, p: ProcessorId, t: Token, accept: bool, now: real)
    requires Enabled(w, Finish(p, t, accept, now)) && w.processors[p].pooled
    ensures var w', q := Next(setup, w, Finish(p, t, accept, now)), w.processors[p];
            && Inside(w, w', p) && w'.committed == w.committed
            && w'.processors[p] == q.(inflight := q.inflight - {t}, queue := q.queue + [q.inflight[t].source])
  {
    hide CommitTerminal, Next;
    NextIs(setup, w, p, t, {}, accept, now);
  }

  /** The poll thread records the oldest completion, unless its partition was revoked: that ends the loop. */
  lemma DrainMeans(setup: Setup, w: World, p: ProcessorId, accept: bool, now: real)
    requires Enabled(w, Drain(p, accept, now))
    ensures var w', q := Next(setup, w, Drain(p, accept, now)), w.processors[p];
            && Inside(w, w', p)
            && (var q' := w'.processors[p];
                && q'.queue == q.queue[1..] && q'.inflight == q.inflight && q'.positions == q.positions && q'.revoked == q.revoked
                && (q.queue[0].key in q.revoked ==> !q'.running && q'.tracker == q.tracker && w'.committed == w.committed)
                && (q.queue[0].key !in q.revoked ==>
                      IsMarked(q'.tracker, q.queue[0].key, q.queue[0].offset) && (accept ==> q'.running == q.running)))
  {
    hide CommitTerminal, IsMarked, Next;
    NextIs(setup, w, p, 0, {}, accept, now);
    var c := w.processors[p].queue[0];
    MarkedStays(setup.commits, w.processors[p].tracker, c.key, c.offset, c.key, c.offset, accept, now);
    NeverRaises(setup.commits, w.processors[p].tracker, c.key, c.offset, now);
  }

  /** A new owner starts where the group last committed, or at the origin, and owns the partition again. */
  lemma AssignMeans(setup: Setup, w: World, p: ProcessorId, key: PartitionKey)
    requires Enabled(w, Assign(p, key))
    ensures var w', q := Next(setup, w, Assign(p, key)), w.processors[p];
            && Inside(w, w', p) && w'.committed == w.committed
            && w'.processors[p] == q.(revoked := q.revoked - {key},
                                      positions := q.positions[key := if key in w.committed then w.committed[key] else setup.origin(key)])
  {
  }

  /** A poll hands out the next record of a partition; the pool remembers where the first one was. */
  lemma PollMeans(setup: Setup, w: World, p: ProcessorId, key: PartitionKey)
    requires Enabled(w, Poll(p, key))
    ensures var w', q := Next(setup, w, Poll(p, key)), w.processors[p];
            && Inside(w, w', p) && w'.committed == w.committed && w'.nextToken == w.nextToken + 1
            && (var q', offset := w'.processors[p], q.positions[key];
                && q'.positions == q.positions[key := offset + 1]
                && q'.inflight == q.inflight[w.nextToken := Work(Coordinate(key, offset), P.Validating)]
                && q'.queue == q.queue && q'.running == q.running && q'.revoked == q.revoked
                && (!q.pooled ==> q'.tracker == q.tracker)
                && (q.pooled && key !in q.tracker.parts ==>
                      key in q'.tracker.parts && q'.tracker.parts[key].floor == Some(offset - 1) && q'.tracker.parts[key].safe == None))
  {
  }

  /**
   A revocation commits what the lost partitions have finished, if the broker accepts, and forgets
   them either way; the others keep what they have.
   */
  lemma RevokeMeans(setup: Setup, w: World, p: ProcessorId, keys: set<PartitionKey>, accept: bool, now: real, key: PartitionKey)
    requires Enabled(w, Revoke(p, keys, accept, now))
    ensures var w', q := Next(setup, w, Revoke(p, keys, accept, now)), w.processors[p];
            && Inside(w, w', p)
            && (var q' := w'.processors[p];
                && q'.tracker.parts.Keys == q.tracker.parts.Keys - keys
                && q'.positions == q.positions - keys && q'.revoked == q.revoked + keys
                && q'.inflight == q.inflight && q'.queue == q.queue && q'.running == q.running
                && (key in q.tracker.parts && key !in keys ==> q'.tracker.parts[key] == q.tracker.parts[key])
                && (accept && key in keys && key in q.tracker.parts && F.Uncommitted(q.tracker.parts[key]) ==>
                      key in w'.committed && w'.committed[key] == q.tracker.parts[key].safe.value + 1)
                && (!(accept && key in keys && key in q.tracker.parts && F.Uncommitted(q.tracker.parts[key])) ==>
                      (key in w'.committed <==> key in w.committed) && (key in w.committed ==> w'.committed[key] == w.committed[key])))
  {
    hide Next;
    NextIs(setup, w, p, 0, keys, accept, now);
    var commits := Commits(w.processors[p].tracker, Some(keys));
    assert key in commits <==> key in w.processors[p].tracker.parts && key in keys && F.Uncommitted(w.processors[p].tracker.parts[key]);
  }
}
