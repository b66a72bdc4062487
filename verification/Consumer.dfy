/**
 `KafkaEventConsumer`: the rebalance callbacks and the commits around the tracker. `committed` is what the broker has
 stored for the group; a commit call changes it exactly when the broker accepts.
 */
module Consumer {
  import opened Prelude
  import opened TrackerSpec
  import opened OffsetTracker

  datatype State = State(tracker: Tracker, revoked: set<PartitionKey>, committed: map<PartitionKey, int>)

  function Take(s: State, f: Flushed): State {
    s.(tracker := f.tracker, committed := s.committed + f.published)
  }

  class KafkaEventConsumer {
    const tracker: OffsetCommitTracker
    var revoked: set<PartitionKey>
    var committed: map<PartitionKey, int>

    ghost predicate Valid() reads this, tracker, tracker.entries { tracker.Valid() }

    ghost function View(): State reads this, tracker { State(tracker.View(), revoked, committed) }

    constructor (config: Config, committed: map<PartitionKey, int>, now: real)
      ensures Valid() && View() == State(Init(now), {}, committed)
      ensures tracker.config == config && fresh(tracker) && tracker.entries == {}
    {
      tracker := new OffsetCommitTracker(config, now);
      revoked, this.committed := {}, committed;
    }

    method OnAssign(keys: set<PartitionKey>)
      requires Valid()
      modifies this`revoked
      ensures Valid() && View() == old(View()).(revoked := old(revoked) - keys)
    {
      revoked := revoked - keys;
    }

    /** A refused flush is swallowed; the partitions are forgotten either way. */
    method OnRevoke(keys: set<PartitionKey>, accept: bool, now: real)
      requires Valid()
      modifies this, tracker, tracker.entries
      ensures Valid() && fresh(tracker.entries - old(tracker.entries))
      ensures var f := Flush(old(View()).tracker, Some(keys), accept, now);
              View() == Take(old(View()), f.(tracker := Drop(f.tracker, keys))).(revoked := old(revoked) + keys)
    {
      hide OffsetCommitTracker.Valid, TrackerSpec.Flush;
      var published, raised := tracker.Flush(Some(keys), accept, now);
      committed := committed + published;
      ghost var flushed := tracker.View();
      var todo := keys;
      assert Drop(flushed, {}) == flushed;
      while todo != {}
        invariant todo <= keys && Valid()
        invariant tracker.View() == Drop(flushed, keys - todo)
        invariant fresh(tracker.entries - old(tracker.entries))
        invariant revoked == old(revoked) && committed == old(committed) + published
        decreases todo
      {
        var key :| key in todo;
        todo := todo - {key};
        tracker.DropPartition(key);
        assert (keys - todo - {key}) + {key} == keys - todo;
      }
      assert keys - {} == keys;
      revoked := revoked + keys;
    }

    method ObserveDispatched(key: PartitionKey, offset: int)
      requires Valid()
      modifies tracker, tracker.entries
      ensures Valid() && fresh(tracker.entries - old(tracker.entries))
      ensures View() == old(View()).(tracker := Observe(old(View()).tracker, key, offset))
    {
      tracker.Observe(key, offset);
    }

    method CommitTerminal(key: PartitionKey, offset: int, accept: bool, now: real) returns (raised: bool)
      requires Valid()
      modifies this`committed, tracker, tracker.entries
      ensures Valid() && fresh(tracker.entries - old(tracker.entries))
      ensures key in revoked ==> raised && View() == old(View())
      ensures key !in revoked ==>
                var f := TrackerSpec.CommitTerminal(tracker.config, old(View()).tracker, key, offset, accept, now);
                raised == f.raised && View() == Take(old(View()), f)
    {
      hide OffsetCommitTracker.Valid, TrackerSpec.MaybeFlush, TrackerSpec.MarkTerminal;
      if key in revoked {
        return true;
      }
      tracker.MarkTerminal(key, offset);
      var published;
      published, raised := tracker.MaybeFlush(accept, now);
      committed := committed + published;
    }

    method MaybeFlushIdle(accept: bool, now: real) returns (raised: bool)
      requires Valid()
      modifies this`committed, tracker, tracker.entries
      ensures Valid() && fresh(tracker.entries - old(tracker.entries))
      ensures var f := MaybeFlush(tracker.config, old(View()).tracker, accept, now);
              raised == f.raised && View() == Take(old(View()), f)
    {
      hide OffsetCommitTracker.Valid, TrackerSpec.MaybeFlush;
      var published;
      published, raised := tracker.MaybeFlush(accept, now);
      committed := committed + published;
    }

    method FlushPending(accept: bool, now: real) returns (raised: bool)
      requires Valid()
      modifies this`committed, tracker, tracker.entries
      ensures Valid() && fresh(tracker.entries - old(tracker.entries))
      ensures var f := Flush(old(View()).tracker, None, accept, now);
              raised == f.raised && View() == Take(old(View()), f)
    {
      hide OffsetCommitTracker.Valid, TrackerSpec.Flush;
      var published;
      published, raised := tracker.Flush(None, accept, now);
      committed := committed + published;
    }
  }
}
