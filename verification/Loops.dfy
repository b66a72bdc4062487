/**
 The one-record-at-a-time loop (main.py) and the worker-pool loop (main_pooled.py) on one
 partition, and why they resume at the same place. `outcomes[i]` says whether the record at
 `start + i` reaches a terminal outcome; `accept` and `now` are Kafka's and the clock's answers.
 */
module Loops {
  import opened Prelude
  import opened TrackerSpec
  import opened OffsetTracker
  import opened Consumer
  import F = Frontier

  /** Where a new owner of the partition would start. */
  function Resume(committed: map<PartitionKey, int>, key: PartitionKey, start: int): int {
    if key in committed then committed[key] else start
  }

  /** How many records precede the first one that is not terminal. */
  function Leading(outcomes: seq<bool>): (n: nat)
    ensures n <= |outcomes|
    ensures forall i :: 0 <= i < n ==> outcomes[i]
    ensures n < |outcomes| ==> !outcomes[n]
  {
    if outcomes == [] || !outcomes[0] then 0
    else
      var rest := Leading(outcomes[1..]);
      assert forall i :: 1 <= i < 1 + rest ==> outcomes[i] == outcomes[1..][i - 1];
      1 + rest
  }

  function TerminalOffsets(start: int, outcomes: seq<bool>): set<int> {
    set i | 0 <= i < |outcomes| && outcomes[i] :: start + i
  }

  /** The consumer state after exactly `marks` completed, first delivery being `start`. */
  ghost predicate OnTrack(s: State, key: PartitionKey, start: int, marks: set<int>) {
    var p := Part(s.tracker, key);
    && key !in s.revoked
    && F.Refines(p, start - 1, marks)
    && (if p.committed.Some? then key in s.committed && s.committed[key] == p.committed.value + 1
        else Resume(s.committed, key, start) == start)
  }

  function FrontierOf(start: int, marks: set<int>): int {
    F.RunEnd(start - 1, F.Above(start - 1, marks))
  }

  lemma FlushOnTrack(s: State, key: PartitionKey, start: int, marks: set<int>, accept: bool, now: real)
    requires OnTrack(s, key, start, marks)
    ensures var f := Flush(s.tracker, None, accept, now);
            && OnTrack(Take(s, f), key, start, marks)
            && Part(f.tracker, key).floor == Part(s.tracker, key).floor
            && f.tracker.parts.Keys == s.tracker.parts.Keys
            && (!f.raised ==> Resume(Take(s, f).committed, key, start) == FrontierOf(start, marks) + 1)
  {
    var f := Flush(s.tracker, None, accept, now);
    var p := Part(s.tracker, key);
    hide F.RunEnd;
    if marks == {} { F.RunEndUnique(start - 1, F.Above(start - 1, marks), start - 1); }
    assert F.Uncommitted(p) <==> key in Commits(s.tracker, None);
  }

  lemma MarkOnTrack(s: State, key: PartitionKey, start: int, marks: set<int>, offset: int)
    requires OnTrack(s, key, start, marks)
    requires marks == {} ==> F.Anchor(Part(s.tracker, key), offset) == start - 1
    ensures OnTrack(s.(tracker := MarkTerminal(s.tracker, key, offset)), key, start, marks + {offset})
  {
    F.MarkRefines(Part(s.tracker, key), start - 1, marks, offset);
  }

  lemma MaybeFlushOnTrack(config: Config, s: State, key: PartitionKey, start: int, marks: set<int>, accept: bool, now: real)
    requires OnTrack(s, key, start, marks)
    ensures var f := MaybeFlush(config, s.tracker, accept, now);
            && OnTrack(Take(s, f), key, start, marks)
            && Part(f.tracker, key).floor == Part(s.tracker, key).floor
            && f.tracker.parts.Keys == s.tracker.parts.Keys
  {
    hide OnTrack, Flush;
    FlushOnTrack(s, key, start, marks, accept, now);
    assert s.committed + map[] == s.committed;
  }

  lemma TerminalOnTrack(
    config: Config, s: State, key: PartitionKey, start: int, marks: set<int>, offset: int, accept: bool, now: real)
    requires OnTrack(s, key, start, marks)
    requires marks == {} ==> F.Anchor(Part(s.tracker, key), offset) == start - 1
    ensures var f := CommitTerminal(config, s.tracker, key, offset, accept, now);
            && OnTrack(Take(s, f), key, start, marks + {offset})
            && Part(f.tracker, key).floor == Part(s.tracker, key).floor
            && key in f.tracker.parts
  {
    hide OnTrack, MaybeFlush;
    MarkOnTrack(s, key, start, marks, offset);
    var marked := s.(tracker := MarkTerminal(s.tracker, key, offset));
    MaybeFlushOnTrack(config, marked, key, start, marks + {offset}, accept, now);
  }

  /** A completion of another partition leaves this one on track, even if it triggers a flush. */
  lemma OtherOnTrack(
    config: Config, s: State, key: PartitionKey, start: int, marks: set<int>, other: PartitionKey, offset: int,
    accept: bool, now: real)
    requires OnTrack(s, key, start, marks) && other != key
    ensures var f := CommitTerminal(config, s.tracker, other, offset, accept, now);
            && OnTrack(Take(s, f), key, start, marks)
            && Part(f.tracker, key).floor == Part(s.tracker, key).floor
            && (key in f.tracker.parts <==> key in s.tracker.parts)
  {
    hide F.RunEnd, F.Above, F.Mark, MaybeFlush;
    var marked := s.(tracker := MarkTerminal(s.tracker, other, offset));
    assert Part(marked.tracker, key) == Part(s.tracker, key);
    MaybeFlushOnTrack(config, marked, key, start, marks, accept, now);
  }

  /** However far a run got, what is committed stops at the first record that is not terminal. */
  lemma NeverPasses(s: State, key: PartitionKey, start: int, marks: set<int>, outcomes: seq<bool>)
    requires OnTrack(s, key, start, marks) && marks <= TerminalOffsets(start, outcomes)
    ensures Resume(s.committed, key, start) <= start + Leading(outcomes)
  {
    var n := Leading(outcomes);
    assert start - 1 + n < FrontierOf(start, marks) ==> start + n in F.Above(start - 1, marks);
  }

  lemma PrefixFrontier(start: int, outcomes: seq<bool>)
    ensures FrontierOf(start, TerminalOffsets(start, outcomes)) + 1 == start + Leading(outcomes)
  {
    var n := Leading(outcomes);
    var marks := F.Above(start - 1, TerminalOffsets(start, outcomes));
    forall o | start - 1 < o <= start + n - 1 ensures o in marks {
      assert outcomes[o - start];
    }
    F.RunEndUnique(start - 1, marks, start + n - 1);
  }

  lemma TakeTerminal(start: int, outcomes: seq<bool>, i: nat)
    requires i < |outcomes| && outcomes[i]
    ensures TerminalOffsets(start, outcomes[..i + 1]) == TerminalOffsets(start, outcomes[..i]) + {start + i}
  {
    assert outcomes[..i + 1] == outcomes[..i] + [outcomes[i]];
    assert outcomes[..i + 1][i];
    forall o | o in TerminalOffsets(start, outcomes[..i]) ensures o in TerminalOffsets(start, outcomes[..i + 1]) {
      assert outcomes[..i + 1][o - start];
    }
  }

  // ----- the sequential loop -----

  /** What `poll` brings: the next record of the partition, one of another partition, or nothing. */
  datatype LoopEvent = Record | OtherRecord(key: PartitionKey, offset: int, terminal: bool) | IdlePoll

  function Records(events: seq<LoopEvent>): nat {
    if events == [] then 0
    else Records(events[..|events| - 1]) + (if events[|events| - 1].Record? then 1 else 0)
  }

  ghost predicate OthersElsewhere(key: PartitionKey, events: seq<LoopEvent>) {
    forall i :: 0 <= i < |events| && events[i].OtherRecord? ==> events[i].key != key
  }

  ghost predicate OthersTerminal(events: seq<LoopEvent>) {
    forall i :: 0 <= i < |events| && events[i].OtherRecord? ==> events[i].terminal
  }

  lemma TakeLoopEvent(events: seq<LoopEvent>, i: nat)
    requires i < |events|
    ensures Records(events[..i + 1]) == Records(events[..i]) + (if events[i].Record? then 1 else 0)
  {
    assert events[..i + 1][..i] == events[..i];
  }

  lemma {:induction false} RecordsGrow(events: seq<LoopEvent>, i: nat)
    requires i <= |events|
    ensures Records(events[..i]) <= Records(events)
    decreases |events|
  {
    if i < |events| {
      assert events[..|events| - 1][..i] == events[..i];
      RecordsGrow(events[..|events| - 1], i);
    } else {
      assert events[..i] == events;
    }
  }

  /** The state of the sequential loop after `n` records of the partition, all terminal. */
  ghost predicate Sequential(s: State, key: PartitionKey, start: int, outcomes: seq<bool>, n: nat)
    requires n <= |outcomes|
  {
    && (forall j :: 0 <= j < n ==> outcomes[j])
    && OnTrack(s, key, start, TerminalOffsets(start, outcomes[..n]))
    && (n == 0 ==> key !in s.tracker.parts)
  }

  /** Nothing of the partition was dispatched yet; others may be in any state. */
  ghost predicate Untouched(s: State, key: PartitionKey, start: int) {
    key !in s.tracker.parts && key !in s.revoked && Resume(s.committed, key, start) == start
  }

  lemma UntouchedOnTrack(s: State, key: PartitionKey, start: int)
    requires Untouched(s, key, start)
    ensures OnTrack(s, key, start, {})
  {
    F.RunEndUnique(start - 1, F.Above(start - 1, {}), start - 1);
  }

  lemma SequentialStart(s: State, key: PartitionKey, start: int, outcomes: seq<bool>)
    requires Untouched(s, key, start)
    ensures Sequential(s, key, start, outcomes, 0) && key !in s.revoked
  {
    UntouchedOnTrack(s, key, start);
    assert outcomes[..0] == [] && TerminalOffsets(start, []) == {};
  }

  lemma SequentialAnchor(s: State, key: PartitionKey, start: int, outcomes: seq<bool>, n: nat)
    requires n <= |outcomes| && Sequential(s, key, start, outcomes, n)
    ensures TerminalOffsets(start, outcomes[..n]) == {} ==> F.Anchor(Part(s.tracker, key), start + n) == start - 1
    ensures OnTrack(s, key, start, TerminalOffsets(start, outcomes[..n]))
  {
    hide OnTrack;
    if n > 0 { assert outcomes[..n][0] && start + 0 in TerminalOffsets(start, outcomes[..n]); }
  }

  lemma SequentialRecord(
    config: Config, s: State, key: PartitionKey, start: int, outcomes: seq<bool>, n: nat, accept: bool, now: real)
    requires n < |outcomes| && outcomes[n] && Sequential(s, key, start, outcomes, n)
    ensures Sequential(Take(s, CommitTerminal(config, s.tracker, key, start + n, accept, now)), key, start, outcomes, n + 1)
  {
    hide OnTrack, CommitTerminal, TerminalOffsets;
    SequentialAnchor(s, key, start, outcomes, n);
    TerminalOnTrack(config, s, key, start, TerminalOffsets(start, outcomes[..n]), start + n, accept, now);
    TakeTerminal(start, outcomes, n);
  }

  lemma SequentialOther(
    config: Config, s: State, key: PartitionKey, start: int, outcomes: seq<bool>, n: nat, other: PartitionKey,
    offset: int, accept: bool, now: real)
    requires n <= |outcomes| && Sequential(s, key, start, outcomes, n) && other != key
    ensures Sequential(Take(s, CommitTerminal(config, s.tracker, other, offset, accept, now)), key, start, outcomes, n)
    ensures Sequential(Take(s, MaybeFlush(config, s.tracker, accept, now)), key, start, outcomes, n)
  {
    hide OnTrack, CommitTerminal, MaybeFlush, TerminalOffsets;
    OtherOnTrack(config, s, key, start, TerminalOffsets(start, outcomes[..n]), other, offset, accept, now);
    MaybeFlushOnTrack(config, s, key, start, TerminalOffsets(start, outcomes[..n]), accept, now);
  }

  lemma SequentialEnd(s: State, key: PartitionKey, start: int, outcomes: seq<bool>, n: nat, accept: bool, now: real)
    requires n <= |outcomes| && Sequential(s, key, start, outcomes, n)
    ensures var f := Flush(s.tracker, None, accept, now);
            && (!f.raised ==> Resume(Take(s, f).committed, key, start) == start + n)
            && Resume(Take(s, f).committed, key, start) <= start + n <= start + Leading(outcomes)
            && (n == |outcomes| || !outcomes[n] ==> n == Leading(outcomes))
  {
    var marks := TerminalOffsets(start, outcomes[..n]);
    FlushOnTrack(s, key, start, marks, accept, now);
    NeverPasses(Take(s, Flush(s.tracker, None, accept, now)), key, start, marks, outcomes[..n]);
    PrefixFrontier(start, outcomes[..n]);
    assert Leading(outcomes[..n]) == n;
  }

  // ----- which events a run carries out -----

  /** The event ends the loop: its record, of whatever partition, is not terminal. */
  predicate Stops(events: seq<LoopEvent>, outcomes: seq<bool>, i: nat)
    requires i < |events|
  {
    match events[i]
    case Record => var n := Records(events[..i]); n < |outcomes| && !outcomes[n]
    case OtherRecord(_, _, terminal) => !terminal
    case IdlePoll => false
  }

  /** The loop carries out the first `n` events and ends there, or at the end of all events. */
  predicate EndsAt(events: seq<LoopEvent>, outcomes: seq<bool>, n: nat) {
    n <= |events| && (forall i :: 0 <= i < n ==> !Stops(events, outcomes, i)) && (n < |events| ==> Stops(events, outcomes, n))
  }

  predicate NoneRevoked(revoked: set<PartitionKey>, events: seq<LoopEvent>) {
    forall i :: 0 <= i < |events| && events[i].OtherRecord? ==> events[i].key !in revoked
  }

  /** The tracker calls of the first `n` events. */
  function Calls(key: PartitionKey, start: int, events: seq<LoopEvent>, accept: nat -> bool, now: nat -> real, n: nat): seq<Op>
    requires n <= |events|
  {
    if n == 0 then []
    else
      Calls(key, start, events, accept, now, n - 1) + [CallOf(key, start, events, accept, now, n - 1)]
  }

  /** The tracker has seen exactly these calls. */
  ghost predicate Saw(config: Config, was: Tracker, t: Tracker, calls: seq<Op>) {
    t == TrackerSpec.Run(config, was, calls)
  }

  lemma SawNothing(config: Config, t: Tracker)
    ensures Saw(config, t, t, [])
  {
  }

  lemma SawOneMore(config: Config, was: Tracker, t: Tracker, calls: seq<Op>, key: PartitionKey, offset: int, accept: bool, now: real)
    requires Saw(config, was, t, calls)
    ensures Saw(config, was, CommitTerminal(config, t, key, offset, accept, now).tracker, calls + [Terminal(key, offset, accept, now)])
    ensures Saw(config, was, MaybeFlush(config, t, accept, now).tracker, calls + [Op.Idle(accept, now)])
    ensures Saw(config, was, Observe(t, key, offset), calls + [Dispatched(key, offset)])
    ensures Saw(config, was, Flush(t, None, accept, now).tracker, calls + [FlushAll(accept, now)])
  {
    hide CommitTerminal, MaybeFlush, Observe, Flush, TrackerSpec.Run;
    RunSnoc(config, was, calls, Terminal(key, offset, accept, now));
    RunSnoc(config, was, calls, Op.Idle(accept, now));
    RunSnoc(config, was, calls, Dispatched(key, offset));
    RunSnoc(config, was, calls, FlushAll(accept, now));
  }

  /** Everything a clean run has done to the tracker: the calls of its events, then one full flush. */
  ghost predicate Did(config: Config, was: Tracker, t: Tracker, calls: seq<Op>) {
    exists accept: bool, now: real :: Saw(config, was, t, calls + [FlushAll(accept, now)])
  }

  /** The first `n` events have been carried out for the other partitions. */
  predicate OthersMarked(t: Tracker, events: seq<LoopEvent>, n: nat)
    requires n <= |events|
  {
    forall i :: 0 <= i < n && events[i].OtherRecord? ==> IsMarked(t, events[i].key, events[i].offset)
  }

  lemma OthersStayMarked(config: Config, t: Tracker, events: seq<LoopEvent>, n: nat, k: PartitionKey, o: int, accept: bool, now: real)
    requires n <= |events| && OthersMarked(t, events, n)
    ensures OthersMarked(CommitTerminal(config, t, k, o, accept, now).tracker, events, n)
    ensures OthersMarked(MaybeFlush(config, t, accept, now).tracker, events, n)
    ensures OthersMarked(Flush(t, None, accept, now).tracker, events, n)
    ensures IsMarked(CommitTerminal(config, t, k, o, accept, now).tracker, k, o)
  {
    hide CommitTerminal, MaybeFlush, Flush, IsMarked, Observe;
    MarkedStays(config, t, k, o, k, o, accept, now);
    forall i | 0 <= i < n && events[i].OtherRecord?
      ensures IsMarked(CommitTerminal(config, t, k, o, accept, now).tracker, events[i].key, events[i].offset)
      ensures IsMarked(MaybeFlush(config, t, accept, now).tracker, events[i].key, events[i].offset)
      ensures IsMarked(Flush(t, None, accept, now).tracker, events[i].key, events[i].offset)
    {
      MarkedStays(config, t, events[i].key, events[i].offset, k, o, accept, now);
    }
  }

  lemma SomeOther(key: PartitionKey) returns (other: PartitionKey)
    ensures other != key
  {
    other := PartitionKey(key.topic + 1, key.partition);
  }

  /**
   The loop of `run_processor`: stop at the first outcome that is not terminal, of any partition,
   or at the first exception, then flush. Whatever happens, no committed position passes a record
   that is not terminal. It ends clean whenever the broker accepts and no record comes from a
   revoked partition; a clean run has finished every record before the one it stopped at, resumes
   right behind the last of the partition, and leaves nothing to commit.
   */
  method RunProcessor(
    c: KafkaEventConsumer, key: PartitionKey, start: int, outcomes: seq<bool>, events: seq<LoopEvent>,
    accept: nat -> bool, now: nat -> real)
    returns (clean: bool, finished: nat)
    requires c.Valid() && Untouched(c.View(), key, start)
    requires OthersElsewhere(key, events) && Records(events) <= |outcomes|
    modifies c, c.tracker, c.tracker.entries
    ensures c.Valid()
    ensures Resume(c.committed, key, start) <= start + finished <= start + Leading(outcomes)
    ensures clean ==> Resume(c.committed, key, start) == start + finished
    ensures clean && Records(events) == |outcomes| && OthersTerminal(events) ==> finished == Leading(outcomes)
    ensures (forall n :: accept(n)) && NoneRevoked(old(c.revoked), events) ==> clean
    ensures clean ==> exists n: nat :: EndsAt(events, outcomes, n) && finished == Records(events[..n])
                                       && OthersMarked(c.View().tracker, events, n)
                                       && Did(c.tracker.config, old(c.View()).tracker, c.View().tracker, Calls(key, start, events, accept, now, n))
    ensures clean || (forall n :: accept(n)) ==> Commits(c.View().tracker, None) == map[]
  {
    hide KafkaEventConsumer.Valid, CommitTerminal, MaybeFlush, Flush, Sequential, Resume, Untouched, Leading, Records;
    hide OthersMarked, IsMarked, Commits, Saw, Calls, Did, EndsAt, OthersElsewhere;
    ghost var was, config := c.View().tracker, c.tracker.config;
    SawNothing(config, was);
    NoCalls(key, start, events, accept, now);
    clean, finished := true, 0;
    ghost var other := SomeOther(key);
    ghost var done := 0;
    SequentialStart(c.View(), key, start, outcomes);
    NoRecords(events);
    NoOthers(c.View().tracker, events);
    var i, going := 0, true;
    while i < |events| && going && clean
      invariant 0 <= i <= |events| && c.Valid()
      invariant fresh(c.tracker.entries - old(c.tracker.entries))
      invariant c.revoked == old(c.revoked) && key !in c.revoked
      invariant done == (if going then i else i - 1) >= 0
      invariant clean ==> finished == Records(events[..done]) && OthersMarked(c.View().tracker, events, done)
      invariant clean ==> Saw(config, was, c.View().tracker, Calls(key, start, events, accept, now, done))
      invariant finished <= |outcomes| && Sequential(c.View(), key, start, outcomes, finished)
      invariant !going && clean && OthersTerminal(events) ==> finished < |outcomes| && !outcomes[finished]
      invariant forall j :: 0 <= j < done ==> !Stops(events, outcomes, j)
      invariant !going ==> Stops(events, outcomes, done)
      invariant (forall n :: accept(n)) && NoneRevoked(old(c.revoked), events) ==> clean
      decreases |events| - i, going
    {
      TakeLoopEvent(events, i);
      RecordsGrow(events, i + 1);
      OneMoreCall(key, start, events, accept, now, i);
      if events[i].OtherRecord? { Elsewhere(key, events, i); }
      var raised := false;
      ghost var t := c.View().tracker;
      match events[i] {
        case Record =>
          if !outcomes[finished] {
            going := false;
          } else {
            SequentialRecord(c.tracker.config, c.View(), key, start, outcomes, finished, accept(i), now(i));
            OthersStayMarked(c.tracker.config, t, events, i, key, start + finished, accept(i), now(i));
            SawOneMore(config, was, t, Calls(key, start, events, accept, now, i), key, start + finished, accept(i), now(i));
            NeverRaises(c.tracker.config, t, key, start + finished, now(i));
            raised := c.CommitTerminal(key, start + finished, accept(i), now(i));
            OneMoreMarked(c.View().tracker, events, i);
            finished := finished + 1;
          }
        case OtherRecord(k, offset, terminal) =>
          if !terminal {
            going := false;
          } else {
            SequentialOther(c.tracker.config, c.View(), key, start, outcomes, finished, k, offset, accept(i), now(i));
            OthersStayMarked(c.tracker.config, t, events, i, k, offset, accept(i), now(i));
            SawOneMore(config, was, t, Calls(key, start, events, accept, now, i), k, offset, accept(i), now(i));
            NeverRaises(c.tracker.config, t, k, offset, now(i));
            raised := c.CommitTerminal(k, offset, accept(i), now(i));
            if !raised { OneMoreMarked(c.View().tracker, events, i); }
          }
        case IdlePoll =>
          SequentialOther(c.tracker.config, c.View(), key, start, outcomes, finished, other, 0, accept(i), now(i));
          OthersStayMarked(c.tracker.config, t, events, i, other, 0, accept(i), now(i));
          SawOneMore(config, was, t, Calls(key, start, events, accept, now, i), other, 0, accept(i), now(i));
          NeverRaises(c.tracker.config, t, other, 0, now(i));
          raised := c.MaybeFlushIdle(accept(i), now(i));
          OneMoreMarked(c.View().tracker, events, i);
      }
      clean := !raised;
      i := i + 1;
      done := if going then i else i - 1;
    }
    assert i == |events| ==> events[..i] == events;
    ghost var s := c.View();
    ghost var t := s.tracker;
    var raised := c.FlushPending(accept(i), now(i));
    SequentialEnd(s, key, start, outcomes, finished, accept(i), now(i));
    if clean {
      OthersStayMarked(c.tracker.config, t, events, done, other, 0, accept(i), now(i));
      SawOneMore(config, was, t, Calls(key, start, events, accept, now, done), other, 0, accept(i), now(i));
    }
    NeverRaises(c.tracker.config, t, other, 0, now(i));
    FlushLeavesNothing(t, accept(i), now(i));
    clean := clean && !raised;
    if clean { ItEnds(config, was, c.View().tracker, key, start, outcomes, events, accept, now, done, accept(i), now(i)); }
  }

  lemma ItEnds(
    config: Config, was: Tracker, t: Tracker, key: PartitionKey, start: int, outcomes: seq<bool>, events: seq<LoopEvent>,
    accept: nat -> bool, now: nat -> real, n: nat, accepted: bool, time: real)
    requires n <= |events| && (forall i :: 0 <= i < n ==> !Stops(events, outcomes, i)) && (n < |events| ==> Stops(events, outcomes, n))
    requires Saw(config, was, t, Calls(key, start, events, accept, now, n) + [FlushAll(accepted, time)])
    ensures EndsAt(events, outcomes, n) && Did(config, was, t, Calls(key, start, events, accept, now, n))
  {
    hide Saw, Calls;
  }

  lemma NoCalls(key: PartitionKey, start: int, events: seq<LoopEvent>, accept: nat -> bool, now: nat -> real)
    ensures Calls(key, start, events, accept, now, 0) == []
  {
  }

  /** The call of one event. */
  function CallOf(key: PartitionKey, start: int, events: seq<LoopEvent>, accept: nat -> bool, now: nat -> real, i: nat): Op
    requires i < |events|
  {
    match events[i]
    case Record => Terminal(key, start + Records(events[..i]), accept(i), now(i))
    case OtherRecord(k, offset, _) => Terminal(k, offset, accept(i), now(i))
    case IdlePoll => Op.Idle(accept(i), now(i))
  }

  lemma OneMoreCall(key: PartitionKey, start: int, events: seq<LoopEvent>, accept: nat -> bool, now: nat -> real, i: nat)
    requires i < |events|
    ensures Calls(key, start, events, accept, now, i + 1) ==
            Calls(key, start, events, accept, now, i) + [CallOf(key, start, events, accept, now, i)]
  {
  }

  lemma Elsewhere(key: PartitionKey, events: seq<LoopEvent>, i: nat)
    requires OthersElsewhere(key, events) && i < |events| && events[i].OtherRecord?
    ensures events[i].key != key
  {
  }

  lemma FlushLeavesNothing(t: Tracker, accept: bool, now: real)
    ensures !Flush(t, None, accept, now).raised ==> Commits(Flush(t, None, accept, now).tracker, None) == map[]
  {
    var f := Flush(t, None, accept, now);
    assert !f.raised ==> Commits(f.tracker, None) == map[];
  }

  lemma NoOthers(t: Tracker, events: seq<LoopEvent>)
    ensures OthersMarked(t, events, 0)
  {
  }

  lemma OneMoreMarked(t: Tracker, events: seq<LoopEvent>, i: nat)
    requires i < |events| && OthersMarked(t, events, i)
    requires events[i].OtherRecord? ==> IsMarked(t, events[i].key, events[i].offset)
    ensures OthersMarked(t, events, i + 1)
  {
  }

  lemma NoRecords(events: seq<LoopEvent>)
    ensures Records(events[..0]) == 0
  {
  }

  // ----- the worker pool -----

  /**
   What the poll thread does, in order: it hands out a record, drains a completion, does the same
   for other partitions, or flushes on an empty poll.
   */
  datatype PoolEvent =
    | Dispatch
    | Drained(index: nat)
    | OtherDispatch(key: PartitionKey, offset: int)
    | OtherDrained(key: PartitionKey, offset: int)
    | EmptyPoll

  function Dispatches(schedule: seq<PoolEvent>): nat {
    if schedule == [] then 0
    else Dispatches(schedule[..|schedule| - 1]) + (if schedule[|schedule| - 1].Dispatch? then 1 else 0)
  }

  function Completions(start: int, schedule: seq<PoolEvent>): set<int> {
    set i | 0 <= i < |schedule| && schedule[i].Drained? :: start + schedule[i].index
  }

  /** Only terminal records complete, only after they were handed out; other events concern other partitions. */
  ghost predicate Feasible(key: PartitionKey, outcomes: seq<bool>, schedule: seq<PoolEvent>) {
    && (forall i :: 0 <= i < |schedule| && schedule[i].Drained? ==>
          schedule[i].index < Dispatches(schedule[..i]) && schedule[i].index < |outcomes| && outcomes[schedule[i].index])
    && (forall i :: 0 <= i < |schedule| && schedule[i].OtherDispatch? ==> schedule[i].key != key)
    && (forall i :: 0 <= i < |schedule| && schedule[i].OtherDrained? ==> schedule[i].key != key)
  }

  /** A clean shutdown: every terminal record was drained. */
  ghost predicate Joined(start: int, outcomes: seq<bool>, schedule: seq<PoolEvent>) {
    Completions(start, schedule) == TerminalOffsets(start, outcomes)
  }

  /** The state of the pooled loop after `i` events. */
  ghost predicate Pooled(s: State, key: PartitionKey, start: int, schedule: seq<PoolEvent>, i: nat)
    requires i <= |schedule|
  {
    && OnTrack(s, key, start, Completions(start, schedule[..i]))
    && (Dispatches(schedule[..i]) == 0 ==> key !in s.tracker.parts)
    && (Dispatches(schedule[..i]) > 0 ==> Part(s.tracker, key).floor == Some(start - 1))
  }

  lemma TakeEvent(start: int, schedule: seq<PoolEvent>, i: nat)
    requires i < |schedule|
    ensures Dispatches(schedule[..i + 1]) == Dispatches(schedule[..i]) + (if schedule[i].Dispatch? then 1 else 0)
    ensures Completions(start, schedule[..i + 1]) ==
            Completions(start, schedule[..i]) + (if schedule[i].Drained? then {start + schedule[i].index} else {})
  {
    var before, after := schedule[..i], schedule[..i + 1];
    assert after[..i] == before;
    forall o | o in Completions(start, before) ensures o in Completions(start, after) {
      var j :| 0 <= j < i && before[j].Drained? && start + before[j].index == o;
      assert after[j] == before[j];
    }
    assert schedule[i].Drained? ==> start + after[i].index in Completions(start, after);
    forall o | o in Completions(start, after)
      ensures o in Completions(start, before) || (schedule[i].Drained? && o == start + schedule[i].index)
    {
      var j :| 0 <= j < i + 1 && after[j].Drained? && start + after[j].index == o;
      if j < i { assert before[j] == after[j]; }
    }
  }

  lemma PooledStart(s: State, key: PartitionKey, start: int, schedule: seq<PoolEvent>)
    requires Untouched(s, key, start)
    ensures Pooled(s, key, start, schedule, 0) && key !in s.revoked
  {
    UntouchedOnTrack(s, key, start);
    assert schedule[..0] == [] && Completions(start, []) == {};
  }

  lemma PooledDispatch(s: State, key: PartitionKey, start: int, schedule: seq<PoolEvent>, i: nat)
    requires i < |schedule| && schedule[i].Dispatch? && Pooled(s, key, start, schedule, i)
    ensures Pooled(s.(tracker := Observe(s.tracker, key, start + Dispatches(schedule[..i]))), key, start, schedule, i + 1)
  {
    hide Completions, Dispatches, F.RunEnd, F.Above;
    TakeEvent(start, schedule, i);
    var marks := Completions(start, schedule[..i]);
    assert Completions(start, schedule[..i + 1]) == marks;
    var s' := s.(tracker := Observe(s.tracker, key, start + Dispatches(schedule[..i])));
    assert OnTrack(s', key, start, marks);
  }

  /** After a dispatch the first completion anchors at the first delivery. */
  lemma PooledAnchor(s: State, key: PartitionKey, start: int, schedule: seq<PoolEvent>, i: nat, offset: int)
    requires i <= |schedule| && Pooled(s, key, start, schedule, i) && Dispatches(schedule[..i]) > 0
    ensures Completions(start, schedule[..i]) == {} ==> F.Anchor(Part(s.tracker, key), offset) == start - 1
    ensures OnTrack(s, key, start, Completions(start, schedule[..i]))
    ensures Part(s.tracker, key).floor == Some(start - 1)
  {
    hide Completions, Dispatches, F.RunEnd, F.Above;
  }

  lemma DispatchedFirst(key: PartitionKey, outcomes: seq<bool>, schedule: seq<PoolEvent>, i: nat)
    requires i < |schedule| && schedule[i].Drained? && Feasible(key, outcomes, schedule)
    ensures Dispatches(schedule[..i]) > 0
  {
    hide Dispatches;
  }

  lemma PooledDrain(
    config: Config, s: State, key: PartitionKey, start: int, outcomes: seq<bool>, schedule: seq<PoolEvent>, i: nat,
    accept: bool, now: real)
    requires i < |schedule| && schedule[i].Drained? && Pooled(s, key, start, schedule, i)
    requires Feasible(key, outcomes, schedule)
    ensures Pooled(Take(s, CommitTerminal(config, s.tracker, key, start + schedule[i].index, accept, now)),
                   key, start, schedule, i + 1)
  {
    hide Completions, Dispatches, OnTrack, CommitTerminal, Feasible;
    DispatchedFirst(key, outcomes, schedule, i);
    TakeEvent(start, schedule, i);
    PooledAnchor(s, key, start, schedule, i, start + schedule[i].index);
    TerminalOnTrack(config, s, key, start, Completions(start, schedule[..i]), start + schedule[i].index, accept, now);
  }

  /** Events of other partitions and empty polls, with the flushes they trigger. */
  lemma PooledOther(
    config: Config, s: State, key: PartitionKey, start: int, schedule: seq<PoolEvent>, i: nat, other: PartitionKey,
    offset: int, accept: bool, now: real)
    requires i < |schedule| && !schedule[i].Dispatch? && !schedule[i].Drained? && other != key
    requires Pooled(s, key, start, schedule, i)
    ensures Pooled(s, key, start, schedule, i + 1)
    ensures Pooled(Take(s, CommitTerminal(config, s.tracker, other, offset, accept, now)), key, start, schedule, i + 1)
    ensures Pooled(Take(s, MaybeFlush(config, s.tracker, accept, now)), key, start, schedule, i + 1)
  {
    hide Completions, Dispatches, OnTrack, CommitTerminal, MaybeFlush;
    TakeEvent(start, schedule, i);
    assert Completions(start, schedule[..i + 1]) == Completions(start, schedule[..i]);
    OtherOnTrack(config, s, key, start, Completions(start, schedule[..i]), other, offset, accept, now);
    MaybeFlushOnTrack(config, s, key, start, Completions(start, schedule[..i]), accept, now);
  }

  lemma PooledOtherDispatch(
    s: State, key: PartitionKey, start: int, schedule: seq<PoolEvent>, i: nat, other: PartitionKey, offset: int)
    requires i < |schedule| && !schedule[i].Dispatch? && !schedule[i].Drained? && other != key
    requires Pooled(s, key, start, schedule, i)
    ensures Pooled(s.(tracker := Observe(s.tracker, other, offset)), key, start, schedule, i + 1)
  {
    hide Completions, Dispatches, F.RunEnd, F.Above;
    TakeEvent(start, schedule, i);
    assert Completions(start, schedule[..i + 1]) == Completions(start, schedule[..i]);
    assert Part(Observe(s.tracker, other, offset), key) == Part(s.tracker, key);
  }

  lemma CompletedWereTerminal(key: PartitionKey, start: int, outcomes: seq<bool>, schedule: seq<PoolEvent>, i: nat)
    requires i <= |schedule| && Feasible(key, outcomes, schedule)
    ensures Completions(start, schedule[..i]) <= TerminalOffsets(start, outcomes)
  {
    hide Dispatches;
  }

  lemma PooledEnd(
    s: State, key: PartitionKey, start: int, outcomes: seq<bool>, schedule: seq<PoolEvent>, i: nat, accept: bool, now: real)
    requires i <= |schedule| && Pooled(s, key, start, schedule, i) && Feasible(key, outcomes, schedule)
    ensures var f := Flush(s.tracker, None, accept, now);
            && Resume(Take(s, f).committed, key, start) <= start + Leading(outcomes)
            && (!f.raised && i == |schedule| ==>
                  Resume(Take(s, f).committed, key, start) == FrontierOf(start, Completions(start, schedule)) + 1)
            && (!f.raised && i == |schedule| && Joined(start, outcomes, schedule) ==>
                  Resume(Take(s, f).committed, key, start) == start + Leading(outcomes))
  {
    hide Feasible, Dispatches, Completions, OnTrack;
    assert schedule[..|schedule|] == schedule;
    var marks := Completions(start, schedule[..i]);
    CompletedWereTerminal(key, start, outcomes, schedule, i);
    FlushOnTrack(s, key, start, marks, accept, now);
    NeverPasses(Take(s, Flush(s.tracker, None, accept, now)), key, start, marks, outcomes);
    PrefixFrontier(start, outcomes);
  }

  /** The tracker calls of the first `n` events. */
  function PoolCalls(key: PartitionKey, start: int, schedule: seq<PoolEvent>, accept: nat -> bool, now: nat -> real, n: nat): seq<Op>
    requires n <= |schedule|
  {
    if n == 0 then []
    else
      PoolCalls(key, start, schedule, accept, now, n - 1) + [PoolCall(key, start, schedule, accept, now, n - 1)]
  }

  function PoolCall(key: PartitionKey, start: int, schedule: seq<PoolEvent>, accept: nat -> bool, now: nat -> real, i: nat): Op
    requires i < |schedule|
  {
    match schedule[i]
    case Dispatch => Dispatched(key, start + Dispatches(schedule[..i]))
    case Drained(index) => Terminal(key, start + index, accept(i), now(i))
    case OtherDispatch(k, offset) => Dispatched(k, offset)
    case OtherDrained(k, offset) => Terminal(k, offset, accept(i), now(i))
    case EmptyPoll => Op.Idle(accept(i), now(i))
  }

  lemma OneMorePoolCall(key: PartitionKey, start: int, schedule: seq<PoolEvent>, accept: nat -> bool, now: nat -> real, i: nat)
    requires i < |schedule|
    ensures PoolCalls(key, start, schedule, accept, now, i + 1) ==
            PoolCalls(key, start, schedule, accept, now, i) + [PoolCall(key, start, schedule, accept, now, i)]
  {
  }

  lemma NoPoolCalls(key: PartitionKey, start: int, schedule: seq<PoolEvent>, accept: nat -> bool, now: nat -> real)
    ensures PoolCalls(key, start, schedule, accept, now, 0) == []
  {
  }

  lemma NoDispatches(schedule: seq<PoolEvent>)
    ensures Dispatches(schedule[..0]) == 0
  {
  }

  lemma OnlyOthers(key: PartitionKey, outcomes: seq<bool>, schedule: seq<PoolEvent>, i: nat)
    requires i < |schedule| && Feasible(key, outcomes, schedule)
    ensures schedule[i].OtherDispatch? || schedule[i].OtherDrained? ==> schedule[i].key != key
  {
  }

  /** The events of the other partitions among the first `n` have been carried out. */
  predicate CarriedOut(t: Tracker, schedule: seq<PoolEvent>, n: nat)
    requires n <= |schedule|
  {
    && (forall i :: 0 <= i < n && schedule[i].OtherDrained? ==> IsMarked(t, schedule[i].key, schedule[i].offset))
    && (forall i :: 0 <= i < n && schedule[i].OtherDispatch? ==> schedule[i].key in t.parts)
  }

  predicate NoneDrainedRevoked(revoked: set<PartitionKey>, schedule: seq<PoolEvent>) {
    forall i :: 0 <= i < |schedule| && schedule[i].OtherDrained? ==> schedule[i].key !in revoked
  }

  lemma PartsStay(config: Config, t: Tracker, k: PartitionKey, o: int, accept: bool, now: real)
    ensures t.parts.Keys + {k} == CommitTerminal(config, t, k, o, accept, now).tracker.parts.Keys == Observe(t, k, o).parts.Keys
    ensures t.parts.Keys == MaybeFlush(config, t, accept, now).tracker.parts.Keys == Flush(t, None, accept, now).tracker.parts.Keys
  {
    hide F.Mark, F.Observe, F.Confirm, F.Uncommitted;
  }

  lemma CarriedOutStays(config: Config, t: Tracker, schedule: seq<PoolEvent>, n: nat, k: PartitionKey, o: int, accept: bool, now: real)
    requires n <= |schedule| && CarriedOut(t, schedule, n)
    ensures CarriedOut(CommitTerminal(config, t, k, o, accept, now).tracker, schedule, n)
    ensures CarriedOut(MaybeFlush(config, t, accept, now).tracker, schedule, n)
    ensures CarriedOut(Flush(t, None, accept, now).tracker, schedule, n)
    ensures CarriedOut(Observe(t, k, o), schedule, n) && k in Observe(t, k, o).parts
    ensures IsMarked(CommitTerminal(config, t, k, o, accept, now).tracker, k, o)
  {
    hide CommitTerminal, MaybeFlush, Flush, IsMarked, Observe;
    PartsStay(config, t, k, o, accept, now);
    MarkedStays(config, t, k, o, k, o, accept, now);
    forall i | 0 <= i < n && schedule[i].OtherDrained?
      ensures IsMarked(CommitTerminal(config, t, k, o, accept, now).tracker, schedule[i].key, schedule[i].offset)
      ensures IsMarked(MaybeFlush(config, t, accept, now).tracker, schedule[i].key, schedule[i].offset)
      ensures IsMarked(Flush(t, None, accept, now).tracker, schedule[i].key, schedule[i].offset)
      ensures IsMarked(Observe(t, k, o), schedule[i].key, schedule[i].offset)
    {
      MarkedStays(config, t, schedule[i].key, schedule[i].offset, k, o, accept, now);
    }
  }

  lemma NothingCarriedOut(t: Tracker, schedule: seq<PoolEvent>)
    ensures CarriedOut(t, schedule, 0)
  {
  }

  lemma OneMoreCarriedOut(t: Tracker, schedule: seq<PoolEvent>, i: nat)
    requires i < |schedule| && CarriedOut(t, schedule, i)
    requires schedule[i].OtherDrained? ==> IsMarked(t, schedule[i].key, schedule[i].offset)
    requires schedule[i].OtherDispatch? ==> schedule[i].key in t.parts
    ensures CarriedOut(t, schedule, i + 1)
  {
  }

  /**
   The poll thread of `run_processor_pooled`. Whatever order the workers finish in, however the
   run ends and whatever is still outstanding, no committed position passes a record that is not
   terminal. It ends clean whenever the broker accepts and nothing is drained for a revoked
   partition. A clean run has carried out its whole schedule, resumes right behind the completed
   prefix and leaves nothing to commit; with all completions drained that is exactly where the
   sequential loop would resume for the same outcomes.
   */
  method RunProcessorPooled(
    c: KafkaEventConsumer, key: PartitionKey, start: int, outcomes: seq<bool>, schedule: seq<PoolEvent>,
    accept: nat -> bool, now: nat -> real)
    returns (clean: bool)
    requires c.Valid() && Untouched(c.View(), key, start) && Feasible(key, outcomes, schedule)
    modifies c, c.tracker, c.tracker.entries
    ensures c.Valid()
    ensures Resume(c.committed, key, start) <= start + Leading(outcomes)
    ensures clean && Joined(start, outcomes, schedule) ==> Resume(c.committed, key, start) == start + Leading(outcomes)
    ensures (forall n :: accept(n)) && NoneDrainedRevoked(old(c.revoked), schedule) ==> clean
    ensures clean ==> Resume(c.committed, key, start) == FrontierOf(start, Completions(start, schedule)) + 1
    ensures clean ==> CarriedOut(c.View().tracker, schedule, |schedule|)
    ensures clean ==> Did(c.tracker.config, old(c.View()).tracker, c.View().tracker,
                          PoolCalls(key, start, schedule, accept, now, |schedule|))
    ensures clean || (forall n :: accept(n)) ==> Commits(c.View().tracker, None) == map[]
  {
    hide KafkaEventConsumer.Valid, CommitTerminal, MaybeFlush, Flush, Observe, Pooled, Resume, Untouched, Leading, Joined;
    hide CarriedOut, IsMarked, Commits, FrontierOf, Completions, Saw, PoolCalls, Dispatches, Feasible;
    ghost var was, config := c.View().tracker, c.tracker.config;
    SawNothing(config, was);
    NoPoolCalls(key, start, schedule, accept, now);
    NoDispatches(schedule);
    clean := true;
    ghost var other := SomeOther(key);
    PooledStart(c.View(), key, start, schedule);
    NothingCarriedOut(c.View().tracker, schedule);
    var i, dispatched := 0, 0;
    while i < |schedule| && clean
      invariant 0 <= i <= |schedule| && c.Valid()
      invariant fresh(c.tracker.entries - old(c.tracker.entries))
      invariant c.revoked == old(c.revoked) && key !in c.revoked
      invariant dispatched == Dispatches(schedule[..i])
      invariant Pooled(c.View(), key, start, schedule, i)
      invariant clean ==> CarriedOut(c.View().tracker, schedule, i)
      invariant clean ==> Saw(config, was, c.View().tracker, PoolCalls(key, start, schedule, accept, now, i))
      invariant (forall n :: accept(n)) && NoneDrainedRevoked(old(c.revoked), schedule) ==> clean
      decreases |schedule| - i
    {
      TakeEvent(start, schedule, i);
      OneMorePoolCall(key, start, schedule, accept, now, i);
      OnlyOthers(key, outcomes, schedule, i);
      var raised := false;
      ghost var t, calls := c.View().tracker, PoolCalls(key, start, schedule, accept, now, i);
      match schedule[i] {
        case Dispatch =>
          PooledDispatch(c.View(), key, start, schedule, i);
          CarriedOutStays(c.tracker.config, t, schedule, i, key, start + dispatched, true, 0.0);
          SawOneMore(config, was, t, calls, key, start + dispatched, true, 0.0);
          c.ObserveDispatched(key, start + dispatched);
          dispatched := dispatched + 1;
        case Drained(index) =>
          PooledDrain(c.tracker.config, c.View(), key, start, outcomes, schedule, i, accept(i), now(i));
          CarriedOutStays(c.tracker.config, t, schedule, i, key, start + index, accept(i), now(i));
          SawOneMore(config, was, t, calls, key, start + index, accept(i), now(i));
          NeverRaises(c.tracker.config, t, key, start + index, now(i));
          raised := c.CommitTerminal(key, start + index, accept(i), now(i));
        case OtherDispatch(k, offset) =>
          PooledOtherDispatch(c.View(), key, start, schedule, i, k, offset);
          CarriedOutStays(c.tracker.config, t, schedule, i, k, offset, true, 0.0);
          SawOneMore(config, was, t, calls, k, offset, true, 0.0);
          c.ObserveDispatched(k, offset);
        case OtherDrained(k, offset) =>
          PooledOther(c.tracker.config, c.View(), key, start, schedule, i, k, offset, accept(i), now(i));
          CarriedOutStays(c.tracker.config, t, schedule, i, k, offset, accept(i), now(i));
          SawOneMore(config, was, t, calls, k, offset, accept(i), now(i));
          NeverRaises(c.tracker.config, t, k, offset, now(i));
          raised := c.CommitTerminal(k, offset, accept(i), now(i));
        case EmptyPoll =>
          PooledOther(c.tracker.config, c.View(), key, start, schedule, i, other, 0, accept(i), now(i));
          CarriedOutStays(c.tracker.config, t, schedule, i, other, 0, accept(i), now(i));
          SawOneMore(config, was, t, calls, other, 0, accept(i), now(i));
          NeverRaises(c.tracker.config, t, other, 0, now(i));
          raised := c.MaybeFlushIdle(accept(i), now(i));
      }
      if !raised { OneMoreCarriedOut(c.View().tracker, schedule, i); }
      clean := !raised;
      i := i + 1;
    }
    ghost var s := c.View();
    ghost var t := s.tracker;
    var raised := c.FlushPending(accept(i), now(i));
    PooledEnd(s, key, start, outcomes, schedule, i, accept(i), now(i));
    if clean {
      CarriedOutStays(c.tracker.config, t, schedule, i, other, 0, accept(i), now(i));
      SawOneMore(config, was, t, PoolCalls(key, start, schedule, accept, now, i), other, 0, accept(i), now(i));
    }
    NeverRaises(c.tracker.config, t, other, 0, now(i));
    FlushLeavesNothing(t, accept(i), now(i));
    clean := clean && !raised;
  }
}
