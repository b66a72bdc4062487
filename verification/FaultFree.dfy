/**
 Runs in which nothing fails. One sequential processor works through the records of a partition
 that its handlers accept: nothing is dead-lettered, every record it finishes is in the ledger, and
 it can always go on until all of them are.
 */
module FaultFree {
  import opened Prelude
  import opened Commerce
  import opened CommerceAnswers
  import opened TrackerSpec
  import opened Ledger
  import opened Pipeline
  import C = Consumer
  import L = Loops
  import P = RecordProtocol

  /** The first `n` records of partition `key`, to be processed by processor `p`. */
  datatype Plan = Plan(setup: Setup, p: ProcessorId, key: PartitionKey, n: nat)

  function Base(s: Plan): int { s.setup.origin(s.key) }

  function Source(s: Plan, i: int): Coordinate { Coordinate(s.key, Base(s) + i) }

  function EventAt(s: Plan, i: int): Event {
    match s.setup.log(Source(s, i))
    case WellFormed(e) => e
    case Malformed => Event(0, UserRegistered(0, 0), 0)
  }

  /** The ledger once the first `m` records are stored. */
  function Rows(s: Plan, m: nat): seq<Entry> {
    seq(m, i requires 0 <= i < m => Entry(EventAt(s, i), Source(s, i)))
  }

  /** Well-formed records with distinct identifiers, which the repositories accept in this order. */
  ghost predicate Acceptable(s: Plan) {
    && (forall i :: 0 <= i < s.n ==> s.setup.log(Source(s, i)) == WellFormed(EventAt(s, i)))
    && (forall i, j :: 0 <= i < j < s.n ==> EventAt(s, i).id != EventAt(s, j).id)
    && Replay(Events(Rows(s, s.n))).Accepted?
  }

  lemma PrefixOfRows(s: Plan, m: nat)
    requires m < s.n
    ensures Events(Rows(s, m + 1))[..m] == Events(Rows(s, m)) && Events(Rows(s, m + 1))[m] == EventAt(s, m)
    ensures Rows(s, m + 1) == Rows(s, m) + [Entry(EventAt(s, m), Source(s, m))]
  {
  }

  lemma RowsAccepted(s: Plan, m: nat)
    requires Acceptable(s) && m <= s.n
    ensures Replay(Events(Rows(s, m))).Accepted?
  {
    assert Events(Rows(s, s.n))[..m] == Events(Rows(s, m));
    PrefixAccepted(Events(Rows(s, s.n)), m);
  }

  // ----- where such a run is -----

  /** How many records were polled, and the phase of the last one if it is still being processed. */
  datatype Spot = Spot(polled: nat, token: Token, phase: Option<P.Phase>)

  function Finished(spot: Spot): nat {
    if spot.phase.Some? && spot.polled > 0 then spot.polled - 1 else spot.polled
  }

  function Stored(spot: Spot): nat {
    if spot.phase.Some? && !spot.phase.value.Completing? && !spot.phase.value.Committing? && spot.polled > 0
    then spot.polled - 1 else spot.polled
  }

  predicate Expected(phase: P.Phase, e: Event) {
    || phase == P.Validating || phase == P.Reserving(e) || phase == P.Persisting(e, false, 1)
    || phase == P.Completing(e, 1) || phase == P.Committing(P.Processed, 1)
  }

  function Outcomes(s: Plan): seq<bool> { seq(s.n, _ => true) }

  function View(w: World, q: Processor): C.State { C.State(q.tracker, q.revoked, w.committed) }

  /** Only events up to the current one are leased; from the reservation to the completion it holds its lease. */
  ghost predicate LeasesFit(s: Plan, leases: map<Id, Lease>, spot: Spot) {
    var current := spot.phase.Some? && (spot.phase.value.Validating? || spot.phase.value.Reserving?);
    var m := if current && spot.polled > 0 then spot.polled - 1 else spot.polled;
    && (forall id :: id in leases ==> exists i :: 0 <= i < m && EventAt(s, i).id == id)
    && (spot.phase.Some? && (spot.phase.value.Persisting? || spot.phase.value.Completing?) ==>
          var id := EventAt(s, spot.polled - 1).id; id in leases && leases[id] == Held(spot.token))
  }

  ghost predicate ProcessorFits(s: Plan, q: Processor, spot: Spot) {
    && !q.pooled && q.running && q.revoked == {} && q.queue == []
    && q.positions == map[s.key := Base(s) + spot.polled]
    && (if spot.phase == None then q.inflight == map[]
        else
          && spot.polled > 0 && Expected(spot.phase.value, EventAt(s, spot.polled - 1))
          && q.inflight == map[spot.token := Work(Source(s, spot.polled - 1), spot.phase.value)])
  }

  ghost predicate TablesFit(s: Plan, db: Database, m: nat) {
    db.ledger == Rows(s, m) && Replay(Events(Rows(s, m))) == Accepted(db.store)
  }

  ghost predicate OnCourse(s: Plan, w: World, spot: Spot) {
    && spot.polled <= s.n && w.dlq == {} && s.p in w.processors
    && ProcessorFits(s, w.processors[s.p], spot)
    && TablesFit(s, w.db, Stored(spot))
    && LeasesFit(s, w.leases, spot)
    && L.Sequential(View(w, w.processors[s.p]), s.key, Base(s), Outcomes(s), Finished(spot))
  }

  // ----- one step -----

  /** No fault, no crash, no rebalance, no expiry; the broker accepts; nothing beyond the plan is polled. */
  predicate Calm(s: Plan, w: World, step: Step) {
    match step
    case Poll(p, key) =>
      p == s.p && key == s.key && p in w.processors && key in w.processors[p].positions && w.processors[p].positions[key] < Base(s) + s.n
    case Validate(p, _) => p == s.p
    case Reserve(p, _, fault) => p == s.p && fault == Sound
    case Transact(p, _, trouble) => p == s.p && trouble == NoFault
    case Release(p, _, fault) => p == s.p && fault == Sound
    case Complete(p, _, fault) => p == s.p && fault == Sound
    case Publish(p, _, fault) => p == s.p && fault == Sound
    case Finish(p, _, accept, _) => p == s.p && accept
    case Idle(p, accept, _) => p == s.p && accept
    case _ => false
  }

  function After(s: Plan, w: World, spot: Spot, step: Step): Spot {
    var e := EventAt(s, spot.polled - 1);
    match step
    case Poll(_, _) => Spot(spot.polled + 1, w.nextToken, Some(P.Validating))
    case Validate(_, _) => spot.(phase := Some(P.Reserving(e)))
    case Reserve(_, _, _) => spot.(phase := Some(P.Persisting(e, false, 1)))
    case Transact(_, _, _) => spot.(phase := Some(P.Completing(e, 1)))
    case Complete(_, _, _) => spot.(phase := Some(P.Committing(P.Processed, 1)))
    case Finish(_, _, _, _) => spot.(phase := None)
    case _ => spot
  }

  lemma NothingInFlight(s: Plan, w: World, spot: Spot)
    requires s.p in w.processors && ProcessorFits(s, w.processors[s.p], spot)
    ensures w.processors[s.p].inflight == map[] <==> spot.phase == None
  {
    if spot.phase.Some? { assert spot.token in w.processors[s.p].inflight; }
  }

  lemma PollStays(s: Plan, w: World, spot: Spot, step: Step)
    requires Acceptable(s) && OnCourse(s, w, spot) && Enabled(w, step) && Calm(s, w, step) && step.Poll?
    ensures OnCourse(s, Next(s.setup, w, step), After(s, w, spot, step))
  {
    hide L.Sequential, TablesFit, Acceptable;
    NothingInFlight(s, w, spot);
    var q' := Next(s.setup, w, step).processors[s.p];
    assert q'.inflight == map[w.nextToken := Work(Source(s, spot.polled), P.Validating)];
  }

  lemma ValidateStays(s: Plan, w: World, spot: Spot, step: Step)
    requires Acceptable(s) && OnCourse(s, w, spot) && Enabled(w, step) && Calm(s, w, step) && step.Validate?
    ensures OnCourse(s, Next(s.setup, w, step), After(s, w, spot, step))
  {
    hide L.Sequential, TablesFit;
    var q, q' := w.processors[s.p], Next(s.setup, w, step).processors[s.p];
    var e := EventAt(s, spot.polled - 1);
    assert q'.inflight == map[spot.token := Work(Source(s, spot.polled - 1), P.Reserving(e))];
  }

  /** No earlier record has this one's identifier, so its lease is free. */
  lemma LeaseIsFree(s: Plan, leases: map<Id, Lease>, spot: Spot)
    requires Acceptable(s) && 0 < spot.polled <= s.n && LeasesFit(s, leases, spot)
    requires spot.phase == Some(P.Reserving(EventAt(s, spot.polled - 1)))
    ensures var e := EventAt(s, spot.polled - 1);
            && e.id !in leases
            && LeasesFit(s, leases[e.id := Held(spot.token)], spot.(phase := Some(P.Persisting(e, false, 1))))
  {
    hide EventAt;
  }

  lemma ReserveStays(s: Plan, w: World, spot: Spot, step: Step)
    requires Acceptable(s) && OnCourse(s, w, spot) && Enabled(w, step) && Calm(s, w, step) && step.Reserve?
    ensures OnCourse(s, Next(s.setup, w, step), After(s, w, spot, step))
  {
    hide L.Sequential, TablesFit, LeasesFit, Acceptable, EventAt;
    var e := EventAt(s, spot.polled - 1);
    assert spot.phase == Some(P.Reserving(e));
    LeaseIsFree(s, w.leases, spot);
    var w' := Next(s.setup, w, step);
    assert w'.leases == w.leases[e.id := Held(spot.token)];
    assert w'.processors[s.p].inflight == map[spot.token := Work(Source(s, spot.polled - 1), P.Persisting(e, false, 1))];
  }

  /** The record is new to the ledger, so the transaction stores it. */
  lemma NextIsStored(s: Plan, db: Database, m: nat)
    requires Acceptable(s) && m < s.n && TablesFit(s, db, m)
    ensures Persist(db, EventAt(s, m), Source(s, m)).1 == Committed
    ensures TablesFit(s, Persist(db, EventAt(s, m), Source(s, m)).0, m + 1)
  {
    hide Apply, Persist;
    PrefixOfRows(s, m);
    RowsAccepted(s, m + 1);
    assert Fresh(db.ledger, EventAt(s, m), Source(s, m));
    PersistAnswers(db, EventAt(s, m), Source(s, m));
  }

  lemma TransactStays(s: Plan, w: World, spot: Spot, step: Step)
    requires Acceptable(s) && OnCourse(s, w, spot) && Enabled(w, step) && Calm(s, w, step) && step.Transact?
    ensures OnCourse(s, Next(s.setup, w, step), After(s, w, spot, step))
  {
    hide L.Sequential, TablesFit, Persist, Acceptable, EventAt;
    var e := EventAt(s, spot.polled - 1);
    assert spot.phase == Some(P.Persisting(e, false, 1));
    NextIsStored(s, w.db, spot.polled - 1);
    var q' := Next(s.setup, w, step).processors[s.p];
    assert q'.inflight == map[spot.token := Work(Source(s, spot.polled - 1), P.Completing(e, 1))];
  }

  lemma CompleteStays(s: Plan, w: World, spot: Spot, step: Step)
    requires Acceptable(s) && OnCourse(s, w, spot) && Enabled(w, step) && Calm(s, w, step) && step.Complete?
    ensures OnCourse(s, Next(s.setup, w, step), After(s, w, spot, step))
  {
    hide L.Sequential, TablesFit, Acceptable, EventAt;
    var e := EventAt(s, spot.polled - 1);
    assert spot.phase == Some(P.Completing(e, 1));
    var q' := Next(s.setup, w, step).processors[s.p];
    assert q'.inflight == map[spot.token := Work(Source(s, spot.polled - 1), P.Committing(P.Processed, 1))];
  }

  lemma FinishIs(s: Plan, w: World, token: Token, now: real)
    requires Enabled(w, Finish(s.p, token, true, now))
    ensures Next(s.setup, w, Finish(s.p, token, true, now)) == FinishOne(s.setup, w, s.p, token, true, now)
  {
    hide FinishOne;
  }

  lemma FinishStays(s: Plan, w: World, spot: Spot, step: Step)
    requires Acceptable(s) && OnCourse(s, w, spot) && Enabled(w, step) && Calm(s, w, step) && step.Finish?
    ensures OnCourse(s, Next(s.setup, w, step), After(s, w, spot, step))
  {
    hide L.Sequential, TablesFit, Acceptable, EventAt, CommitTerminal, Next;
    FinishIs(s, w, step.token, step.now);
    var q := w.processors[s.p];
    var m := spot.polled - 1;
    assert spot.phase == Some(P.Committing(P.Processed, 1));
    NeverRaises(s.setup.commits, q.tracker, s.key, Base(s) + m, step.now);
    L.SequentialRecord(s.setup.commits, View(w, q), s.key, Base(s), Outcomes(s), m, true, step.now);
    var q' := Next(s.setup, w, step).processors[s.p];
    assert q'.inflight == map[];
  }

  lemma IdleStays(s: Plan, w: World, spot: Spot, step: Step)
    requires Acceptable(s) && OnCourse(s, w, spot) && Enabled(w, step) && Calm(s, w, step) && step.Idle?
    ensures OnCourse(s, Next(s.setup, w, step), After(s, w, spot, step))
  {
    hide L.Sequential, TablesFit, Acceptable, EventAt, MaybeFlush;
    var q := w.processors[s.p];
    var other := L.SomeOther(s.key);
    NeverRaises(s.setup.commits, q.tracker, s.key, 0, step.now);
    L.SequentialOther(s.setup.commits, View(w, q), s.key, Base(s), Outcomes(s), Finished(spot), other, 0, true, step.now);
  }

  /** A calm step stays on course, and none of them publishes to the dead-letter topic or releases a lease. */
  lemma StepStays(s: Plan, w: World, spot: Spot, step: Step)
    requires Acceptable(s) && OnCourse(s, w, spot) && Enabled(w, step) && Calm(s, w, step)
    ensures OnCourse(s, Next(s.setup, w, step), After(s, w, spot, step))
  {
    if step.Release? || step.Publish? { NeverGivesUp(s, w, spot, step); }
    hide OnCourse, Next, Acceptable, Enabled, After;
    match step
    case Poll(_, _) => PollStays(s, w, spot, step);
    case Validate(_, _) => ValidateStays(s, w, spot, step);
    case Reserve(_, _, _) => ReserveStays(s, w, spot, step);
    case Transact(_, _, _) => TransactStays(s, w, spot, step);
    case Complete(_, _, _) => CompleteStays(s, w, spot, step);
    case Finish(_, _, _, _) => FinishStays(s, w, spot, step);
    case Idle(_, _, _) => IdleStays(s, w, spot, step);
    case _ =>
  }

  lemma NeverGivesUp(s: Plan, w: World, spot: Spot, step: Step)
    requires OnCourse(s, w, spot) && (step.Release? || step.Publish?) && step.p == s.p
    ensures !Enabled(w, step)
  {
    hide L.Sequential, TablesFit, LeasesFit, EventAt;
  }

  // ----- whole runs -----

  ghost predicate AllCalm(s: Plan, w: World, steps: seq<Step>)
    requires Legal(s.setup, w, steps)
    decreases |steps|
  {
    steps == [] || (Calm(s, w, steps[0]) && AllCalm(s, Next(s.setup, w, steps[0]), steps[1..]))
  }

  lemma {:induction false} RunStays(s: Plan, w: World, spot: Spot, steps: seq<Step>) returns (end: Spot)
    requires Acceptable(s) && OnCourse(s, w, spot) && Legal(s.setup, w, steps) && AllCalm(s, w, steps)
    ensures OnCourse(s, Pipeline.Run(s.setup, w, steps), end)
    decreases |steps|
  {
    hide OnCourse, Next, Acceptable, Enabled, Calm, After;
    if steps == [] {
      end := spot;
    } else {
      StepStays(s, w, spot, steps[0]);
      end := RunStays(s, Next(s.setup, w, steps[0]), After(s, w, spot, steps[0]), steps[1..]);
    }
  }

  /** The processor has started and owns the partition. */
  function Opened(s: Plan, now: real): (w: World)
    ensures Enabled(INIT, Start(s.p, false, now))
    ensures var started := Next(s.setup, INIT, Start(s.p, false, now));
            Enabled(started, Assign(s.p, s.key)) && w == Next(s.setup, started, Assign(s.p, s.key))
  {
    var started := Next(s.setup, INIT, Start(s.p, false, now));
    Next(s.setup, started, Assign(s.p, s.key))
  }

  lemma OpenedIsOnCourse(s: Plan, now: real)
    requires Acceptable(s)
    ensures OnCourse(s, Opened(s, now), Spot(0, 0, None))
  {
    var w := Opened(s, now);
    var q := w.processors[s.p];
    assert q.positions == map[s.key := Base(s)];
    assert Events(Rows(s, 0)) == [] && Rows(s, 0) == [];
    L.SequentialStart(View(w, q), s.key, Base(s), Outcomes(s));
    hide L.Sequential;
  }

  /** What the course says in the end, on the world alone. */
  ghost predicate StoresInOrder(s: Plan, w: World) {
    && s.p in w.processors && s.key in w.processors[s.p].positions
    && (var q := w.processors[s.p];
        var polled := q.positions[s.key] - Base(s);
        && 0 <= polled <= s.n && q.running && w.dlq == {}
        && polled - 1 <= |w.db.ledger| <= polled
        && w.db.ledger == Rows(s, |w.db.ledger|)
        && (q.inflight == map[] ==> |w.db.ledger| == polled)
        && forall now: real ::
             var committed := Next(s.setup, w, Shutdown(s.p, true, now)).committed;
             L.Resume(committed, s.key, Base(s)) == Base(s) + if q.inflight == map[] then polled else polled - 1)
  }

  lemma ShutdownResumes(s: Plan, w: World, spot: Spot, now: real)
    requires OnCourse(s, w, spot)
    ensures L.Resume(Next(s.setup, w, Shutdown(s.p, true, now)).committed, s.key, Base(s)) == Base(s) + Finished(spot)
  {
    hide L.Sequential, LeasesFit, TablesFit, EventAt, L.Resume, Flush;
    var q := w.processors[s.p];
    L.SequentialEnd(View(w, q), s.key, Base(s), Outcomes(s), Finished(spot), true, now);
    NeverRaises(s.setup.commits, q.tracker, s.key, 0, now);
  }

  lemma CourseStores(s: Plan, w: World, spot: Spot)
    requires OnCourse(s, w, spot)
    ensures StoresInOrder(s, w)
  {
    forall now: real
      ensures L.Resume(Next(s.setup, w, Shutdown(s.p, true, now)).committed, s.key, Base(s)) == Base(s) + Finished(spot)
    {
      ShutdownResumes(s, w, spot, now);
    }
    hide L.Sequential, LeasesFit, EventAt, L.Resume, Next;
    NothingInFlight(s, w, spot);
    assert |Rows(s, Stored(spot))| == Stored(spot);
  }

  /**
   Every calm run: the ledger holds the records in order, all but perhaps the one in process;
   nothing is dead-lettered; and a shutdown leaves the next owner right behind the last finished one.
   */
  lemma CalmRunsStoreEverything(s: Plan, now: real, steps: seq<Step>)
    requires Acceptable(s) && Legal(s.setup, Opened(s, now), steps) && AllCalm(s, Opened(s, now), steps)
    ensures StoresInOrder(s, Pipeline.Run(s.setup, Opened(s, now), steps))
  {
    hide OnCourse, StoresInOrder, Acceptable, Next, Legal, AllCalm;
    OpenedIsOnCourse(s, now);
    var end := RunStays(s, Opened(s, now), Spot(0, 0, None), steps);
    CourseStores(s, Pipeline.Run(s.setup, Opened(s, now), steps), end);
  }

  // ----- it gets there -----

  /** Each record takes six calm steps. */
  function StepsLeft(s: Plan, spot: Spot): int {
    6 * (s.n - spot.polled) +
    (if spot.phase == None then 0
     else match spot.phase.value
       case Validating => 5
       case Reserving(_) => 4
       case Persisting(_, _, _) => 3
       case Completing(_, _) => 2
       case _ => 1)
  }

  /** The step the loop takes next. */
  function Move(s: Plan, spot: Spot): Step {
    if spot.phase == None then Poll(s.p, s.key)
    else match spot.phase.value
      case Validating => Validate(s.p, spot.token)
      case Reserving(_) => Reserve(s.p, spot.token, Sound)
      case Persisting(_, _, _) => Transact(s.p, spot.token, NoFault)
      case Completing(_, _) => Complete(s.p, spot.token, Sound)
      case _ => Finish(s.p, spot.token, true, 0.0)
  }

  lemma CanMove(s: Plan, w: World, spot: Spot)
    requires OnCourse(s, w, spot) && StepsLeft(s, spot) != 0
    ensures Enabled(w, Move(s, spot)) && Calm(s, w, Move(s, spot))
    ensures StepsLeft(s, After(s, w, spot, Move(s, spot))) == StepsLeft(s, spot) - 1 >= 0
  {
    hide L.Sequential, TablesFit, LeasesFit, EventAt;
  }

  lemma {:induction false} GoesOnToTheEnd(s: Plan, w: World, spot: Spot) returns (steps: seq<Step>, end: Spot)
    requires Acceptable(s) && OnCourse(s, w, spot)
    ensures Legal(s.setup, w, steps) && AllCalm(s, w, steps) && |steps| == StepsLeft(s, spot)
    ensures OnCourse(s, Pipeline.Run(s.setup, w, steps), end) && StepsLeft(s, end) == 0
    decreases StepsLeft(s, spot)
  {
    hide OnCourse, Next, Acceptable, Enabled, Calm, After, Move, StepsLeft;
    if StepsLeft(s, spot) == 0 {
      steps, end := [], spot;
    } else {
      var step := Move(s, spot);
      CanMove(s, w, spot);
      StepStays(s, w, spot, step);
      var rest;
      rest, end := GoesOnToTheEnd(s, Next(s.setup, w, step), After(s, w, spot, step));
      steps := [step] + rest;
      assert steps[1..] == rest;
    }
  }

  /** Every record is stored and the processor idle. */
  ghost predicate AllStored(s: Plan, w: World) {
    && w.db.ledger == Rows(s, s.n) && w.dlq == {} && s.p in w.processors && w.processors[s.p].inflight == map[]
    && forall now: real :: L.Resume(Next(s.setup, w, Shutdown(s.p, true, now)).committed, s.key, Base(s)) == Base(s) + s.n
  }

  lemma EndIsAllStored(s: Plan, w: World, spot: Spot)
    requires OnCourse(s, w, spot) && StepsLeft(s, spot) == 0
    ensures AllStored(s, w)
  {
    hide L.Sequential, LeasesFit, EventAt, L.Resume;
    CourseStores(s, w, spot);
  }

  /**
   From wherever a calm run has got, calm steps lead to the state in which every record is in the
   ledger, nothing is dead-lettered, and the committed position after the shutdown is behind the last.
   */
  lemma CalmRunsGetThere(s: Plan, now: real, steps: seq<Step>) returns (more: seq<Step>)
    requires Acceptable(s) && Legal(s.setup, Opened(s, now), steps) && AllCalm(s, Opened(s, now), steps)
    ensures var w := Pipeline.Run(s.setup, Opened(s, now), steps);
            && Legal(s.setup, w, more) && AllCalm(s, w, more) && |more| <= 6 * s.n
            && AllStored(s, Pipeline.Run(s.setup, w, more))
  {
    hide OnCourse, AllStored, Acceptable, Next, Legal, AllCalm;
    OpenedIsOnCourse(s, now);
    var spot := RunStays(s, Opened(s, now), Spot(0, 0, None), steps);
    var w := Pipeline.Run(s.setup, Opened(s, now), steps);
    var end;
    more, end := GoesOnToTheEnd(s, w, spot);
    FewSteps(s, w, spot);
    EndIsAllStored(s, Pipeline.Run(s.setup, w, more), end);
  }

  lemma FewSteps(s: Plan, w: World, spot: Spot)
    requires OnCourse(s, w, spot)
    ensures StepsLeft(s, spot) <= 6 * s.n
  {
    hide L.Sequential, TablesFit, LeasesFit, EventAt;
  }
}
