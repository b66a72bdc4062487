/**
 What every run of the pipeline keeps about records, leases and the ledger. Nothing here looks
 at an offset, so it holds of every run, overlapping owners and stale completions included.
 */
module PipelineRecords {
  import opened Prelude
  import opened Commerce
  import opened CommerceInvariants
  import opened TrackerSpec
  import opened Ledger
  import opened Pipeline
  import P = RecordProtocol

  // ----- what "handled" means -----

  /** The two durable places where a record may end. */
  datatype Durable = Durable(db: Database, dlq: set<Coordinate>)

  function Of(w: World): Durable { Durable(w.db, w.dlq) }

  /** In the ledger with this id and this content, or dead-lettered from this coordinate. */
  predicate Handled(setup: Setup, d: Durable, c: Coordinate) {
    || c in d.dlq
    || (setup.log(c).WellFormed? && Recorded(d.db, setup.log(c).event))
  }

  ghost predicate Grows(d: Durable, d': Durable) {
    d.dlq <= d'.dlq && d.db.ledger <= d'.db.ledger && ExactlyOnce(d.db) && ExactlyOnce(d'.db)
  }

  lemma HandledStays(setup: Setup, d: Durable, d': Durable, c: Coordinate)
    requires Grows(d, d') && Handled(setup, d, c)
    ensures Handled(setup, d', c)
  {
    if c !in d.dlq {
      RecordedStays(d.db.ledger, d'.db.ledger, setup.log(c).event.id);
    }
  }

  // ----- the inductive invariant -----

  ghost predicate WorkOk(setup: Setup, d: Durable, work: Work) {
    match work.phase
    case Validating => true
    case Reserving(e) => setup.log(work.source) == WellFormed(e)
    case Persisting(e, recovering, _) =>
      setup.log(work.source) == WellFormed(e) && (recovering ==> FindEvent(d.db.ledger, e.id).Some?)
    case Releasing(e, _) => setup.log(work.source) == WellFormed(e)
    case Completing(e, _) => setup.log(work.source) == WellFormed(e) && Recorded(d.db, e)
    case DeadLettering(_) => true
    case Committing(_, _) => Handled(setup, d, work.source)
    case Returned(_, _) => false
    case Raised => false
  }

  /** A completed marker in Redis means the event is in the ledger. */
  ghost predicate LeasesOk(leases: map<Id, Lease>, db: Database) {
    forall id :: id in leases && leases[id] == CompletedMarker ==> FindEvent(db.ledger, id).Some?
  }

  ghost predicate TokensOk(w: World) {
    && (forall p: ProcessorId, t: Token :: HasWork(w, p, t) ==> t < w.nextToken)
    && (forall id :: id in w.leases && w.leases[id].Held? ==> w.leases[id].token < w.nextToken)
    && (forall p: ProcessorId, p': ProcessorId, t: Token :: HasWork(w, p, t) && HasWork(w, p', t) ==> p == p')
  }

  /** Every ledger row stores the record of its own coordinate. */
  ghost predicate FromLog(setup: Setup, db: Database) {
    forall i :: 0 <= i < |db.ledger| ==> setup.log(db.ledger[i].source) == WellFormed(db.ledger[i].event)
  }

  ghost predicate AllWorkOk(setup: Setup, w: World) {
    forall p: ProcessorId, t: Token :: HasWork(w, p, t) ==> WorkOk(setup, Of(w), w.processors[p].inflight[t])
  }

  ghost predicate RecordsOk(setup: Setup, w: World) {
    ExactlyOnce(w.db) && FromLog(setup, w.db) && LeasesOk(w.leases, w.db) && TokensOk(w) && AllWorkOk(setup, w)
  }

  lemma WorkOkStays(setup: Setup, d: Durable, d': Durable, work: Work)
    requires Grows(d, d') && WorkOk(setup, d, work)
    ensures WorkOk(setup, d', work)
  {
    match work.phase
    case Persisting(e, _, _) => RecordedStays(d.db.ledger, d'.db.ledger, e.id);
    case Completing(e, _) => RecordedStays(d.db.ledger, d'.db.ledger, e.id);
    case Committing(_, _) => HandledStays(setup, d, d', work.source);
    case _ =>
  }

  lemma MarkersStay(leases: map<Id, Lease>, d: Durable, d': Durable)
    requires LeasesOk(leases, d.db) && Grows(d, d')
    ensures LeasesOk(leases, d'.db)
  {
    forall id | id in leases && leases[id] == CompletedMarker ensures FindEvent(d'.db.ledger, id).Some? {
      RecordedStays(d.db.ledger, d'.db.ledger, id);
    }
  }

  // ----- steps that take no record further -----

  /** No new work, no new lease, nothing durable changes. */
  ghost predicate Fewer(w: World, w': World) {
    && w'.db == w.db && w'.dlq == w.dlq && w'.nextToken == w.nextToken
    && (forall id :: id in w'.leases ==> id in w.leases && w'.leases[id] == w.leases[id])
    && (forall p: ProcessorId, t: Token :: HasWork(w', p, t) ==>
          HasWork(w, p, t) && w'.processors[p].inflight[t] == w.processors[p].inflight[t])
  }

  lemma FewerKeeps(setup: Setup, w: World, w': World)
    requires RecordsOk(setup, w) && Fewer(w, w')
    ensures RecordsOk(setup, w')
  {
    hide WorkOk, ExactlyOnce, FindEvent;
  }

  predicate IsWorker(step: Step) {
    step.Validate? || step.Reserve? || step.Transact? || step.Release? || step.Complete? || step.Publish?
  }

  lemma InstallFewer(w: World, w': World, p: ProcessorId, q: Processor)
    requires w'.processors == w.processors[p := q] && w'.leases == w.leases
    requires w'.db == w.db && w'.dlq == w.dlq && w'.nextToken == w.nextToken
    requires forall t :: t in q.inflight ==> HasWork(w, p, t) && q.inflight[t] == w.processors[p].inflight[t]
    ensures Fewer(w, w')
  {
  }

  lemma FinishFewer(setup: Setup, w: World, step: Step)
    requires Enabled(w, step) && step.Finish?
    ensures Fewer(w, Next(setup, w, step))
  {
    hide CommitTerminal, Fewer, Settle;
    var q, w' := w.processors[step.p], Next(setup, w, step);
    var Work(source, phase) := q.inflight[step.token];
    FinishSettles(q, step.token, source, P.Returned(phase.status, phase.attempts));
    FinishSettles(q, step.token, source, P.AfterCommit(phase.status, phase.attempts, true));
    FinishSettles(q, step.token, source, P.AfterCommit(phase.status, phase.attempts, false));
    FinishSettles(q.(queue := q.queue + [source]), step.token, source, P.Returned(phase.status, phase.attempts));
    InstallFewer(w, w', step.p, w'.processors[step.p]);
  }

  lemma FinishSettles(q: Processor, token: Token, source: Coordinate, phase: P.Phase)
    requires phase.Returned? || phase.Raised?
    ensures Settle(q, token, source, phase).inflight == q.inflight - {token}
  {
  }

  lemma ConsumerFewer(setup: Setup, w: World, step: Step)
    requires Enabled(w, step)
    requires step.Stop? || step.Assign? || step.Revoke? || step.Drain? || step.Idle? || step.Shutdown? || step.Start?
    ensures Fewer(w, Next(setup, w, step))
  {
    hide CommitTerminal, Flush, MaybeFlush, Fewer, Drop, Begin;
    InstallFewer(w, Next(setup, w, step), step.p, Next(setup, w, step).processors[step.p]);
  }

  lemma RestFewer(setup: Setup, w: World, step: Step)
    requires Enabled(w, step) && !IsWorker(step) && !step.Poll?
    ensures Fewer(w, Next(setup, w, step))
  {
    hide CommitTerminal, Flush, MaybeFlush, PollOne, FinishOne, DrainOne, RevokeKeys;
    if step.Finish? {
      FinishFewer(setup, w, step);
    } else if step.Crash? || step.Expire? {
      assert Fewer(w, Next(setup, w, step));
    } else {
      hide Next, Fewer;
      ConsumerFewer(setup, w, step);
    }
  }

  lemma PollKeeps(setup: Setup, w: World, step: Step)
    requires RecordsOk(setup, w) && Enabled(w, step) && step.Poll?
    ensures RecordsOk(setup, Next(setup, w, step))
  {
    hide ExactlyOnce, FindEvent, LeasesOk, FromLog, Observe;
    var w' := Next(setup, w, step);
    assert forall p: ProcessorId, t: Token :: HasWork(w', p, t) ==> HasWork(w, p, t) || (p == step.p && t == w.nextToken);
  }

  // ----- steps of the record protocol -----

  /** Every lease held afterwards was held before or is the one taken with `token`. */
  ghost predicate OnlyBy(token: Token, leases: map<Id, Lease>, leases': map<Id, Lease>) {
    forall id :: id in leases' && leases'[id].Held? ==>
      (id in leases && leases[id] == leases'[id]) || leases'[id].token == token
  }

  lemma LeaseSteps(w: World, event: Event, token: Token, fault: Fault)
    requires LeasesOk(w.leases, w.db)
    ensures var l := ReservedLeases(w.leases, event, token, fault); LeasesOk(l, w.db) && OnlyBy(token, w.leases, l)
    ensures var l := ReleasedLeases(w.leases, event, token, fault); LeasesOk(l, w.db) && OnlyBy(token, w.leases, l)
    ensures Recorded(w.db, event) ==>
              var l := CompletedLeases(w.leases, event, token, fault); LeasesOk(l, w.db) && OnlyBy(token, w.leases, l)
  {
    hide FindEvent;
  }

  /** How a worker's step looks: its record moves to `phase`, Redis and the durable state as given. */
  predicate Moves(w: World, w': World, p: ProcessorId, token: Token, phase: P.Phase) {
    && HasWork(w, p, token)
    && w' == Install(w, p, Settle(w.processors[p], token, w.processors[p].inflight[token].source, phase))
               .(leases := w'.leases, db := w'.db, dlq := w'.dlq)
  }

  lemma MovedTokens(w: World, w': World, p: ProcessorId, token: Token, phase: P.Phase)
    requires TokensOk(w) && Moves(w, w', p, token, phase) && OnlyBy(token, w.leases, w'.leases)
    ensures TokensOk(w')
    ensures forall r: ProcessorId, t: Token :: HasWork(w', r, t) ==> HasWork(w, r, t)
  {
    assert forall r: ProcessorId, t: Token :: HasWork(w', r, t) ==> HasWork(w, r, t);
  }

  lemma MovedWork(setup: Setup, w: World, w': World, p: ProcessorId, token: Token, phase: P.Phase)
    requires AllWorkOk(setup, w) && Moves(w, w', p, token, phase) && Grows(Of(w), Of(w'))
    requires phase.Returned? || phase.Raised? || WorkOk(setup, Of(w'), Work(w.processors[p].inflight[token].source, phase))
    ensures AllWorkOk(setup, w')
  {
    hide WorkOk, Grows;
    forall r: ProcessorId, t: Token | HasWork(w', r, t) ensures WorkOk(setup, Of(w'), w'.processors[r].inflight[t]) {
      if r != p || t != token {
        assert HasWork(w, r, t) && w'.processors[r].inflight[t] == w.processors[r].inflight[t];
        WorkOkStays(setup, Of(w), Of(w'), w.processors[r].inflight[t]);
      }
    }
  }

  lemma MoveKeeps(setup: Setup, w: World, w': World, p: ProcessorId, token: Token, phase: P.Phase)
    requires RecordsOk(setup, w) && Moves(w, w', p, token, phase) && Grows(Of(w), Of(w'))
    requires phase.Returned? || phase.Raised? || WorkOk(setup, Of(w'), Work(w.processors[p].inflight[token].source, phase))
    requires FromLog(setup, w'.db) && LeasesOk(w'.leases, w'.db) && OnlyBy(token, w.leases, w'.leases)
    ensures RecordsOk(setup, w')
  {
    hide Moves, WorkOk, FromLog, LeasesOk, OnlyBy, TokensOk, AllWorkOk;
    MovedTokens(w, w', p, token, phase);
    MovedWork(setup, w, w', p, token, phase);
  }

  lemma WorkIsOk(setup: Setup, w: World, p: ProcessorId, t: Token)
    requires RecordsOk(setup, w) && HasWork(w, p, t)
    ensures WorkOk(setup, Of(w), w.processors[p].inflight[t])
    ensures ExactlyOnce(w.db) && LeasesOk(w.leases, w.db) && FromLog(setup, w.db)
  {
  }

  lemma AttemptEffect(setup: Setup, d: Durable, event: Event, source: Coordinate, trouble: TransactionFault)
    requires ExactlyOnce(d.db)
    requires trouble.NoFault? || !trouble.reply.Stored?
    ensures var (db, reply) := Attempt(d.db, event, source, trouble);
            && Grows(d, Durable(db, d.dlq))
            && (reply.Stored? ==> Recorded(db, event))
            && (FindEvent(d.db.ledger, event.id).Some? ==> db == d.db)
            && (db != d.db ==> db.ledger == d.db.ledger + [Entry(event, source)])
  {
    PersistEffect(d.db, event, source);
  }

  lemma AfterPersistOk(setup: Setup, d: Durable, source: Coordinate, phase: P.Phase, reply: P.PersistReply)
    requires phase.Persisting? && WorkOk(setup, d, Work(source, phase))
    requires reply.Stored? ==> Recorded(d.db, phase.event)
    ensures var next := P.AfterPersist(setup.maximumAttempts, phase.event, phase.recovering, phase.attempt, reply);
            next.Raised? || WorkOk(setup, d, Work(source, next))
  {
  }

  /** The phase a worker's step leads to. */
  function PhaseAfter(setup: Setup, w: World, step: Step): P.Phase
    requires Enabled(w, step) && IsWorker(step)
  {
    var Work(source, phase) := w.processors[step.p].inflight[step.token];
    match step
    case Validate(_, _) => P.AfterValidation(match setup.log(source) case WellFormed(e) => Some(e) case Malformed => None)
    case Reserve(_, _, fault) => P.AfterReserve(phase.event, ReserveReply(w.leases, phase.event, fault))
    case Transact(_, _, trouble) =>
      P.AfterPersist(setup.maximumAttempts, phase.event, phase.recovering, phase.attempt,
                     Attempt(w.db, phase.event, source, trouble).1)
    case Release(_, _, _) => P.AfterRelease(phase.attempts)
    case Complete(_, t, fault) => P.AfterComplete(phase.attempts, CompleteReply(w.leases, phase.event, t, fault))
    case Publish(_, _, fault) => P.AfterPublish(phase.attempts, fault == Sound)
  }

  lemma WorkerMoves(setup: Setup, w: World, step: Step)
    requires Enabled(w, step) && IsWorker(step)
    ensures Moves(w, Next(setup, w, step), step.p, step.token, PhaseAfter(setup, w, step))
    ensures step.Publish? || Next(setup, w, step).dlq == w.dlq
    ensures step.Transact? || Next(setup, w, step).db == w.db
  {
    hide Settle, Attempt, ReserveReply, ReservedLeases, ReleasedLeases, CompletedLeases, CompleteReply;
  }

  lemma TransactKeeps(setup: Setup, w: World, step: Step)
    requires RecordsOk(setup, w) && Enabled(w, step) && step.Transact?
    ensures RecordsOk(setup, Next(setup, w, step)) && Grows(Of(w), Of(Next(setup, w, step)))
  {
    hide RecordsOk, Attempt, WorkOk, ExactlyOnce, Moves, Settle;
    WorkIsOk(setup, w, step.p, step.token);
    WorkerMoves(setup, w, step);
    var Work(source, phase) := w.processors[step.p].inflight[step.token];
    var (db, reply) := Attempt(w.db, phase.event, source, step.trouble);
    var w' := Next(setup, w, step);
    AttemptEffect(setup, Of(w), phase.event, source, step.trouble);
    MarkersStay(w.leases, Of(w), Of(w'));
    SourceInLog(setup, Of(w), Work(source, phase));
    assert FromLog(setup, db);
    WorkOkStays(setup, Of(w), Of(w'), Work(source, phase));
    AfterPersistOk(setup, Of(w'), source, phase, reply);
    MoveKeeps(setup, w, w', step.p, step.token, PhaseAfter(setup, w, step));
  }

  lemma SourceInLog(setup: Setup, d: Durable, work: Work)
    requires WorkOk(setup, d, work) && work.phase.Persisting?
    ensures setup.log(work.source) == WellFormed(work.phase.event)
  {
  }

  lemma WorkerKeeps(setup: Setup, w: World, step: Step)
    requires RecordsOk(setup, w) && Enabled(w, step) && IsWorker(step) && !step.Transact?
    ensures RecordsOk(setup, Next(setup, w, step)) && Grows(Of(w), Of(Next(setup, w, step)))
  {
    hide RecordsOk, ExactlyOnce, FromLog, Moves, Settle, OnlyBy, LeasesOk, FindEvent;
    hide ReservedLeases, ReleasedLeases, CompletedLeases;
    WorkIsOk(setup, w, step.p, step.token);
    WorkerMoves(setup, w, step);
    var phase := w.processors[step.p].inflight[step.token].phase;
    SameLeases(step.token, w.leases);
    if step.Reserve? || step.Release? || step.Complete? { LeaseSteps(w, phase.event, step.token, step.fault); }
    LeaseSettles(setup, w, step);
    MoveKeeps(setup, w, Next(setup, w, step), step.p, step.token, PhaseAfter(setup, w, step));
  }

  lemma SameLeases(token: Token, leases: map<Id, Lease>)
    ensures OnlyBy(token, leases, leases)
  {
  }

  lemma LeaseSettles(setup: Setup, w: World, step: Step)
    requires Enabled(w, step) && IsWorker(step) && !step.Transact? && LeasesOk(w.leases, w.db)
    requires WorkOk(setup, Of(w), w.processors[step.p].inflight[step.token])
    ensures var phase := PhaseAfter(setup, w, step);
            phase.Returned? || phase.Raised? ||
            WorkOk(setup, Of(Next(setup, w, step)), Work(w.processors[step.p].inflight[step.token].source, phase))
  {
    hide FindEvent, Settle, ReservedLeases, ReleasedLeases, CompletedLeases;
  }

  // ----- whole runs -----

  lemma StepKeepsRecords(setup: Setup, w: World, step: Step)
    requires RecordsOk(setup, w) && Enabled(w, step)
    ensures RecordsOk(setup, Next(setup, w, step)) && Grows(Of(w), Of(Next(setup, w, step)))
  {
    hide RecordsOk, Next, Enabled, Fewer;
    if step.Transact? {
      TransactKeeps(setup, w, step);
    } else if IsWorker(step) {
      WorkerKeeps(setup, w, step);
    } else {
      if step.Poll? {
        PollKeeps(setup, w, step);
      } else {
        RestFewer(setup, w, step);
        FewerKeeps(setup, w, Next(setup, w, step));
      }
      SameDurable(setup, w, step);
    }
  }

  lemma SameDurable(setup: Setup, w: World, step: Step)
    requires RecordsOk(setup, w) && Enabled(w, step) && !IsWorker(step)
    ensures Grows(Of(w), Of(Next(setup, w, step)))
  {
    hide ExactlyOnce;
    if !step.Poll? {
      hide Next;
      RestFewer(setup, w, step);
    }
  }

  lemma InitIsOk(setup: Setup)
    ensures RecordsOk(setup, INIT)
  {
    assert Events(NO_TABLES.ledger) == [];
  }

  lemma {:induction false} RunKeepsRecords(setup: Setup, w: World, steps: seq<Step>)
    requires RecordsOk(setup, w) && Legal(setup, w, steps)
    ensures RecordsOk(setup, Pipeline.Run(setup, w, steps)) && Grows(Of(w), Of(Pipeline.Run(setup, w, steps)))
    decreases |steps|
  {
    hide RecordsOk, Next, ExactlyOnce, Enabled;
    if steps != [] {
      StepKeepsRecords(setup, w, steps[0]);
      RunKeepsRecords(setup, Next(setup, w, steps[0]), steps[1..]);
    } else {
      OnceOk(setup, w);
    }
  }

  lemma OnceOk(setup: Setup, w: World)
    requires RecordsOk(setup, w)
    ensures ExactlyOnce(w.db)
  {
  }

  /**
   Exactly-once effect: in every run, stale completions and overlapping owners included, the
   tables are the fold of the handlers over the ledger, no event id or coordinate is in it twice,
   and rows are only ever added.
   */
  lemma ExactlyOnceAlways(setup: Setup, steps: seq<Step>, more: seq<Step>)
    requires Legal(setup, INIT, steps) && Legal(setup, Pipeline.Run(setup, INIT, steps), more)
    ensures var w := Pipeline.Run(setup, INIT, steps);
            ExactlyOnce(w.db) && w.db.ledger <= Pipeline.Run(setup, w, more).db.ledger
  {
    hide RecordsOk, ExactlyOnce;
    InitIsOk(setup);
    RunKeepsRecords(setup, INIT, steps);
    RunKeepsRecords(setup, Pipeline.Run(setup, INIT, steps), more);
  }

  /** What the producers' contract asks of a log. */
  ghost predicate WellTyped(setup: Setup) {
    forall c :: setup.log(c).WellFormed? ==> Schema(setup.log(c).event.payload)
  }

  /**
   In every reachable state the commerce tables satisfy all their invariants and no payment is
   refunded beyond its amount, whatever crashed, was redelivered or was processed twice.
   */
  lemma TablesAreAlwaysGood(setup: Setup, steps: seq<Step>)
    requires WellTyped(setup) && Legal(setup, INIT, steps)
    ensures var db := Pipeline.Run(setup, INIT, steps).db;
            && Good(db.store)
            && forall p :: 0 <= RefundsGranted(Events(db.ledger), p) <= AmountPaid(Events(db.ledger), p)
  {
    hide ExactlyOnce, Good, Schema;
    InitIsOk(setup);
    RunKeepsRecords(setup, INIT, steps);
    ExactlyOnceIsGood(Pipeline.Run(setup, INIT, steps).db);
  }
}
