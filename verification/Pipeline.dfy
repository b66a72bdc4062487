/**
 The whole pipeline as a step system: any number of processors, single-threaded or pooled, over
 one Kafka log, one Redis, one PostgreSQL database and one dead-letter topic. Crashes, lease
 expiry, rebalances, redelivery, refused commits, and remote calls that fail before or after
 taking effect are steps of the environment. Partition ownership may overlap between
 processors: nothing below needs it to be exclusive.
 */
module Pipeline {
  import opened Prelude
  import opened Commerce
  import opened TrackerSpec
  import opened Ledger
  import P = RecordProtocol
  import F = Frontier

  type ProcessorId = nat
  type Token = nat

  /** The verdict of `validate_message` on a record. */
  datatype Record = WellFormed(event: Event) | Malformed

  datatype Setup = Setup(
    log: Coordinate -> Record,
    origin: PartitionKey -> int,  // where a group without a committed offset starts
    maximumAttempts: nat,
    commits: Config)

  datatype Lease = Held(token: Token) | CompletedMarker

  datatype Work = Work(source: Coordinate, phase: P.Phase)

  datatype Processor = Processor(
    pooled: bool,
    running: bool,
    tracker: Tracker,
    revoked: set<PartitionKey>,
    positions: map<PartitionKey, int>,  // assigned partitions and the next offset to fetch
    inflight: map<Token, Work>,
    queue: seq<Coordinate>)             // completions a pooled worker handed to the poll thread

  datatype World = World(
    committed: map<PartitionKey, int>,
    leases: map<Id, Lease>,
    db: Database,
    dlq: set<Coordinate>,
    processors: map<ProcessorId, Processor>,
    nextToken: Token)

  /** How a remote call may go wrong: before taking effect, or after, with the answer lost. */
  datatype Fault = Sound | NotApplied | AnswerLost

  /** A lost answer to COMMIT reaches the processor as whatever its error is classified as. */
  datatype TransactionFault = NoFault | RolledBack(reply: P.PersistReply) | CommitAnswerLost(reply: P.PersistReply)

  datatype Step =
    | Start(p: ProcessorId, pooled: bool, now: real)
    | Crash(p: ProcessorId)
    | Stop(p: ProcessorId)
    | Assign(p: ProcessorId, key: PartitionKey)
    | Revoke(p: ProcessorId, keys: set<PartitionKey>, accept: bool, now: real)
    | Poll(p: ProcessorId, key: PartitionKey)
    | Validate(p: ProcessorId, token: Token)
    | Reserve(p: ProcessorId, token: Token, fault: Fault)
    | Transact(p: ProcessorId, token: Token, trouble: TransactionFault)
    | Release(p: ProcessorId, token: Token, fault: Fault)
    | Complete(p: ProcessorId, token: Token, fault: Fault)
    | Publish(p: ProcessorId, token: Token, fault: Fault)
    | Finish(p: ProcessorId, token: Token, accept: bool, now: real)
    | Drain(p: ProcessorId, accept: bool, now: real)
    | Idle(p: ProcessorId, accept: bool, now: real)
    | Shutdown(p: ProcessorId, accept: bool, now: real)
    | Expire(event: Id)

  const NO_TABLES := Database([], EMPTY)

  const INIT := World(map[], map[], NO_TABLES, {}, map[], 0)

  // ----- one step -----

  predicate HasWork(w: World, p: ProcessorId, token: Token) {
    p in w.processors && token in w.processors[p].inflight
  }

  function Phase(w: World, p: ProcessorId, token: Token): P.Phase
    requires HasWork(w, p, token)
  {
    w.processors[p].inflight[token].phase
  }

  predicate Enabled(w: World, step: Step) {
    match step
    case Start(p, _, _) => p !in w.processors
    case Crash(p) => p in w.processors
    case Stop(p) => p in w.processors
    // rebalance callbacks run inside poll(), so the single-threaded loop has nothing in flight
    case Assign(p, key) =>
      && p in w.processors && key !in w.processors[p].positions
      && (w.processors[p].pooled || w.processors[p].inflight == map[])
    case Revoke(p, keys, _, _) =>
      && p in w.processors && (w.processors[p].pooled || w.processors[p].inflight == map[])
    case Poll(p, key) =>
      && p in w.processors && w.processors[p].running && key in w.processors[p].positions
      && (w.processors[p].pooled || w.processors[p].inflight == map[])
    case Validate(p, t) => HasWork(w, p, t) && Phase(w, p, t).Validating?
    case Reserve(p, t, _) => HasWork(w, p, t) && Phase(w, p, t).Reserving?
    case Transact(p, t, trouble) =>
      && HasWork(w, p, t) && Phase(w, p, t).Persisting?
      && (trouble.NoFault? || !trouble.reply.Stored?)
    case Release(p, t, _) => HasWork(w, p, t) && Phase(w, p, t).Releasing?
    case Complete(p, t, _) => HasWork(w, p, t) && Phase(w, p, t).Completing?
    case Publish(p, t, _) => HasWork(w, p, t) && Phase(w, p, t).DeadLettering?
    case Finish(p, t, _, _) => HasWork(w, p, t) && Phase(w, p, t).Committing?
    case Drain(p, _, _) => p in w.processors && w.processors[p].pooled && w.processors[p].queue != []
    case Idle(p, _, _) => p in w.processors && (w.processors[p].pooled || w.processors[p].inflight == map[])
    case Shutdown(p, _, _) => p in w.processors
    case Expire(event) => event in w.leases
  }

  /** Store the record's next phase; a single-threaded loop stops on a non-terminal outcome. */
  function Settle(q: Processor, token: Token, source: Coordinate, phase: P.Phase): Processor {
    match phase
    case Returned(status, _) =>
      q.(inflight := q.inflight - {token}, running := q.running && (q.pooled || status != P.Unresolved))
    case Raised => q.(inflight := q.inflight - {token}, running := q.running && q.pooled)
    case _ => q.(inflight := q.inflight[token := Work(source, phase)])
  }

  function Install(w: World, p: ProcessorId, q: Processor): World {
    w.(processors := w.processors[p := q])
  }

  function ReserveReply(leases: map<Id, Lease>, event: Event, fault: Fault): P.ReserveReply {
    if fault != Sound then P.ReserveUnavailable
    else if event.id !in leases then P.Reserved
    else if leases[event.id] == CompletedMarker then P.FoundCompleted
    else P.FoundProcessing
  }

  function ReservedLeases(leases: map<Id, Lease>, event: Event, token: Token, fault: Fault): map<Id, Lease> {
    if fault == NotApplied || event.id in leases then leases else leases[event.id := Held(token)]
  }

  predicate Owns(leases: map<Id, Lease>, event: Event, token: Token) {
    event.id in leases && leases[event.id] == Held(token)
  }

  function ReleasedLeases(leases: map<Id, Lease>, event: Event, token: Token, fault: Fault): map<Id, Lease> {
    if fault != NotApplied && Owns(leases, event, token) then leases - {event.id} else leases
  }

  function CompletedLeases(leases: map<Id, Lease>, event: Event, token: Token, fault: Fault): map<Id, Lease> {
    if fault != NotApplied && Owns(leases, event, token) then leases[event.id := CompletedMarker] else leases
  }

  function CompleteReply(leases: map<Id, Lease>, event: Event, token: Token, fault: Fault): P.CompleteReply {
    if fault != Sound then P.CompleteUnavailable
    else if Owns(leases, event, token) then P.Owned
    else P.TokenMismatch
  }

  function PersistReply(result: PersistResult): P.PersistReply {
    match result
    case Committed => P.Stored(false)
    case AlreadyPersisted => P.Stored(true)
    case Refused(why) => if why == MissingDependency then P.Retryable else P.Permanent
  }

  /** The database after an attempt, and what the processor hears. */
  function Attempt(db: Database, event: Event, source: Coordinate, trouble: TransactionFault): (Database, P.PersistReply) {
    match trouble
    case NoFault => var (db', r) := Persist(db, event, source); (db', PersistReply(r))
    case RolledBack(reply) => (db, reply)
    case CommitAnswerLost(reply) => (Persist(db, event, source).0, reply)
  }

  function Begin(setup: Setup, w: World, key: PartitionKey): int {
    if key in w.committed then w.committed[key] else setup.origin(key)
  }

  /** Apply a flush: Kafka takes what was published, the processor keeps the tracker. */
  function Flushing(w: World, p: ProcessorId, q: Processor, f: Flushed): World {
    Install(w, p, q.(tracker := f.tracker)).(committed := w.committed + f.published)
  }

  function PollOne(setup: Setup, w: World, p: ProcessorId, key: PartitionKey): World
    requires Enabled(w, Poll(p, key))
  {
    var q := w.processors[p];
    var offset := q.positions[key];
    var tracker := if q.pooled then Observe(q.tracker, key, offset) else q.tracker;
    Install(w, p, q.(
      tracker := tracker,
      positions := q.positions[key := offset + 1],
      inflight := q.inflight[w.nextToken := Work(Coordinate(key, offset), P.Validating)]))
      .(nextToken := w.nextToken + 1)
  }

  /** `_commit`: directly in the loop, or through the pooled completion queue. */
  function FinishOne(setup: Setup, w: World, p: ProcessorId, token: Token, accept: bool, now: real): World
    requires Enabled(w, Finish(p, token, accept, now))
  {
    var q := w.processors[p];
    var Work(source, phase) := q.inflight[token];
    if q.pooled then
      Install(w, p, Settle(q.(queue := q.queue + [source]), token, source, P.Returned(phase.status, phase.attempts)))
    else if source.key in q.revoked then
      Install(w, p, Settle(q, token, source, P.AfterCommit(phase.status, phase.attempts, false)))
    else
      var f := CommitTerminal(setup.commits, q.tracker, source.key, source.offset, accept, now);
      Flushing(w, p, Settle(q, token, source, P.AfterCommit(phase.status, phase.attempts, !f.raised)), f)
  }

  /** One completion leaves the queue; a failure here ends the poll loop. */
  function DrainOne(setup: Setup, w: World, p: ProcessorId, accept: bool, now: real): World
    requires Enabled(w, Drain(p, accept, now))
  {
    var q := w.processors[p];
    var source := q.queue[0];
    var rest := q.(queue := q.queue[1..]);
    if source.key in q.revoked then Install(w, p, rest.(running := false))
    else
      var f := CommitTerminal(setup.commits, q.tracker, source.key, source.offset, accept, now);
      Flushing(w, p, rest.(running := q.running && !f.raised), f)
  }

  /** `on_revoke`: flush exactly these partitions, forget them whatever the answer was. */
  function RevokeKeys(w: World, p: ProcessorId, keys: set<PartitionKey>, accept: bool, now: real): World
    requires p in w.processors
  {
    var q := w.processors[p];
    var f := Flush(q.tracker, Some(keys), accept, now);
    Flushing(w, p, q.(revoked := q.revoked + keys, positions := q.positions - keys),
             f.(tracker := Drop(f.tracker, keys)))
  }

  function Next(setup: Setup, w: World, step: Step): World
    requires Enabled(w, step)
  {
    match step
    case Start(p, pooled, now) => Install(w, p, Processor(pooled, true, Init(now), {}, map[], map[], []))
    case Crash(p) => w.(processors := w.processors - {p})
    case Stop(p) => Install(w, p, w.processors[p].(running := false))
    case Assign(p, key) =>
      var q := w.processors[p];
      Install(w, p, q.(revoked := q.revoked - {key}, positions := q.positions[key := Begin(setup, w, key)]))
    case Revoke(p, keys, accept, now) => RevokeKeys(w, p, keys, accept, now)
    case Poll(p, key) => PollOne(setup, w, p, key)
    case Validate(p, t) =>
      var source := w.processors[p].inflight[t].source;
      var event := match setup.log(source) case WellFormed(e) => Some(e) case Malformed => None;
      Install(w, p, Settle(w.processors[p], t, source, P.AfterValidation(event)))
    case Reserve(p, t, fault) =>
      var Work(source, phase) := w.processors[p].inflight[t];
      Install(w, p, Settle(w.processors[p], t, source, P.AfterReserve(phase.event, ReserveReply(w.leases, phase.event, fault))))
        .(leases := ReservedLeases(w.leases, phase.event, t, fault))
    case Transact(p, t, trouble) =>
      var Work(source, phase) := w.processors[p].inflight[t];
      var (db, reply) := Attempt(w.db, phase.event, source, trouble);
      Install(w, p, Settle(w.processors[p], t, source,
        P.AfterPersist(setup.maximumAttempts, phase.event, phase.recovering, phase.attempt, reply))).(db := db)
    case Release(p, t, fault) =>
      var Work(source, phase) := w.processors[p].inflight[t];
      Install(w, p, Settle(w.processors[p], t, source, P.AfterRelease(phase.attempts)))
        .(leases := ReleasedLeases(w.leases, phase.event, t, fault))
    case Complete(p, t, fault) =>
      var Work(source, phase) := w.processors[p].inflight[t];
      Install(w, p, Settle(w.processors[p], t, source, P.AfterComplete(phase.attempts, CompleteReply(w.leases, phase.event, t, fault))))
        .(leases := CompletedLeases(w.leases, phase.event, t, fault))
    case Publish(p, t, fault) =>
      var Work(source, phase) := w.processors[p].inflight[t];
      Install(w, p, Settle(w.processors[p], t, source, P.AfterPublish(phase.attempts, fault == Sound)))
        .(dlq := if fault == NotApplied then w.dlq else w.dlq + {source})
    case Finish(p, t, accept, now) => FinishOne(setup, w, p, t, accept, now)
    case Drain(p, accept, now) => DrainOne(setup, w, p, accept, now)
    case Idle(p, accept, now) =>
      var q := w.processors[p];
      var f := MaybeFlush(setup.commits, q.tracker, accept, now);
      Flushing(w, p, q.(running := q.running && !f.raised), f)
    case Shutdown(p, accept, now) =>
      // a clean shutdown has waited for the workers; an exception may leave work in flight
      Flushing(w, p, w.processors[p].(running := false), Flush(w.processors[p].tracker, None, accept, now))
    case Expire(event) => w.(leases := w.leases - {event})
  }

  // ----- runs -----

  /**
   A completion of an earlier ownership epoch: the poll thread would record it for a partition
   whose tracker state was dropped and that has had no dispatch since.
   */
  predicate StaleDrain(w: World, step: Step) {
    && step.Drain? && Enabled(w, step)
    && var q := w.processors[step.p];
       q.queue[0].key !in q.revoked && q.queue[0].key !in q.tracker.parts
  }

  ghost predicate Legal(setup: Setup, w: World, steps: seq<Step>)
    decreases |steps|
  {
    steps == [] || (Enabled(w, steps[0]) && Legal(setup, Next(setup, w, steps[0]), steps[1..]))
  }

  /**
   A stale completion ahead of the next offset to be delivered. The poll thread could tell: it
   compares the completed offset with its own position in the partition.
   */
  predicate Overtakes(w: World, step: Step) {
    && StaleDrain(w, step)
    && var q := w.processors[step.p];
       q.queue[0].key in q.positions ==> q.positions[q.queue[0].key] < q.queue[0].offset
  }

  ghost predicate NoneOvertakes(setup: Setup, w: World, steps: seq<Step>)
    requires Legal(setup, w, steps)
    decreases |steps|
  {
    steps == [] || (!Overtakes(w, steps[0]) && NoneOvertakes(setup, Next(setup, w, steps[0]), steps[1..]))
  }

  ghost function Run(setup: Setup, w: World, steps: seq<Step>): World
    requires Legal(setup, w, steps)
    decreases |steps|
  {
    if steps == [] then w else Run(setup, Next(setup, w, steps[0]), steps[1..])
  }
}
