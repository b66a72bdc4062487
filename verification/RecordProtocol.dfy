/**
 The control flow of `MessageProcessor.process` for one record: validate, lease, one
 transaction with bounded retry, completion, dead letter, offset. Each function says where the
 record goes after one remote call has answered.
 */
module RecordProtocol {
  import opened Prelude
  import opened Commerce

  datatype Status = Processed | Duplicate | DeadLettered | Unresolved

  datatype Phase =
    | Validating
    | Reserving(event: Event)
    | Persisting(event: Event, recovering: bool, attempt: nat)
    | Releasing(event: Event, attempts: nat)
    | Completing(event: Event, attempts: nat)
    | DeadLettering(attempts: nat)
    | Committing(status: Status, attempts: nat)
    | Returned(status: Status, attempts: nat)
    | Raised

  datatype ReserveReply = Reserved | FoundCompleted | FoundProcessing | ReserveUnavailable

  /** `Stored` is a returned result; the others are the exception classes of errors.py. */
  datatype PersistReply = Stored(already: bool) | Permanent | Retryable | Unclassified

  datatype CompleteReply = Owned | TokenMismatch | CompleteUnavailable

  function AfterValidation(event: Option<Event>): Phase {
    if event.None? then DeadLettering(1) else Reserving(event.value)
  }

  function AfterReserve(event: Event, reply: ReserveReply): Phase {
    match reply
    case Reserved => Persisting(event, false, 1)
    case FoundCompleted => Persisting(event, true, 1)
    case FoundProcessing => Returned(Unresolved, 1)
    case ReserveUnavailable => Returned(Unresolved, 1)
  }

  /** `recovering` is the completed-marker branch: no lease is held, so none is released. */
  function AfterPersist(maximum: nat, event: Event, recovering: bool, attempt: nat, reply: PersistReply): Phase {
    match reply
    case Stored(_) => if recovering then Committing(Duplicate, 1) else Completing(event, attempt)
    case Permanent => if recovering then DeadLettering(1) else Releasing(event, 1)
    case Retryable =>
      if attempt < maximum then Persisting(event, recovering, attempt + 1)
      else if recovering then DeadLettering(maximum)
      else Releasing(event, maximum)
    case Unclassified => Raised
  }

  function AfterRelease(attempts: nat): Phase { DeadLettering(attempts) }

  function AfterComplete(attempts: nat, reply: CompleteReply): Phase {
    if reply == Owned then Committing(Processed, attempts) else Returned(Unresolved, attempts)
  }

  function AfterPublish(attempts: nat, delivered: bool): Phase {
    if delivered then Committing(DeadLettered, attempts) else Returned(Unresolved, attempts)
  }

  function AfterCommit(status: Status, attempts: nat, accepted: bool): Phase {
    if accepted then Returned(status, attempts) else Raised
  }

  // ----- one record from start to end -----

  /** What the remote parties answer during one `process` call. */
  datatype Replies = Replies(
    validation: Option<Event>,
    reserve: ReserveReply,
    transactions: seq<PersistReply>,  // one for each attempt; an attempt beyond them fails transiently
    released: bool,  // whether `release` answered at all
    complete: CompleteReply,
    delivered: bool,
    accepted: bool)

  function PersistAt(r: Replies, attempt: nat): PersistReply {
    if 0 < attempt <= |r.transactions| then r.transactions[attempt - 1] else Retryable
  }

  function Stage(phase: Phase): nat {
    match phase
    case Validating => 6
    case Reserving(_) => 5
    case Persisting(_, _, _) => 4
    case Releasing(_, _) => 3
    case Completing(_, _) => 3
    case DeadLettering(_) => 2
    case Committing(_, _) => 1
    case _ => 0
  }

  /** Where a record ends when it is in `phase` and the answers are `r`. */
  function Drive(maximum: nat, r: Replies, phase: Phase): (end: Phase)
    ensures end.Returned? || end.Raised?
    decreases Stage(phase), if phase.Persisting? && phase.attempt < maximum then maximum - phase.attempt else 0
  {
    match phase
    case Validating => Drive(maximum, r, AfterValidation(r.validation))
    case Reserving(e) => Drive(maximum, r, AfterReserve(e, r.reserve))
    case Persisting(e, recovering, a) => Drive(maximum, r, AfterPersist(maximum, e, recovering, a, PersistAt(r, a)))
    case Releasing(_, a) => Drive(maximum, r, AfterRelease(a))
    case Completing(_, a) => Drive(maximum, r, AfterComplete(a, r.complete))
    case DeadLettering(a) => Drive(maximum, r, AfterPublish(a, r.delivered))
    case Committing(status, a) => Drive(maximum, r, AfterCommit(status, a, r.accepted))
    case _ => phase
  }

  /** Where a record ends once it is to be committed with `status`. */
  function Acknowledged(status: Status, attempts: nat, r: Replies): Phase {
    if r.accepted then Returned(status, attempts) else Raised
  }

  function GivenUp(attempts: nat, r: Replies): Phase {
    if r.delivered then Acknowledged(DeadLettered, attempts, r) else Returned(Unresolved, attempts)
  }

  function Finalized(attempts: nat, r: Replies): Phase {
    if r.complete == Owned then Acknowledged(Processed, attempts, r) else Returned(Unresolved, attempts)
  }

  /** The tail of the protocol in closed form. */
  lemma DriveTail(maximum: nat, r: Replies, status: Status, attempts: nat)
    ensures Drive(maximum, r, Committing(status, attempts)) == Acknowledged(status, attempts, r)
    ensures Drive(maximum, r, DeadLettering(attempts)) == GivenUp(attempts, r)
    ensures forall e :: Drive(maximum, r, Releasing(e, attempts)) == GivenUp(attempts, r)
    ensures forall e :: Drive(maximum, r, Completing(e, attempts)) == Finalized(attempts, r)
    ensures Drive(maximum, r, Returned(status, attempts)) == Returned(status, attempts)
    ensures Drive(maximum, r, Raised) == Raised
  {
    assert Drive(maximum, r, Committing(status, attempts)) == Acknowledged(status, attempts, r);
    assert Drive(maximum, r, Committing(DeadLettered, attempts)) == Acknowledged(DeadLettered, attempts, r);
    assert Drive(maximum, r, Committing(Processed, attempts)) == Acknowledged(Processed, attempts, r);
    assert Drive(maximum, r, DeadLettering(attempts)) == GivenUp(attempts, r);
  }

  lemma DriveHead(maximum: nat, r: Replies)
    ensures Drive(maximum, r, Validating) ==
            if r.validation.None? then GivenUp(1, r)
            else Drive(maximum, r, AfterReserve(r.validation.value, r.reserve))
  {
    if r.validation.Some? {
      assert Drive(maximum, r, Validating) == Drive(maximum, r, Reserving(r.validation.value));
    } else {
      assert Drive(maximum, r, Validating) == Drive(maximum, r, DeadLettering(1));
      DriveTail(maximum, r, DeadLettered, 1);
    }
  }

  /** The attempt that ends the retry loop: the first that is not retryable, or the last. */
  function LastAttempt(maximum: nat, r: Replies, attempt: nat): (k: nat)
    requires attempt <= maximum
    ensures attempt <= k <= maximum
    ensures PersistAt(r, k) == Retryable ==> k == maximum
    ensures forall j: nat :: attempt <= j < k ==> PersistAt(r, j) == Retryable
    decreases maximum - attempt
  {
    if PersistAt(r, attempt) != Retryable || attempt == maximum then attempt else LastAttempt(maximum, r, attempt + 1)
  }

  lemma {:induction false} RetriesUntilLast(maximum: nat, r: Replies, e: Event, recovering: bool, attempt: nat)
    requires attempt <= maximum
    ensures var k := LastAttempt(maximum, r, attempt);
            Drive(maximum, r, Persisting(e, recovering, attempt)) ==
            Drive(maximum, r, AfterPersist(maximum, e, recovering, k, PersistAt(r, k)))
    decreases maximum - attempt
  {
    if PersistAt(r, attempt) == Retryable && attempt < maximum {
      RetriesUntilLast(maximum, r, e, recovering, attempt + 1);
    }
  }

  // ----- which records end where -----

  /** The record reaches the transaction, and this is the answer that ends its retry loop. */
  predicate Settled(maximum: nat, r: Replies, reply: PersistReply)
    requires maximum > 0
  {
    && r.validation.Some? && (r.reserve == Reserved || r.reserve == FoundCompleted)
    && reply == PersistAt(r, LastAttempt(maximum, r, 1))
  }

  /** Only these records may be dead-lettered: invalid ones, and those the transaction refused for good or too often. */
  predicate Condemned(maximum: nat, r: Replies)
    requires maximum > 0
  {
    r.validation.None? || Settled(maximum, r, Permanent) || Settled(maximum, r, Retryable)
  }

  predicate IsStored(maximum: nat, r: Replies)
    requires maximum > 0
  {
    Settled(maximum, r, Stored(true)) || Settled(maximum, r, Stored(false))
  }

  /** Another worker holds the lease, or Redis does not answer: the record is left for later. */
  predicate LeftAlone(r: Replies) {
    r.validation.Some? && (r.reserve == FoundProcessing || r.reserve == ReserveUnavailable)
  }

  /** The attempts an outcome reports: those of the transaction when they matter, else one. */
  function AttemptsOf(maximum: nat, r: Replies): nat
    requires maximum > 0
  {
    if Settled(maximum, r, Retryable) then maximum
    else if IsStored(maximum, r) && r.reserve == Reserved then LastAttempt(maximum, r, 1)
    else 1
  }

  /** What sends a record to each end, on the terms of the answers. */
  ghost predicate EndsAs(maximum: nat, r: Replies, end: Phase)
    requires maximum > 0
  {
    var stored, condemned := IsStored(maximum, r), Condemned(maximum, r);
    var owned := stored && r.reserve == Reserved && r.complete == Owned;
    var duplicate := stored && r.reserve == FoundCompleted;
    && (LeftAlone(r) ==> end == Returned(Unresolved, 1))
    && (end.Returned? && end.status == Processed <==> owned && r.accepted)
    && (end.Returned? && end.status == Duplicate <==> duplicate && r.accepted)
    && (end.Returned? && end.status == DeadLettered <==> condemned && r.delivered && r.accepted)
    && (end.Returned? && end.status == Unresolved <==>
          LeftAlone(r) || (condemned && !r.delivered) || (stored && r.reserve == Reserved && r.complete != Owned))
    && (end.Raised? <==> Settled(maximum, r, Unclassified) || ((owned || duplicate || (condemned && r.delivered)) && !r.accepted))
    && (end.Returned? ==> end.attempts == AttemptsOf(maximum, r))
  }

  lemma Endings(maximum: nat, r: Replies)
    requires maximum > 0
    ensures EndsAs(maximum, r, Drive(maximum, r, Validating))
  {
    hide Drive, LastAttempt;
    DriveHead(maximum, r);
    DriveTail(maximum, r, Unresolved, 1);
    DriveTail(maximum, r, Duplicate, 1);
    DriveTail(maximum, r, Duplicate, maximum);
    DriveTail(maximum, r, Processed, LastAttempt(maximum, r, 1));
    if r.validation.Some? && (r.reserve == Reserved || r.reserve == FoundCompleted) {
      RetriesUntilLast(maximum, r, r.validation.value, r.reserve == FoundCompleted, 1);
    }
  }
}
