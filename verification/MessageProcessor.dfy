/**
 `MessageProcessor.process` with its counters, and the merge of per-worker summaries. The
 remote parties' answers are the `Replies` of one call; the method is proved to follow the
 record protocol and to keep the books of `RunSummary`.
 */
module MessageProcessor {
  import opened Prelude
  import opened Commerce
  import opened RecordProtocol

  datatype Counts = Counts(
    consumed: nat, valid: nat, processed: nat, duplicate: nat, dlq: nat, unresolved: nat,
    retries: nat, retryExhausted: nat, processingFailures: nat, redisErrors: nat,
    commitSuccesses: nat, commitFailures: nat,
    started: nat, committed: nat, rolledBack: nat, alreadyPersisted: nat)

  const ZERO := Counts(0, 0, 0, 0, 0, 0, 0, 0, 0, 0, 0, 0, 0, 0, 0, 0)

  /**
   The three conservation equations. `escaped` counts calls ended by an exception outside the
   error taxonomy; `uncounted` counts completed-marker recoveries found already persisted whose
   offset commit then raised.
   */
  ghost predicate Balanced(c: Counts, escaped: nat, uncounted: nat) {
    && c.consumed == c.processed + c.duplicate + c.dlq + c.unresolved + escaped
    && c.commitSuccesses == c.processed + c.duplicate + c.dlq
    && c.started == c.committed + c.rolledBack + c.alreadyPersisted + uncounted
  }

  /** Whether the call reaches the transaction, and how its last attempt ends. */
  predicate Transacts(r: Replies) {
    r.validation.Some? && (r.reserve == Reserved || r.reserve == FoundCompleted)
  }

  predicate Escapes(maximum: nat, r: Replies)
    requires maximum > 0
  {
    Transacts(r) && PersistAt(r, LastAttempt(maximum, r, 1)) == Unclassified
  }

  predicate Uncounts(maximum: nat, r: Replies)
    requires maximum > 0
  {
    && r.validation.Some? && r.reserve == FoundCompleted
    && PersistAt(r, LastAttempt(maximum, r, 1)) == Stored(true) && !r.accepted
  }

  /** Only a raising offset commit leaves a transaction uncounted. */
  lemma UncountsRaises(maximum: nat, r: Replies)
    requires maximum > 0
    ensures Uncounts(maximum, r) ==> !r.accepted
  {
  }

  function Bit(b: bool): nat { if b then 1 else 0 }

  predicate Ended(end: Phase, status: Status) { end.Returned? && end.status == status }

  /** How many calls of a run end in an exception outside the taxonomy. */
  function Escapees(maximum: nat, rs: seq<Replies>): nat
    requires maximum > 0
  {
    if rs == [] then 0 else Escapees(maximum, rs[..|rs| - 1]) + Bit(Escapes(maximum, rs[|rs| - 1]))
  }

  /** How many calls of a run leave a transaction uncounted. */
  function Uncounted(maximum: nat, rs: seq<Replies>): nat
    requires maximum > 0
  {
    if rs == [] then 0 else Uncounted(maximum, rs[..|rs| - 1]) + Bit(Uncounts(maximum, rs[|rs| - 1]))
  }

  /** None do while no offset commit raises. */
  lemma {:induction false} NoneUncounted(maximum: nat, rs: seq<Replies>)
    requires maximum > 0 && forall i :: 0 <= i < |rs| ==> rs[i].accepted
    ensures Uncounted(maximum, rs) == 0
  {
    hide Uncounts;
    if rs != [] {
      NoneUncounted(maximum, rs[..|rs| - 1]);
      UncountsRaises(maximum, rs[|rs| - 1]);
    }
  }

  /** The answer that ends the retry loop, if the call gets that far. */
  function LastReply(maximum: nat, r: Replies): Option<PersistReply>
    requires maximum > 0
  {
    if Transacts(r) then Some(PersistAt(r, LastAttempt(maximum, r, 1))) else None
  }

  /** What one call adds to the summary, told from where its record ends and from the answers. */
  function Contribution(maximum: nat, r: Replies): Counts
    requires maximum > 0
  {
    var end, last := Drive(maximum, r, Validating), LastReply(maximum, r);
    var attempts := if last == None then 0 else LastAttempt(maximum, r, 1);
    var stored, failed := last.Some? && last.value.Stored?, r.reserve == Reserved && last in {Some(Permanent), Some(Retryable)};
    var refused := end.Raised? && last != Some(Unclassified);
    ZERO.(
      consumed := 1,
      valid := Bit(r.validation.Some?),
      processed := Bit(Ended(end, Processed)),
      duplicate := Bit(Ended(end, Duplicate)),
      dlq := Bit(Ended(end, DeadLettered)),
      unresolved := Bit(Ended(end, Unresolved) || refused),
      retries := attempts - Bit(last.Some?),
      retryExhausted := Bit(last == Some(Retryable)),
      processingFailures := Bit(failed),
      redisErrors := Bit(
        || (r.validation.Some? && r.reserve == ReserveUnavailable)
        || (failed && !r.released)
        || (stored && r.reserve == Reserved && r.complete != Owned)),
      commitSuccesses := Bit(end.Returned? && end.status != Unresolved),
      commitFailures := Bit(refused),
      started := attempts,
      committed := Bit(last == Some(Stored(false))),
      rolledBack := attempts - Bit(stored),
      alreadyPersisted := Bit(last == Some(Stored(true)) && !Uncounts(maximum, r)))
  }

  /** The call reaches the offset commit. */
  predicate Commits(maximum: nat, r: Replies)
    requires maximum > 0
  {
    || (IsStored(maximum, r) && (r.reserve == FoundCompleted || r.complete == Owned))
    || (Condemned(maximum, r) && r.delivered)
  }

  /** Every counter on the terms of the answers: one call adds one to it exactly in these cases. */
  ghost predicate CountsAs(maximum: nat, r: Replies, k: Counts)
    requires maximum > 0
  {
    var stored, condemned := IsStored(maximum, r), Condemned(maximum, r);
    var failed := Settled(maximum, r, Permanent) || Settled(maximum, r, Retryable);
    var attempts := if Transacts(r) then LastAttempt(maximum, r, 1) else 0;
    && k.consumed == 1 && k.valid == Bit(r.validation.Some?)
    && k.processed == Bit(stored && r.reserve == Reserved && r.complete == Owned && r.accepted)
    && k.duplicate == Bit(stored && r.reserve == FoundCompleted && r.accepted)
    && k.dlq == Bit(condemned && r.delivered && r.accepted)
    && k.unresolved == Bit(|| LeftAlone(r) || (condemned && !r.delivered) || (Commits(maximum, r) && !r.accepted)
                           || (stored && r.reserve == Reserved && r.complete != Owned))
    && k.commitSuccesses == Bit(Commits(maximum, r) && r.accepted)
    && k.commitFailures == Bit(Commits(maximum, r) && !r.accepted)
    && k.started == attempts && k.retries == Max(0, attempts - 1) && k.rolledBack == attempts - Bit(stored)
    && k.committed == Bit(Settled(maximum, r, Stored(false)))
    && k.alreadyPersisted == Bit(Settled(maximum, r, Stored(true)) && (r.reserve == Reserved || r.accepted))
    && k.retryExhausted == Bit(Settled(maximum, r, Retryable))
    && k.processingFailures == Bit(failed && r.reserve == Reserved)
    && k.redisErrors == Bit(|| (r.validation.Some? && r.reserve == ReserveUnavailable) || (failed && r.reserve == Reserved && !r.released)
                            || (stored && r.reserve == Reserved && r.complete != Owned))
  }

  lemma ContributionMeans(maximum: nat, r: Replies)
    requires maximum > 0
    ensures CountsAs(maximum, r, Contribution(maximum, r))
  {
    hide Drive, LastAttempt;
    Endings(maximum, r);
  }

  /** What the reserved branch adds, by the answer that ends its retry loop. */
  lemma ReservedContribution(maximum: nat, r: Replies)
    requires maximum > 0 && r.validation.Some? && r.reserve == Reserved
    ensures var end, attempts := Drive(maximum, r, Validating), LastAttempt(maximum, r, 1);
            var last := PersistAt(r, attempts);
            var failed := last == Permanent || last == Retryable;
            Contribution(maximum, r) == Counts(
              1, 1, Bit(Ended(end, Processed)), Bit(Ended(end, Duplicate)), Bit(Ended(end, DeadLettered)),
              Bit(Ended(end, Unresolved) || (end.Raised? && last != Unclassified)),
              attempts - 1, Bit(last == Retryable), Bit(failed), Bit((failed && !r.released) || (last.Stored? && r.complete != Owned)),
              Bit(end.Returned? && end.status != Unresolved), Bit(end.Raised? && last != Unclassified),
              attempts, Bit(last == Stored(false)), attempts - Bit(last.Stored?), Bit(last == Stored(true)))
  {
    hide Drive, LastAttempt;
  }

  /** What a run of calls adds up to. */
  function Tally(maximum: nat, rs: seq<Replies>): Counts
    requires maximum > 0
  {
    if rs == [] then ZERO else Plus(Tally(maximum, rs[..|rs| - 1]), Contribution(maximum, rs[|rs| - 1]))
  }

  lemma EscapesRaises(maximum: nat, r: Replies)
    requires maximum > 0 && Escapes(maximum, r)
    ensures Drive(maximum, r, Validating) == Raised
  {
    hide Drive, LastAttempt;
    DriveHead(maximum, r);
    RetriesUntilLast(maximum, r, r.validation.value, r.reserve == FoundCompleted, 1);
    DriveTail(maximum, r, Duplicate, 1);
  }

  lemma ContributionBalances(maximum: nat, r: Replies)
    requires maximum > 0
    ensures Balanced(Contribution(maximum, r), Bit(Escapes(maximum, r)), Bit(Uncounts(maximum, r)))
  {
    hide Drive, LastAttempt;
    if Escapes(maximum, r) { EscapesRaises(maximum, r); }
  }

  /**
   Over any run each equation holds with its own remainder: outcomes account for every record if
   and only if no exception escaped the error classes, and transactions are all accounted for if
   and only if no completed-marker recovery lost its count.
   */
  lemma {:induction false} TallyBalances(maximum: nat, rs: seq<Replies>)
    requires maximum > 0
    ensures Balanced(Tally(maximum, rs), Escapees(maximum, rs), Uncounted(maximum, rs))
  {
    hide Escapes, Uncounts, Balanced, Contribution, Plus;
    if rs == [] {
      ZeroBalances();
    } else {
      var n := |rs| - 1;
      TallyBalances(maximum, rs[..n]);
      ContributionBalances(maximum, rs[n]);
      PlusBalances(Tally(maximum, rs[..n]), Contribution(maximum, rs[n]), Escapees(maximum, rs[..n]),
                   Bit(Escapes(maximum, rs[n])), Uncounted(maximum, rs[..n]), Bit(Uncounts(maximum, rs[n])));
    }
  }

  lemma {:induction false} TallyConsumes(maximum: nat, rs: seq<Replies>)
    requires maximum > 0
    ensures Tally(maximum, rs).consumed == |rs|
  {
    hide Drive, LastAttempt, LastReply, Transacts, Uncounts;
    if rs != [] { TallyConsumes(maximum, rs[..|rs| - 1]); }
  }

  class MessageProcessor {
    const maximum: nat
    var counts: Counts

    constructor (maximum: nat)
      requires maximum > 0
      ensures counts == ZERO && this.maximum == maximum
    {
      this.maximum, counts := maximum, ZERO;
    }

    /** `run_with_retry` around `_handle`. */
    method RunWithRetry(r: Replies) returns (reply: PersistReply, attempt: nat)
      requires maximum > 0
      modifies this
      ensures attempt == LastAttempt(maximum, r, 1) && reply == PersistAt(r, attempt)
      ensures counts == old(counts).(
                started := old(counts).started + attempt,
                rolledBack := old(counts).rolledBack + attempt - Bit(reply.Stored?),
                retries := old(counts).retries + attempt - 1)
    {
      attempt := 1;
      counts := counts.(started := counts.started + 1);
      reply := PersistAt(r, attempt);
      while reply == Retryable && attempt < maximum
        invariant 1 <= attempt <= maximum && reply == PersistAt(r, attempt)
        invariant LastAttempt(maximum, r, 1) == LastAttempt(maximum, r, attempt)
        invariant counts == old(counts).(
                    started := old(counts).started + attempt,
                    rolledBack := old(counts).rolledBack + attempt - 1,
                    retries := old(counts).retries + attempt - 1)
        decreases maximum - attempt
      {
        counts := counts.(rolledBack := counts.rolledBack + 1, retries := counts.retries + 1);
        attempt := attempt + 1;
        counts := counts.(started := counts.started + 1);
        reply := PersistAt(r, attempt);
      }
      if !reply.Stored? {
        counts := counts.(rolledBack := counts.rolledBack + 1);
      }
    }

    /** `_commit` */
    method Commit(r: Replies)
      modifies this
      ensures counts == old(counts).(
                commitSuccesses := old(counts).commitSuccesses + Bit(r.accepted),
                commitFailures := old(counts).commitFailures + Bit(!r.accepted),
                unresolved := old(counts).unresolved + Bit(!r.accepted))
    {
      if r.accepted {
        counts := counts.(commitSuccesses := counts.commitSuccesses + 1);
      } else {
        counts := counts.(commitFailures := counts.commitFailures + 1, unresolved := counts.unresolved + 1);
      }
    }

    /** `_dead_letter` */
    method DeadLetter(r: Replies, attempts: nat) returns (end: Phase)
      modifies this
      ensures end == GivenUp(attempts, r)
      ensures counts == old(counts).(
                dlq := old(counts).dlq + Bit(r.delivered && r.accepted),
                unresolved := old(counts).unresolved + Bit(!(r.delivered && r.accepted)),
                commitSuccesses := old(counts).commitSuccesses + Bit(r.delivered && r.accepted),
                commitFailures := old(counts).commitFailures + Bit(r.delivered && !r.accepted))
    {
      if !r.delivered {
        counts := counts.(unresolved := counts.unresolved + 1);
        return Returned(Unresolved, attempts);
      }
      Commit(r);
      if !r.accepted {
        return Raised;
      }
      counts := counts.(dlq := counts.dlq + 1);
      return Returned(DeadLettered, attempts);
    }

    /** The completed-marker branch: reconcile with the ledger, then treat as a duplicate. */
    method Recover(r: Replies, event: Event) returns (end: Phase)
      requires maximum > 0 && r.validation == Some(event) && r.reserve == FoundCompleted
      modifies this
      ensures end == Drive(maximum, r, Validating)
      ensures counts == Plus(old(counts), Contribution(maximum, r).(consumed := 0, valid := 0))
    {
      hide Drive, LastAttempt;
      DriveHead(maximum, r);
      RetriesUntilLast(maximum, r, event, true, 1);
      var reply, attempt := RunWithRetry(r);
      match reply {
        case Unclassified =>
          DriveTail(maximum, r, Duplicate, 1);
          return Raised;
        case Permanent =>
          DriveTail(maximum, r, Duplicate, 1);
          end := DeadLetter(r, 1);
        case Retryable =>
          counts := counts.(retryExhausted := counts.retryExhausted + 1);
          DriveTail(maximum, r, Duplicate, maximum);
          end := DeadLetter(r, maximum);
        case Stored(already) =>
          DriveTail(maximum, r, Duplicate, 1);
          end := Acknowledge(r, already);
      }
    }

    /** The rest of the completed-marker branch once the ledger holds the event. */
    method Acknowledge(r: Replies, already: bool) returns (end: Phase)
      modifies this
      ensures end == Acknowledged(Duplicate, 1, r)
      ensures counts == old(counts).(
                committed := old(counts).committed + Bit(!already),
                duplicate := old(counts).duplicate + Bit(r.accepted),
                alreadyPersisted := old(counts).alreadyPersisted + Bit(already && r.accepted),
                commitSuccesses := old(counts).commitSuccesses + Bit(r.accepted),
                commitFailures := old(counts).commitFailures + Bit(!r.accepted),
                unresolved := old(counts).unresolved + Bit(!r.accepted))
    {
      if !already {
        counts := counts.(committed := counts.committed + 1);
      }
      Commit(r);
      if !r.accepted {
        return Raised;
      }
      counts := counts.(duplicate := counts.duplicate + 1, alreadyPersisted := counts.alreadyPersisted + Bit(already));
      return Returned(Duplicate, 1);
    }

    /** The reserved branch: persist, complete the lease, then commit. */
    method Handle(r: Replies, event: Event) returns (end: Phase)
      requires maximum > 0 && r.validation == Some(event) && r.reserve == Reserved
      modifies this
      ensures end == Drive(maximum, r, Validating)
      ensures counts == Plus(old(counts), Contribution(maximum, r).(consumed := 0, valid := 0))
    {
      hide Drive, LastAttempt, Contribution, PersistAt;
      ReservedContribution(maximum, r);
      DriveHead(maximum, r);
      RetriesUntilLast(maximum, r, event, false, 1);
      var reply, attempt := RunWithRetry(r);
      match reply {
        case Unclassified =>
          DriveTail(maximum, r, Duplicate, 1);
          return Raised;
        case Permanent =>
          counts := counts.(processingFailures := counts.processingFailures + 1,
                            redisErrors := counts.redisErrors + Bit(!r.released));
          DriveTail(maximum, r, Duplicate, 1);
          end := DeadLetter(r, 1);
          return;
        case Retryable =>
          counts := counts.(processingFailures := counts.processingFailures + 1, retryExhausted := counts.retryExhausted + 1,
                            redisErrors := counts.redisErrors + Bit(!r.released));
          DriveTail(maximum, r, Duplicate, maximum);
          end := DeadLetter(r, maximum);
          return;
        case Stored(already) =>
          DriveTail(maximum, r, Processed, attempt);
          end := Complete(r, attempt, already);
      }
    }

    /** The rest of the reserved branch once the ledger holds the event. */
    method Complete(r: Replies, attempts: nat, already: bool) returns (end: Phase)
      modifies this
      ensures end == Finalized(attempts, r)
      ensures var owned := r.complete == Owned;
              counts == old(counts).(
                committed := old(counts).committed + Bit(!already),
                alreadyPersisted := old(counts).alreadyPersisted + Bit(already),
                redisErrors := old(counts).redisErrors + Bit(!owned),
                processed := old(counts).processed + Bit(owned && r.accepted),
                commitSuccesses := old(counts).commitSuccesses + Bit(owned && r.accepted),
                commitFailures := old(counts).commitFailures + Bit(owned && !r.accepted),
                unresolved := old(counts).unresolved + Bit(!(owned && r.accepted)))
    {
      counts := counts.(alreadyPersisted := counts.alreadyPersisted + Bit(already),
                        committed := counts.committed + Bit(!already));
      if r.complete != Owned {
        counts := counts.(redisErrors := counts.redisErrors + 1, unresolved := counts.unresolved + 1);
        return Returned(Unresolved, attempts);
      }
      Commit(r);
      if !r.accepted {
        return Raised;
      }
      counts := counts.(processed := counts.processed + 1);
      return Returned(Processed, attempts);
    }

    /** One record: it ends where the protocol says, and every counter grows by what that end means. */
    method Process(r: Replies) returns (end: Phase)
      requires maximum > 0
      modifies this
      ensures end == Drive(maximum, r, Validating) && EndsAs(maximum, r, end)
      ensures counts == Plus(old(counts), Contribution(maximum, r))
    {
      hide Drive, LastAttempt, EndsAs;
      Endings(maximum, r);
      DriveHead(maximum, r);
      counts := counts.(consumed := counts.consumed + 1);
      if r.validation.None? {
        end := DeadLetter(r, 1);
        return;
      }
      counts := counts.(valid := counts.valid + 1);
      match r.reserve {
        case ReserveUnavailable =>
          counts := counts.(redisErrors := counts.redisErrors + 1, unresolved := counts.unresolved + 1);
          DriveTail(maximum, r, Unresolved, 1);
          return Returned(Unresolved, 1);
        case FoundProcessing =>
          counts := counts.(unresolved := counts.unresolved + 1);
          DriveTail(maximum, r, Unresolved, 1);
          return Returned(Unresolved, 1);
        case FoundCompleted =>
          end := Recover(r, r.validation.value);
        case Reserved =>
          end := Handle(r, r.validation.value);
      }
    }

    /** A run of `process` calls from a fresh summary, with every equation exact. */
    method ProcessAll(rs: seq<Replies>)
      requires maximum > 0 && counts == ZERO
      modifies this
      ensures counts == Tally(maximum, rs) && counts.consumed == |rs|
      ensures counts.commitSuccesses == counts.processed + counts.duplicate + counts.dlq
      ensures counts.consumed ==
              counts.processed + counts.duplicate + counts.dlq + counts.unresolved + Escapees(maximum, rs)
      ensures counts.started ==
              counts.committed + counts.rolledBack + counts.alreadyPersisted + Uncounted(maximum, rs)
    {
      hide Contribution, Plus, Escapes, Uncounts, Drive;
      for i := 0 to |rs|
        invariant counts == Tally(maximum, rs[..i])
      {
        assert rs[..i + 1][..i] == rs[..i];
        var _ := Process(rs[i]);
      }
      assert rs[..|rs|] == rs;
      TallyBalances(maximum, rs);
      TallyConsumes(maximum, rs);
    }
  }

  // ----- per-worker summaries -----

  function Plus(a: Counts, b: Counts): Counts {
    Counts(a.consumed + b.consumed, a.valid + b.valid, a.processed + b.processed, a.duplicate + b.duplicate,
           a.dlq + b.dlq, a.unresolved + b.unresolved, a.retries + b.retries, a.retryExhausted + b.retryExhausted,
           a.processingFailures + b.processingFailures, a.redisErrors + b.redisErrors,
           a.commitSuccesses + b.commitSuccesses, a.commitFailures + b.commitFailures,
           a.started + b.started, a.committed + b.committed, a.rolledBack + b.rolledBack,
           a.alreadyPersisted + b.alreadyPersisted)
  }

  function Sum(ns: seq<nat>): nat {
    if ns == [] then 0 else Sum(ns[..|ns| - 1]) + ns[|ns| - 1]
  }

  function Total(summaries: seq<Counts>): Counts {
    if summaries == [] then ZERO else Plus(Total(summaries[..|summaries| - 1]), summaries[|summaries| - 1])
  }

  /** The counters of a summary in a row. */
  function Counters(c: Counts): (row: seq<nat>)
    ensures |row| == 16
  {
    [c.consumed, c.valid, c.processed, c.duplicate, c.dlq, c.unresolved, c.retries, c.retryExhausted, c.processingFailures,
     c.redisErrors, c.commitSuccesses, c.commitFailures, c.started, c.committed, c.rolledBack, c.alreadyPersisted]
  }

  /** One counter over the summaries. */
  function Column(summaries: seq<Counts>, k: nat): seq<nat>
    requires k < 16
  {
    if summaries == [] then []
    else Column(summaries[..|summaries| - 1], k) + [Counters(summaries[|summaries| - 1])[k]]
  }

  /** Merging adds up every counter, and no counter into another. */
  lemma {:induction false} TotalAddsUp(summaries: seq<Counts>, k: nat)
    requires k < 16
    ensures Counters(Total(summaries))[k] == Sum(Column(summaries, k))
  {
    hide Plus, Counters;
    if summaries == [] {
      ZeroCounts(k);
    } else {
      var n := |summaries| - 1;
      TotalAddsUp(summaries[..n], k);
      PlusAddsUp(Total(summaries[..n]), summaries[n], k);
      var column := Column(summaries[..n], k);
      assert (column + [Counters(summaries[n])[k]])[..|column|] == column;
    }
  }

  lemma PlusAddsUp(a: Counts, b: Counts, k: nat)
    requires k < 16
    ensures Counters(Plus(a, b))[k] == Counters(a)[k] + Counters(b)[k]
  {
  }

  lemma ZeroCounts(k: nat)
    requires k < 16
    ensures Counters(ZERO)[k] == 0
  {
  }

  lemma PlusBalances(a: Counts, b: Counts, escaped: nat, escaped': nat, uncounted: nat, uncounted': nat)
    requires Balanced(a, escaped, uncounted) && Balanced(b, escaped', uncounted')
    ensures Balanced(Plus(a, b), escaped + escaped', uncounted + uncounted')
  {
  }

  /** Adding up summaries keeps the three equations, with the unaccounted calls added up too. */
  lemma {:induction false} TotalBalances(summaries: seq<Counts>, escaped: seq<nat>, uncounted: seq<nat>)
    requires |escaped| == |uncounted| == |summaries|
    requires forall i :: 0 <= i < |summaries| ==> Balanced(summaries[i], escaped[i], uncounted[i])
    ensures Balanced(Total(summaries), Sum(escaped), Sum(uncounted))
  {
    hide Plus, Balanced;
    if summaries != [] {
      var n := |summaries| - 1;
      TotalBalances(summaries[..n], escaped[..n], uncounted[..n]);
      PlusBalances(Total(summaries[..n]), summaries[n], Sum(escaped[..n]), escaped[n], Sum(uncounted[..n]), uncounted[n]);
    } else {
      assert Balanced(ZERO, 0, 0) by { ZeroBalances(); }
    }
  }

  lemma ZeroBalances()
    ensures Balanced(ZERO, 0, 0)
  {
  }

  /** `_merge_summaries`: every counter of the result is the sum over the workers. */
  method MergeSummaries(summaries: seq<Counts>) returns (merged: Counts)
    ensures merged == Total(summaries)
  {
    merged := ZERO;
    for i := 0 to |summaries|
      invariant merged == Total(summaries[..i])
    {
      assert summaries[..i + 1][..i] == summaries[..i];
      merged := Plus(merged, summaries[i]);
    }
    assert summaries[..|summaries|] == summaries;
  }
}
