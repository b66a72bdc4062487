/** The Redis lease protocol inside the pipeline. */
module LeaseFencing {
  import opened Prelude
  import opened Commerce
  import opened TrackerSpec
  import opened Ledger
  import opened Pipeline
  import opened PipelineRecords

  /** What may happen to an existing lease in one step. */
  ghost predicate Fenced(w: World, w': World, step: Step, id: Id)
    requires id in w.leases
  {
    || (id in w'.leases && w'.leases[id] == w.leases[id])
    || step == Expire(id)
    || (w.leases[id].Held? && (step.Release? || step.Complete?) && step.token == w.leases[id].token)
  }

  /**
   Fencing: besides expiry, a live lease changes only through `complete` or `release` with its
   own token, and a completed marker does not change at all. Calls with another token, and
   reservations of a leased event, are no-ops.
   */
  lemma LeaseIsFenced(setup: Setup, w: World, step: Step, id: Id)
    requires Enabled(w, step) && id in w.leases
    ensures Fenced(w, Next(setup, w, step), step, id)
  {
    hide Flush, MaybeFlush, CommitTerminal, Attempt, Observe, Settle;
  }

  /** A worker that holds the live lease of the event it is working on. */
  predicate Holds(w: World, p: ProcessorId, t: Token, event: Event) {
    HasWork(w, p, t) && Owns(w.leases, event, t)
  }

  /**
   In every run, whoever crashed, expired or came back late: at most one worker holds the live
   lease of an event, and only with the one token it reserved it with.
   */
  lemma OneHolder(setup: Setup, steps: seq<Step>, p: ProcessorId, p': ProcessorId, t: Token, t': Token, event: Event)
    requires Legal(setup, INIT, steps)
    requires var w := Pipeline.Run(setup, INIT, steps); Holds(w, p, t, event) && Holds(w, p', t', event)
    ensures p == p' && t == t'
  {
    hide ExactlyOnce, FromLog, AllWorkOk, LeasesOk;
    InitIsOk(setup);
    RunKeepsRecords(setup, INIT, steps);
  }

  /**
   In every run a completed marker stands for a ledger row, so the branch that finds one runs a
   transaction that writes nothing, whatever else goes wrong with it.
   */
  lemma RecoveryWritesNothing(setup: Setup, steps: seq<Step>, p: ProcessorId, t: Token, trouble: TransactionFault)
    requires Legal(setup, INIT, steps)
    requires var w := Pipeline.Run(setup, INIT, steps);
             Enabled(w, Transact(p, t, trouble)) && w.processors[p].inflight[t].phase.recovering
    ensures var w := Pipeline.Run(setup, INIT, steps); Next(setup, w, Transact(p, t, trouble)).db == w.db
  {
    hide ExactlyOnce, RecordsOk, Attempt, Settle;
    var w := Pipeline.Run(setup, INIT, steps);
    InitIsOk(setup);
    RunKeepsRecords(setup, INIT, steps);
    WorkIsOk(setup, w, p, t);
    var Work(source, phase) := w.processors[p].inflight[t];
    AttemptEffect(setup, Of(w), phase.event, source, trouble);
  }

  /** In every run completed in Redis implies the event is in the ledger. */
  lemma ReachableIsFenced(setup: Setup, steps: seq<Step>, id: Id)
    requires Legal(setup, INIT, steps)
    ensures var w := Pipeline.Run(setup, INIT, steps);
            id in w.leases && w.leases[id] == CompletedMarker ==> FindEvent(w.db.ledger, id).Some?
  {
    InitIsOk(setup);
    RunKeepsRecords(setup, INIT, steps);
  }
}
