/** Why a record may be dead-lettered, in every run. */
module DeadLetters {
  import opened Prelude
  import opened Commerce
  import opened TrackerSpec
  import opened Ledger
  import opened Pipeline
  import opened PipelineRecords
  import P = RecordProtocol

  /** The transaction refuses the record for good, or it was its last attempt. */
  predicate Condemns(setup: Setup, w: World, step: Step)
    requires Enabled(w, step)
  {
    step.Transact? &&
    (var Work(source, phase) := w.processors[step.p].inflight[step.token];
     var reply := Attempt(w.db, phase.event, source, step.trouble).1;
     reply == P.Permanent || (reply == P.Retryable && phase.attempt >= setup.maximumAttempts))
  }

  function CondemnedNow(setup: Setup, w: World, step: Step): set<Coordinate>
    requires Enabled(w, step)
  {
    if Condemns(setup, w, step) then {w.processors[step.p].inflight[step.token].source} else {}
  }

  /** The records a run condemns. */
  ghost function Condemned(setup: Setup, w: World, steps: seq<Step>): set<Coordinate>
    requires Legal(setup, w, steps)
    decreases |steps|
  {
    if steps == [] then {}
    else
      CondemnedNow(setup, w, steps[0]) + Condemned(setup, Next(setup, w, steps[0]), steps[1..])
  }

  predicate MayDie(setup: Setup, condemned: set<Coordinate>, c: Coordinate) {
    c in condemned || setup.log(c).Malformed?
  }

  predicate Dying(phase: P.Phase) {
    phase.Releasing? || phase.DeadLettering? || (phase.Committing? && phase.status == P.DeadLettered)
  }

  /** Only condemned or malformed records are dead-lettered or on the way there. */
  ghost predicate Justified(setup: Setup, w: World, condemned: set<Coordinate>) {
    && (forall c :: c in w.dlq ==> MayDie(setup, condemned, c))
    && (forall p: ProcessorId, t: Token :: HasWork(w, p, t) && Dying(w.processors[p].inflight[t].phase) ==>
          MayDie(setup, condemned, w.processors[p].inflight[t].source))
  }

  lemma WorkerDies(setup: Setup, w: World, step: Step)
    requires Enabled(w, step) && IsWorker(step) && Dying(PhaseAfter(setup, w, step))
    ensures var work := w.processors[step.p].inflight[step.token];
            Dying(work.phase) || Condemns(setup, w, step) || setup.log(work.source).Malformed?
  {
    hide Attempt, Settle;
  }

  lemma PublishesItsOwn(setup: Setup, w: World, step: Step)
    requires Enabled(w, step)
    ensures Next(setup, w, step).dlq == w.dlq ||
            (step.Publish? && Next(setup, w, step).dlq == w.dlq + {w.processors[step.p].inflight[step.token].source})
  {
    hide CommitTerminal, Flush, MaybeFlush, Settle, Attempt, Observe, Drop;
  }

  lemma StepIsJustified(setup: Setup, w: World, step: Step, condemned: set<Coordinate>, condemned': set<Coordinate>)
    requires Enabled(w, step) && Justified(setup, w, condemned)
    requires condemned' == condemned + CondemnedNow(setup, w, step)
    ensures Justified(setup, Next(setup, w, step), condemned')
  {
    hide Next, Condemns, PhaseAfter, Dying, Moves;
    var w' := Next(setup, w, step);
    PublishesItsOwn(setup, w, step);
    if step.Publish? { IsDying(w, step); }
    if IsWorker(step) {
      WorkerMoves(setup, w, step);
      if Dying(PhaseAfter(setup, w, step)) { WorkerDies(setup, w, step); }
      MovedPhases(w, w', step.p, step.token, PhaseAfter(setup, w, step));
    } else if step.Poll? {
      PolledPhases(setup, w, step);
    } else {
      RestFewer(setup, w, step);
    }
  }

  lemma IsDying(w: World, step: Step)
    requires Enabled(w, step) && step.Publish?
    ensures Dying(w.processors[step.p].inflight[step.token].phase)
  {
  }

  lemma MovedPhases(w: World, w': World, p: ProcessorId, t: Token, phase: P.Phase)
    requires Moves(w, w', p, t, phase)
    ensures forall r: ProcessorId, u: Token :: HasWork(w', r, u) ==>
              && HasWork(w, r, u) && w'.processors[r].inflight[u].source == w.processors[r].inflight[u].source
              && (w'.processors[r].inflight[u] == w.processors[r].inflight[u] || (r == p && u == t && w'.processors[r].inflight[u].phase == phase))
  {
  }

  lemma PolledPhases(setup: Setup, w: World, step: Step)
    requires Enabled(w, step) && step.Poll?
    ensures var w' := Next(setup, w, step);
            forall r: ProcessorId, u: Token :: HasWork(w', r, u) ==>
              || (HasWork(w, r, u) && w'.processors[r].inflight[u] == w.processors[r].inflight[u])
              || !Dying(w'.processors[r].inflight[u].phase)
  {
    hide Observe;
  }

  lemma {:induction false} RunIsJustified(setup: Setup, w: World, steps: seq<Step>, condemned: set<Coordinate>)
    requires Legal(setup, w, steps) && Justified(setup, w, condemned)
    ensures Justified(setup, Pipeline.Run(setup, w, steps), condemned + Condemned(setup, w, steps))
    decreases |steps|
  {
    hide Justified, Next, Enabled, CondemnedNow;
    if steps != [] {
      var now := CondemnedNow(setup, w, steps[0]);
      StepIsJustified(setup, w, steps[0], condemned, condemned + now);
      RunIsJustified(setup, Next(setup, w, steps[0]), steps[1..], condemned + now);
      assert condemned + now + Condemned(setup, Next(setup, w, steps[0]), steps[1..]) == condemned + Condemned(setup, w, steps);
    } else {
      assert condemned + Condemned(setup, w, steps) == condemned;
    }
  }

  /** Some step of the run is a transaction on this record that condemns it. */
  ghost predicate CondemnedBy(setup: Setup, w: World, steps: seq<Step>, c: Coordinate)
    requires Legal(setup, w, steps)
    decreases |steps|
  {
    steps != [] &&
    (c in CondemnedNow(setup, w, steps[0]) || CondemnedBy(setup, Next(setup, w, steps[0]), steps[1..], c))
  }

  lemma {:induction false} CondemnedSomewhere(setup: Setup, w: World, steps: seq<Step>, c: Coordinate)
    requires Legal(setup, w, steps)
    ensures c in Condemned(setup, w, steps) <==> CondemnedBy(setup, w, steps, c)
    decreases |steps|
  {
    hide Next, Enabled, CondemnedNow;
    if steps != [] { CondemnedSomewhere(setup, Next(setup, w, steps[0]), steps[1..], c); }
  }

  /**
   In every run, whatever goes wrong: a record is in the dead-letter topic only if it is malformed,
   or some transaction on it was refused for good or was its last attempt. A record that met another
   worker's lease, or an unavailable Redis, never is for that reason.
   */
  lemma DeadLettersAreJustified(setup: Setup, steps: seq<Step>, c: Coordinate)
    requires Legal(setup, INIT, steps) && c in Pipeline.Run(setup, INIT, steps).dlq
    ensures setup.log(c).Malformed? || CondemnedBy(setup, INIT, steps, c)
  {
    hide Next, Enabled, CondemnedNow, CondemnedBy;
    RunIsJustified(setup, INIT, steps, {});
    assert {} + Condemned(setup, INIT, steps) == Condemned(setup, INIT, steps);
    CondemnedSomewhere(setup, INIT, steps, c);
  }
}
