/** What every run of the outbox keeps. */
module OutboxSafety {
  import opened Prelude
  import opened Outbox

  ghost predicate RowOk(c: Settings, w: World, id: RowId)
    requires id in w.table
  {
    var row := w.table[id];
    && (row.token.Some? <==> row.status == Publishing)
    && (row.token.Some? ==> row.token.value < w.nextToken)
    && (row.status == Published ==> id in w.confirmed)
    && (row.status == Failed ==> row.attempts >= c.maxAttempts)
    && row.attempts == w.claimed[id]
    && row.attempts <= c.maxAttempts + w.recovered[id]
    && (row.status == Pending ==> row.attempts < c.maxAttempts + w.recovered[id])
  }

  ghost predicate TicketOk(w: World, k: Ticket) {
    && k.id in w.table
    && k.token < w.nextToken
    && (w.table[k.id].token == Some(k.token) ==> w.table[k.id].attempts == k.attempts)
  }

  ghost predicate BatchOk(w: World, p: PublisherId)
    requires p in w.publishers
  {
    var b := w.publishers[p];
    && (forall i :: 0 <= i < |b.records| ==> TicketOk(w, b.records[i]))
    && HeadOk(w, p)
  }

  /** No two publishers ever hold the same token. */
  ghost predicate TokensApart(w: World) {
    forall p, p', i, j :: Carries(w, p, i) && Carries(w, p', j) && p != p' ==>
      w.publishers[p].records[i].token != w.publishers[p'].records[j].token
  }

  predicate Carries(w: World, p: PublisherId, i: int) {
    p in w.publishers && 0 <= i < |w.publishers[p].records|
  }

  ghost predicate Inv(c: Settings, w: World) {
    && (forall id :: id in w.table ==> RowOk(c, w, id))
    && (forall id :: id !in w.table ==> w.claimed[id] == 0)
    && (forall id :: id in w.queued ==> id in w.table && w.table[id].alert == w.queued[id])
    && (forall p :: p in w.publishers ==> BatchOk(w, p))
    && TokensApart(w)
  }

  /** What one step may do to an existing row. */
  ghost predicate RowStep(w: World, w': World, step: Step, id: RowId)
    requires id in w.table
  {
    && id in w'.table && w'.table[id].alert == w.table[id].alert
    && (w.table[id].status == Published || w.table[id].status == Failed ==> w'.table[id] == w.table[id])
    && (w'.table[id].status == Published && w.table[id].status != Published ==> HolderMarks(w, step, id))
    && (w'.table[id].attempts != w.table[id].attempts ==>
          step.Claim? && id in step.picked && w'.table[id].attempts == w.table[id].attempts + 1)
  }

  /** The step is `published`, called by the holder of the row's live claim. */
  predicate HolderMarks(w: World, step: Step, id: RowId) {
    step.Mark? && At(w, step.p, Marking) && Head(w, step.p).id == id && Holds(w.table, Head(w, step.p))
  }

  lemma ClaimAdvances(c: Settings, w: World, step: Step, id: RowId)
    requires id in w.table && RowOk(c, w, id) && Enabled(c, w, step) && step.Claim?
    ensures RowStep(w, Next(c, w, step), step, id)
  {
    hide Tickets, TicketsFor;
  }

  lemma HandlingAdvances(c: Settings, w: World, step: Step, id: RowId)
    requires Inv(c, w) && Enabled(c, w, step) && (step.Mark? || step.Retry?) && id in w.table
    ensures RowStep(w, Next(c, w, step), step, id)
  {
    hide TokensApart, Delay, Tickets, Recovered, Taken, StaleRows;
    assert RowOk(c, w, id) && BatchOk(w, step.p);
    assert TicketOk(w, Head(w, step.p));
    assert RowOk(c, w, Head(w, step.p).id);
  }

  /** Published and failed rows never change, no row and no alert is lost, and only the holder publishes. */
  lemma RowsAdvance(c: Settings, w: World, step: Step, id: RowId)
    requires Inv(c, w) && Enabled(c, w, step) && id in w.table
    ensures RowStep(w, Next(c, w, step), step, id)
  {
    hide TokensApart, BatchOk, Tickets, Recovered, Taken, StaleRows, Marked, Failing;
    if step.Mark? || step.Retry? {
      HandlingAdvances(c, w, step, id);
    } else if step.Claim? {
      ClaimAdvances(c, w, step, id);
    }
  }

  /** A publisher whose claim was recovered, or taken over, can no longer change the table. */
  lemma StaleHolderIsHarmless(c: Settings, w: World, step: Step)
    requires Enabled(c, w, step) && (step.Mark? || step.Retry?)
    requires !Holds(w.table, Head(w, step.p))
    ensures Next(c, w, step).table == w.table
  {
  }

  lemma InitOk(c: Settings)
    ensures Inv(c, INIT)
  {
  }

  lemma RaiseKeeps(c: Settings, w: World, step: Step)
    requires SettingsOk(c) && Inv(c, w) && Enabled(c, w, step) && step.Raise?
    ensures Inv(c, Next(c, w, step))
  {
    var w' := Next(c, w, step);
    forall id | id in w'.table ensures RowOk(c, w', id) {
      if id in w.table { assert RowOk(c, w, id); }
    }
    forall p | p in w'.publishers ensures BatchOk(w', p) {
      assert BatchOk(w, p);
      forall i | 0 <= i < |w'.publishers[p].records| ensures TicketOk(w', w'.publishers[p].records[i]) {
        assert TicketOk(w, w.publishers[p].records[i]);
      }
    }
  }

  lemma ClaimRows(c: Settings, w: World, step: Step)
    requires SettingsOk(c) && Inv(c, w) && Enabled(c, w, step) && step.Claim?
    ensures var w' := Next(c, w, step);
            && w'.table.Keys == w.table.Keys
            && (forall id :: id in w'.table ==> RowOk(c, w', id))
            && (forall id :: id !in w'.table ==> w'.claimed[id] == 0)
  {
    hide Tickets, TokensApart, BatchOk;
    var w' := Next(c, w, step);
    forall id | id in w'.table ensures RowOk(c, w', id) {
      assert RowOk(c, w, id);
      assert multiset(StaleRows(w.table, w.now, c.ttl))[id] == if Stale(w.table[id], w.now, c.ttl) then 1 else 0;
      assert multiset(step.picked)[id] == if id in step.picked then 1 else 0;
    }
  }

  lemma ClaimTickets(c: Settings, w: World, step: Step)
    requires SettingsOk(c) && Inv(c, w) && Enabled(c, w, step) && step.Claim?
    ensures var w' := Next(c, w, step);
            forall p :: p in w'.publishers ==> BatchOk(w', p)
  {
    hide Tickets, TokensApart;
    var w' := Next(c, w, step);
    var t := Recovered(w.table, w.now, c.ttl);
    assert TicketsFor(w'.publishers[step.p].records, t, step.picked, w.nextToken);
    forall p | p in w'.publishers ensures BatchOk(w', p) {
      if p != step.p {
        assert BatchOk(w, p);
        forall i | 0 <= i < |w'.publishers[p].records| ensures TicketOk(w', w'.publishers[p].records[i]) {
          assert TicketOk(w, w.publishers[p].records[i]);
          assert RowOk(c, w, w.publishers[p].records[i].id);
        }
      }
    }
  }

  lemma ClaimTokens(c: Settings, w: World, step: Step)
    requires SettingsOk(c) && Inv(c, w) && Enabled(c, w, step) && step.Claim?
    ensures TokensApart(Next(c, w, step))
  {
    hide Tickets, RowOk, Recovered, Taken, StaleRows;
    var w' := Next(c, w, step);
    assert TicketsFor(w'.publishers[step.p].records, Recovered(w.table, w.now, c.ttl), step.picked, w.nextToken);
    forall p, i | Carries(w', p, i) && p != step.p ensures Carries(w, p, i) && w'.publishers[p].records[i].token < w.nextToken {
      assert BatchOk(w, p);
      assert TicketOk(w, w.publishers[p].records[i]);
    }
  }

  /** The publishers after a step that takes no new claim: batches only shrink. */
  ghost predicate Shrunk(w: World, w': World) {
    forall p :: p in w'.publishers ==>
      && p in w.publishers
      && |w'.publishers[p].records| <= |w.publishers[p].records|
      && var d := |w.publishers[p].records| - |w'.publishers[p].records|;
         w'.publishers[p].records == w.publishers[p].records[d..]
  }

  lemma ShrunkKeepsTokensApart(w: World, w': World)
    requires TokensApart(w) && Shrunk(w, w')
    ensures TokensApart(w')
  {
    forall p, p', i, j | Carries(w', p, i) && Carries(w', p', j) && p != p'
      ensures w'.publishers[p].records[i].token != w'.publishers[p'].records[j].token
    {
      var d := |w.publishers[p].records| - |w'.publishers[p].records|;
      var d' := |w.publishers[p'].records| - |w'.publishers[p'].records|;
      assert Carries(w, p, i + d) && Carries(w, p', j + d');
      assert w'.publishers[p].records[i] == w.publishers[p].records[i + d];
      assert w'.publishers[p'].records[j] == w.publishers[p'].records[j + d'];
    }
  }

  /** A table whose rows kept their attempts, with tokens only ever taken away. */
  ghost predicate Quieter(t: Table, t': Table) {
    && t'.Keys == t.Keys
    && (forall id :: id in t ==> t'[id].attempts == t[id].attempts && t'[id].alert == t[id].alert)
    && (forall id :: id in t ==> t'[id].token == t[id].token || t'[id].token.None?)
  }

  lemma RepositoryIsQuiet(c: Settings, t: Table, k: Ticket, clock: int)
    ensures Quieter(t, t) && Quieter(t, Marked(t, k)) && Quieter(t, Failing(c, t, k, clock))
  {
    hide Delay;
  }

  lemma ShrunkKeepsBatches(w: World, w': World)
    requires forall p :: p in w.publishers ==> BatchOk(w, p)
    requires Shrunk(w, w') && Quieter(w.table, w'.table) && w'.nextToken == w.nextToken
    ensures forall p, i :: p in w'.publishers && 0 <= i < |w'.publishers[p].records| ==> TicketOk(w', w'.publishers[p].records[i])
  {
    forall p, i | p in w'.publishers && 0 <= i < |w'.publishers[p].records|
      ensures TicketOk(w', w'.publishers[p].records[i])
    {
      var d := |w.publishers[p].records| - |w'.publishers[p].records|;
      assert w'.publishers[p].records[i] == w.publishers[p].records[i + d];
      assert BatchOk(w, p);
      assert TicketOk(w, w.publishers[p].records[i + d]);
    }
  }

  lemma AdvanceShrinks(w: World, w': World, p: PublisherId)
    requires p in w.publishers && w.publishers[p].records != []
    requires w'.publishers.Keys == w.publishers.Keys
    requires w'.publishers[p].records == w.publishers[p].records || w'.publishers[p].records == w.publishers[p].records[1..]
    requires forall q :: q in w.publishers && q != p ==> w'.publishers[q] == w.publishers[q]
    ensures Shrunk(w, w')
  {
  }

  lemma StageShrinks(w: World, w': World, p: PublisherId)
    requires p in w.publishers && w'.publishers.Keys == w.publishers.Keys
    requires w'.publishers[p].records == w.publishers[p].records
    requires forall q :: q in w.publishers && q != p ==> w'.publishers[q] == w.publishers[q]
    ensures Shrunk(w, w')
  {
  }

  lemma SendIsQuiet(c: Settings, w: World, step: Step)
    requires Enabled(c, w, step) && step.Send?
    ensures var w' := Next(c, w, step);
            && Shrunk(w, w') && Quieter(w.table, w'.table)
            && w'.nextToken == w.nextToken && w'.claimed == w.claimed && w'.queued == w.queued
  {
    hide Shrunk, Quieter, StageTo, Head;
    StageIsQuiet(w, step.p, Marking, w.confirmed + {Head(w, step.p).id});
    StageIsQuiet(w, step.p, Retrying, w.confirmed);
  }

  lemma StageIsQuiet(w: World, p: PublisherId, stage: Stage, confirmed: set<RowId>)
    requires p in w.publishers
    ensures var staged := StageTo(w, p, stage);
            && Shrunk(w, staged) && Shrunk(w, staged.(confirmed := confirmed)) && Quieter(w.table, staged.table)
            && staged.nextToken == w.nextToken && staged.claimed == w.claimed && staged.queued == w.queued
  {
    hide Shrunk;
    StageShrinks(w, StageTo(w, p, stage), p);
    StageShrinks(w, StageTo(w, p, stage).(confirmed := confirmed), p);
  }

  lemma MarkIsQuiet(c: Settings, w: World, step: Step)
    requires Enabled(c, w, step) && step.Mark?
    ensures var w' := Next(c, w, step);
            && Shrunk(w, w') && Quieter(w.table, w'.table)
            && w'.nextToken == w.nextToken && w'.claimed == w.claimed && w'.queued == w.queued
  {
    hide Shrunk, Quieter, Marked, MayMark, Failing, Delay;
    RepositoryIsQuiet(c, w.table, Head(w, step.p), 0);
    AdvanceShrinks(w, Next(c, w, step), step.p);
  }

  lemma RetryIsQuiet(c: Settings, w: World, step: Step)
    requires Enabled(c, w, step) && step.Retry?
    ensures var w' := Next(c, w, step);
            && Shrunk(w, w') && Quieter(w.table, w'.table)
            && w'.nextToken == w.nextToken && w'.claimed == w.claimed && w'.queued == w.queued
  {
    hide Shrunk, Quieter, Failing;
    var w' := Next(c, w, step);
    RepositoryIsQuiet(c, w.table, Head(w, step.p), step.clock);
    if step.fault == Sound { AdvanceShrinks(w, w', step.p); } else { RestShrinks(w, w'); }
  }

  lemma QuietStep(c: Settings, w: World, step: Step)
    requires Enabled(c, w, step) && !step.Raise? && !step.Claim?
    ensures var w' := Next(c, w, step);
            && Shrunk(w, w') && Quieter(w.table, w'.table)
            && w'.nextToken == w.nextToken && w'.claimed == w.claimed && w'.queued == w.queued
  {
    hide Shrunk, Quieter, Marked, MayMark, Failing, Delay;
    if step.Send? {
      SendIsQuiet(c, w, step);
    } else if step.Mark? {
      MarkIsQuiet(c, w, step);
    } else if step.Retry? {
      RetryIsQuiet(c, w, step);
    } else {
      RepositoryIsQuiet(c, w.table, Ticket(0, 0, 0), 0);
      RestShrinks(w, Next(c, w, step));
    }
  }

  lemma RestShrinks(w: World, w': World)
    requires forall p :: p in w'.publishers ==> p in w.publishers && w'.publishers[p] == w.publishers[p]
    ensures Shrunk(w, w')
  {
  }

  lemma MarkKeepsRow(c: Settings, w: World, step: Step, id: RowId)
    requires Inv(c, w) && Enabled(c, w, step) && step.Mark? && id in w.table
    ensures id in Next(c, w, step).table && RowOk(c, Next(c, w, step), id)
  {
    hide TokensApart, TicketOk;
    assert RowOk(c, w, id) && BatchOk(w, step.p);
  }

  lemma RetryKeepsRow(c: Settings, w: World, step: Step, id: RowId)
    requires Inv(c, w) && Enabled(c, w, step) && step.Retry? && id in w.table
    ensures id in Next(c, w, step).table && RowOk(c, Next(c, w, step), id)
  {
    hide TokensApart, Delay;
    assert RowOk(c, w, id) && BatchOk(w, step.p);
    assert TicketOk(w, Head(w, step.p));
  }

  lemma RestKeepsRow(c: Settings, w: World, step: Step, id: RowId)
    requires Inv(c, w) && Enabled(c, w, step) && id in w.table && (step.Send? || step.Tick? || step.Crash?)
    ensures id in Next(c, w, step).table && RowOk(c, Next(c, w, step), id)
  {
    hide TokensApart, BatchOk;
    assert RowOk(c, w, id);
  }

  lemma QuietRow(c: Settings, w: World, step: Step, id: RowId)
    requires Inv(c, w) && Enabled(c, w, step) && !step.Raise? && !step.Claim? && id in w.table
    ensures id in Next(c, w, step).table && RowOk(c, Next(c, w, step), id)
  {
    hide Next, Inv, RowOk;
    match step
    case Mark(_, _) => MarkKeepsRow(c, w, step, id);
    case Retry(_, _, _) => RetryKeepsRow(c, w, step, id);
    case _ => RestKeepsRow(c, w, step, id);
  }

  lemma QuietRows(c: Settings, w: World, step: Step)
    requires SettingsOk(c) && Inv(c, w) && Enabled(c, w, step) && !step.Raise? && !step.Claim?
    ensures var w' := Next(c, w, step);
            && w'.queued == w.queued && w'.table.Keys == w.table.Keys
            && (forall id :: id in w'.table ==> RowOk(c, w', id) && w'.table[id].alert == w.table[id].alert)
            && (forall id :: id !in w'.table ==> w'.claimed[id] == 0)
  {
    hide Next, RowOk, TokensApart, BatchOk, Shrunk;
    var w' := Next(c, w, step);
    QuietStep(c, w, step);
    forall id | id in w.table ensures RowOk(c, w', id) {
      QuietRow(c, w, step, id);
    }
  }

  ghost predicate HeadOk(w: World, p: PublisherId)
    requires p in w.publishers
  {
    var b := w.publishers[p];
    b.records != [] && b.stage == Marking ==> b.records[0].id in w.confirmed
  }

  lemma QuietHeads(c: Settings, w: World, step: Step)
    requires Inv(c, w) && Enabled(c, w, step) && !step.Raise? && !step.Claim?
    ensures var w' := Next(c, w, step);
            forall p :: p in w'.publishers ==> HeadOk(w', p)
  {
    hide TokensApart, RowOk, TicketOk, Marked, Failing, Tickets, Recovered, Taken, StaleRows;
    var w' := Next(c, w, step);
    forall p | p in w'.publishers ensures HeadOk(w', p) {
      assert BatchOk(w, p);
    }
  }

  lemma QuietKeeps(c: Settings, w: World, step: Step)
    requires SettingsOk(c) && Inv(c, w) && Enabled(c, w, step) && !step.Raise? && !step.Claim?
    ensures Inv(c, Next(c, w, step))
  {
    hide Next, TokensApart, RowOk, Shrunk, Quieter, TicketOk;
    var w' := Next(c, w, step);
    QuietStep(c, w, step);
    QuietRows(c, w, step);
    ShrunkKeepsTokensApart(w, w');
    ShrunkKeepsBatches(w, w');
    QuietHeads(c, w, step);
  }

  lemma StepKeeps(c: Settings, w: World, step: Step)
    requires SettingsOk(c) && Inv(c, w) && Enabled(c, w, step)
    ensures Inv(c, Next(c, w, step))
  {
    if step.Raise? {
      RaiseKeeps(c, w, step);
    } else if step.Claim? {
      ClaimRows(c, w, step);
      ClaimTickets(c, w, step);
      ClaimTokens(c, w, step);
    } else {
      QuietKeeps(c, w, step);
    }
  }

  lemma {:induction false} RunKeeps(c: Settings, w: World, steps: seq<Step>)
    requires SettingsOk(c) && Inv(c, w) && Legal(c, w, steps)
    ensures Inv(c, Run(c, w, steps))
    decreases |steps|
  {
    if steps != [] {
      StepKeeps(c, w, steps[0]);
      RunKeeps(c, Next(c, w, steps[0]), steps[1..]);
    }
  }

  /** The outbox protocol, in every state some run reaches. */
  lemma OutboxAlways(c: Settings, steps: seq<Step>, id: RowId)
    requires SettingsOk(c) && Legal(c, INIT, steps)
    ensures var w := Run(c, INIT, steps);
            && (id in w.queued ==> id in w.table && w.table[id].alert == w.queued[id])
            && (id in w.table ==>
                 && (w.table[id].token.Some? <==> w.table[id].status == Publishing)
                 && (w.table[id].status == Published ==> id in w.confirmed)
                 && (w.table[id].status == Failed ==> w.table[id].attempts >= c.maxAttempts)
                 && w.table[id].attempts == w.claimed[id] <= c.maxAttempts + w.recovered[id]
                 && (w.table[id].status == Pending ==> w.claimed[id] < c.maxAttempts + w.recovered[id]))
  {
    InitOk(c);
    RunKeeps(c, INIT, steps);
    var w := Run(c, INIT, steps);
    if id in w.table { assert RowOk(c, w, id); }
  }

  /** Over any stretch of a run rows stay, keep their alert, and are final once published or failed. */
  lemma {:induction false} RunRowsAdvance(c: Settings, w: World, steps: seq<Step>, id: RowId)
    requires SettingsOk(c) && Inv(c, w) && Legal(c, w, steps) && id in w.table
    ensures var w' := Run(c, w, steps);
            && id in w'.table && w'.table[id].alert == w.table[id].alert
            && (w.table[id].status == Published || w.table[id].status == Failed ==> w'.table[id] == w.table[id])
    decreases |steps|
  {
    if steps != [] {
      RowsAdvance(c, w, steps[0], id);
      StepKeeps(c, w, steps[0]);
      RunRowsAdvance(c, Next(c, w, steps[0]), steps[1..], id);
    }
  }

  // ----- progress -----

  /** How many more writes a row can take, if no further claim of it is recovered. */
  function WritesLeft(c: Settings, w: World, id: RowId): int
    requires id in w.table
  {
    var spare := c.maxAttempts + w.recovered[id] - w.table[id].attempts;
    match w.table[id].status
    case Pending => 2 * spare
    case Publishing => 2 * spare + 1
    case _ => 0
  }

  /** Every step that writes a row, other than recovering its claim, uses up its measure. */
  lemma WritesRunOut(c: Settings, w: World, step: Step, id: RowId)
    requires SettingsOk(c) && Inv(c, w) && Enabled(c, w, step) && id in w.table
    ensures id in Next(c, w, step).table && WritesLeft(c, w, id) >= 0
    ensures var w' := Next(c, w, step);
            w'.recovered[id] == w.recovered[id] ==>
              if w'.table[id] == w.table[id] then WritesLeft(c, w', id) == WritesLeft(c, w, id)
              else WritesLeft(c, w', id) < WritesLeft(c, w, id)
  {
    hide Tickets, TokensApart;
    assert RowOk(c, w, id);
    if step.Mark? || step.Retry? {
      assert BatchOk(w, step.p);
      assert TicketOk(w, Head(w, step.p));
      assert RowOk(c, w, Head(w, step.p).id);
    }
  }

  // ----- the bound on attempts is met -----

  lemma {:induction false} RunAppend(c: Settings, w: World, first: seq<Step>, more: seq<Step>)
    requires Legal(c, w, first) && Legal(c, Run(c, w, first), more)
    ensures Legal(c, w, first + more) && Run(c, w, first + more) == Run(c, Run(c, w, first), more)
    decreases |first|
  {
    if first == [] {
      assert first + more == more;
    } else {
      RunAppend(c, Next(c, w, first[0]), first[1..], more);
      assert (first + more)[1..] == first[1..] + more;
    }
  }

  lemma RunOne(c: Settings, w: World, a: Step)
    requires Enabled(c, w, a)
    ensures Legal(c, w, [a]) && Run(c, w, [a]) == Next(c, w, a)
  {
    hide Next, Enabled;
    assert [a][1..] == [];
    assert Legal(c, Next(c, w, a), []) && Run(c, Next(c, w, a), []) == Next(c, w, a);
  }

  /** The one row has failed `m` times and is due again. */
  ghost predicate Waiting(w: World, m: nat) {
    && 0 in w.table && w.table.Keys == {0} && w.table[0].status == Pending && w.table[0].availableAt <= w.now
    && w.table[0].attempts == m && w.claimed[0] == m && w.recovered[0] == 0 && Idle(w, 0)
  }

  /** Publisher 0 holds the one row under a live claim, the `a`-th, and `n` claims were recovered. */
  ghost predicate Live(w: World, a: nat, n: nat) {
    && 0 in w.table && w.table.Keys == {0} && w.table[0].status == Publishing && w.table[0].availableAt <= w.now
    && w.table[0].claimedAt <= w.now && w.table[0].attempts == a && w.claimed[0] == a && w.recovered[0] == n
    && w.nextToken > 0 && At(w, 0, Sending) && w.publishers[0].records == [Ticket(0, a, w.nextToken - 1)]
    && w.table[0].token == Some(w.nextToken - 1)
  }

  lemma ClaimsTheRow(c: Settings, w: World, a: nat, n: nat)
    requires SettingsOk(c) && Idle(w, 0) && w.table.Keys == {0} && w.table[0].availableAt <= w.now
    requires w.table[0].status == Pending || Stale(w.table[0], w.now, c.ttl)
    requires w.table[0].attempts == a && w.claimed[0] == a
    requires w.recovered[0] + (if w.table[0].status == Pending then 0 else 1) == n
    ensures Enabled(c, w, Claim(0, {0})) && Live(Next(c, w, Claim(0, {0})), a + 1, n)
  {
    hide Tickets, TicketsFor;
    var t := Recovered(w.table, w.now, c.ttl);
    var records := Tickets(t, {0}, w.nextToken);
    OneTicket(records, t, w.nextToken);
    assert multiset(StaleRows(w.table, w.now, c.ttl))[0] == if w.table[0].status == Pending then 0 else 1;
    assert records == [records[0]];
  }

  lemma OneTicket(records: seq<Ticket>, t: Table, token: Token)
    requires TicketsFor(records, t, {0}, token) && |records| == 1
    ensures 0 in t && records[0] == Ticket(0, t[0].attempts + 1, token)
  {
  }

  lemma FailsOnce(c: Settings, w: World, m: nat)
    requires SettingsOk(c) && Live(w, m + 1, 0) && m + 1 < c.maxAttempts
    ensures var steps := [Send(0, false), Retry(0, w.now, Sound), Tick(w.now + Delay(c, m + 1))];
            Legal(c, w, steps) && Waiting(Run(c, w, steps), m + 1)
  {
    hide Delay;
    var later := w.now + Delay(c, m + 1);
    var w1 := Next(c, w, Send(0, false));
    var w2 := Next(c, w1, Retry(0, w.now, Sound));
    assert w2.table.Keys == {0};
    RunThree(c, w, Send(0, false), Retry(0, w.now, Sound), Tick(later));
  }

  lemma IsRecovered(c: Settings, w: World, a: nat, n: nat)
    requires SettingsOk(c) && Live(w, a, n)
    ensures var steps := [Crash(0), Tick(w.now + c.ttl + 1), Claim(0, {0})];
            Legal(c, w, steps) && Live(Run(c, w, steps), a + 1, n + 1)
  {
    hide Recovered, Taken, Tickets;
    var w2 := Next(c, Next(c, w, Crash(0)), Tick(w.now + c.ttl + 1));
    ClaimsTheRow(c, w2, a, n + 1);
    RunThree(c, w, Crash(0), Tick(w.now + c.ttl + 1), Claim(0, {0}));
  }

  lemma {:induction false} ReachesWaiting(c: Settings, m: nat) returns (steps: seq<Step>)
    requires SettingsOk(c) && m < c.maxAttempts
    ensures Legal(c, INIT, steps) && Waiting(Run(c, INIT, steps), m)
  {
    hide Next, Enabled, Live, Waiting;
    if m == 0 {
      steps := [Raise(0, 0)];
      RaisesTheRow(c);
      RunOne(c, INIT, Raise(0, 0));
    } else {
      var before := ReachesWaiting(c, m - 1);
      var w := Run(c, INIT, before);
      WaitingIsClaimed(c, w, m - 1);
      RunOne(c, w, Claim(0, {0}));
      RunAppend(c, INIT, before, [Claim(0, {0})]);
      var w' := Run(c, INIT, before + [Claim(0, {0})]);
      FailsOnce(c, w', m - 1);
      var round := [Send(0, false), Retry(0, w'.now, Sound), Tick(w'.now + Delay(c, m))];
      RunAppend(c, INIT, before + [Claim(0, {0})], round);
      steps := before + [Claim(0, {0})] + round;
    }
  }

  lemma RaisesTheRow(c: Settings)
    ensures Enabled(c, INIT, Raise(0, 0)) && Waiting(Next(c, INIT, Raise(0, 0)), 0)
  {
  }

  lemma WaitingIsClaimed(c: Settings, w: World, m: nat)
    requires SettingsOk(c) && Waiting(w, m)
    ensures Enabled(c, w, Claim(0, {0})) && Live(Next(c, w, Claim(0, {0})), m + 1, 0)
  {
    hide Next, Enabled, Live;
    ClaimsTheRow(c, w, m, 0);
  }

  lemma {:induction false} ReachesLive(c: Settings, n: nat) returns (steps: seq<Step>)
    requires SettingsOk(c)
    ensures Legal(c, INIT, steps) && Live(Run(c, INIT, steps), c.maxAttempts + n, n)
  {
    hide Next, Enabled, Live, Waiting;
    if n == 0 {
      var before := ReachesWaiting(c, c.maxAttempts - 1);
      var w := Run(c, INIT, before);
      WaitingIsClaimed(c, w, c.maxAttempts - 1);
      RunOne(c, w, Claim(0, {0}));
      RunAppend(c, INIT, before, [Claim(0, {0})]);
      steps := before + [Claim(0, {0})];
    } else {
      var before := ReachesLive(c, n - 1);
      var w := Run(c, INIT, before);
      IsRecovered(c, w, c.maxAttempts + n - 1, n - 1);
      var round := [Crash(0), Tick(w.now + c.ttl + 1), Claim(0, {0})];
      RunAppend(c, INIT, before, round);
      steps := before + round;
    }
  }

  /**
   The bound of `OutboxAlways` is met exactly: for every configuration and every n some run fails
   all but the last attempt, has n claims recovered, and so claims one row maximum + n times.
   */
  lemma ClaimBoundIsTight(c: Settings, n: nat)
    requires SettingsOk(c)
    ensures exists steps: seq<Step> :: Legal(c, INIT, steps)
              && Run(c, INIT, steps).recovered[0] == n && Run(c, INIT, steps).claimed[0] == c.maxAttempts + n
  {
    var steps := ReachesLive(c, n);
    assert Live(Run(c, INIT, steps), c.maxAttempts + n, n);
  }

  /** In every run at most one publisher holds a row's live claim. */
  lemma OneLiveClaim(c: Settings, steps: seq<Step>, p: PublisherId, p': PublisherId, i: nat, j: nat)
    requires SettingsOk(c) && Legal(c, INIT, steps)
    requires var w := Run(c, INIT, steps);
             && Carries(w, p, i) && Carries(w, p', j)
             && Holds(w.table, w.publishers[p].records[i]) && Holds(w.table, w.publishers[p'].records[j])
             && w.publishers[p].records[i].id == w.publishers[p'].records[j].id
    ensures p == p'
  {
    hide RowOk, BatchOk;
    InitOk(c);
    RunKeeps(c, INIT, steps);
  }

  // ----- backoff -----

  lemma {:induction false} Pow2Grows(m: nat, n: nat)
    requires m <= n
    ensures 1 <= Pow2(m) <= Pow2(n)
  {
    if m < n { Pow2Grows(m, n - 1); } else if 0 < m { Pow2Grows(m - 1, m - 1); }
  }

  lemma ScaleUp(k: nat, x: nat, y: nat)
    requires x <= y
    ensures k * x <= k * y
  {
  }

  /** Retry delays never shrink and stay between the two configured bounds. */
  lemma DelayBounds(c: Settings, a: nat, b: nat)
    requires SettingsOk(c) && a <= b
    ensures c.initialBackoff <= Delay(c, a) <= Delay(c, b) <= c.maxBackoff
  {
    hide Pow2;
    var x, y := Pow2(Max(0, a - 1)), Pow2(Max(0, b - 1));
    Pow2Grows(Max(0, a - 1), Max(0, b - 1));
    Pow2Grows(0, Max(0, a - 1));
    ScaleUp(c.initialBackoff, 1, x);
    ScaleUp(c.initialBackoff, x, y);
  }

  /** The backoff starts at its initial value and doubles with every further attempt up to its maximum. */
  lemma DelayDoubles(c: Settings, a: nat)
    requires SettingsOk(c)
    ensures Delay(c, 0) == Delay(c, 1) == c.initialBackoff
    ensures a > 0 ==> Delay(c, a + 1) == Min(c.maxBackoff, 2 * Delay(c, a))
  {
    assert Pow2(0) == 1 && c.initialBackoff * 1 == c.initialBackoff;
    if a > 0 {
      var p := Pow2(a - 1);
      assert Pow2(a) == 2 * p;
      assert c.initialBackoff * (2 * p) == 2 * (c.initialBackoff * p);
    }
  }

  /** A failed delivery keeps its row from being claimed before the delay has passed. */
  lemma RetryWaits(c: Settings, w: World, steps: seq<Step>, id: RowId)
    requires SettingsOk(c) && Inv(c, w) && Legal(c, w, steps) && id in w.table
    requires w.table[id].status == Pending && Run(c, w, steps).now < w.table[id].availableAt
    ensures id in Run(c, w, steps).table && Run(c, w, steps).table[id] == w.table[id]
    decreases |steps|
  {
    if steps != [] {
      TimeAdvances(c, Next(c, w, steps[0]), steps[1..]);
      StepKeeps(c, w, steps[0]);
      WaitingStays(c, w, steps[0], id);
      RetryWaits(c, Next(c, w, steps[0]), steps[1..], id);
    }
  }

  lemma {:induction false} TimeAdvances(c: Settings, w: World, steps: seq<Step>)
    requires Legal(c, w, steps)
    ensures w.now <= Run(c, w, steps).now
    decreases |steps|
  {
    if steps != [] {
      assert w.now <= Next(c, w, steps[0]).now;
      TimeAdvances(c, Next(c, w, steps[0]), steps[1..]);
    }
  }

  lemma WaitingStays(c: Settings, w: World, step: Step, id: RowId)
    requires Inv(c, w) && Enabled(c, w, step) && id in w.table
    requires w.table[id].status == Pending && w.now < w.table[id].availableAt
    ensures id in Next(c, w, step).table && Next(c, w, step).table[id] == w.table[id]
  {
    hide Tickets, TokensApart, Delay;
    assert RowOk(c, w, id);
  }

  /**
   What `failed` means for the row of a live claim: it is finished exactly at the last allowed
   attempt, and otherwise waits for a time within the configured bounds. No other row changes.
   */
  ghost predicate BackedOff(c: Settings, w: World, w': World, id: RowId, clock: int) {
    && id in w'.table && w'.table - {id} == w.table - {id}
    && w'.table[id].token.None? && w'.table[id].attempts == w.claimed[id]
    && (w'.table[id].status == Failed <==> w.claimed[id] >= c.maxAttempts)
    && (w'.table[id].status == Pending <==> w.claimed[id] < c.maxAttempts)
    && w'.table[id].availableAt == clock + Delay(c, w.claimed[id])
    && clock + c.initialBackoff <= w'.table[id].availableAt <= clock + c.maxBackoff
  }

  lemma FailureBacksOff(c: Settings, w: World, step: Step)
    requires SettingsOk(c) && Inv(c, w) && Enabled(c, w, step) && step.Retry? && step.fault == Sound
    requires Holds(w.table, Head(w, step.p))
    ensures BackedOff(c, w, Next(c, w, step), Head(w, step.p).id, step.clock)
  {
    hide TokensApart, Delay;
    var k := Head(w, step.p);
    assert BatchOk(w, step.p) && TicketOk(w, k) && RowOk(c, w, k.id);
    DelayBounds(c, k.attempts, k.attempts);
  }

  // ----- the same from the start of every run -----

  /** In every run, from any point of it on. */
  lemma RowsInEveryRun(c: Settings, past: seq<Step>, steps: seq<Step>, id: RowId)
    requires SettingsOk(c) && Legal(c, INIT, past) && Legal(c, Run(c, INIT, past), steps)
    requires id in Run(c, INIT, past).table
    ensures var w := Run(c, INIT, past);
            var w' := Run(c, w, steps);
            && (steps != [] ==> RowStep(w, Next(c, w, steps[0]), steps[0], id))
            && id in w'.table && w'.table[id].alert == w.table[id].alert
            && (w.table[id].status == Published || w.table[id].status == Failed ==> w'.table[id] == w.table[id])
            && (w.table[id].status == Pending && w'.now < w.table[id].availableAt ==> w'.table[id] == w.table[id])
  {
    var w := Run(c, INIT, past);
    InitOk(c);
    RunKeeps(c, INIT, past);
    hide Inv, RowStep, Next;
    RunRowsAdvance(c, w, steps, id);
    if steps != [] { RowsAdvance(c, w, steps[0], id); }
    if w.table[id].status == Pending && Run(c, w, steps).now < w.table[id].availableAt {
      RetryWaits(c, w, steps, id);
    }
  }

  lemma FailureInEveryRun(c: Settings, past: seq<Step>, step: Step)
    requires SettingsOk(c) && Legal(c, INIT, past)
    requires Enabled(c, Run(c, INIT, past), step) && step.Retry? && step.fault == Sound
    requires var w := Run(c, INIT, past); Holds(w.table, Head(w, step.p))
    ensures var w := Run(c, INIT, past);
            BackedOff(c, w, Next(c, w, step), Head(w, step.p).id, step.clock)
  {
    InitOk(c);
    RunKeeps(c, INIT, past);
    FailureBacksOff(c, Run(c, INIT, past), step);
  }

  // ----- claims in every run -----

  /**
   What a step means for the rows, on its own terms. A claim leaves a row alone unless it is free;
   `published` by the holder publishes the row and nothing else; everything but a claim, a mark or
   a retry leaves existing rows as they are.
   */
  lemma StepMeans(c: Settings, w: World, step: Step, id: RowId)
    requires Enabled(c, w, step) && id in w.table
    ensures id in Next(c, w, step).table
    ensures var row, row' := w.table[id], Next(c, w, step).table[id];
            && (step.Claim? ==> ClaimLeaves(row, row', w.now, c.ttl, id in step.picked, w.nextToken))
            && (step.Mark? && id == Head(w, step.p).id && step.fault != NotApplied
                && row.status == Publishing && row.token == Some(Head(w, step.p).token) ==>
                  row' == row.(status := Published, token := None))
            && ((step.Mark? || step.Retry?) && id != Head(w, step.p).id ==> row' == row)
            && ((step.Mark? || step.Retry?) && step.fault == NotApplied ==> row' == row)
            && (!step.Claim? && !step.Mark? && !step.Retry? ==> row' == row)
  {
    hide Delay, Tickets, StaleRows;
    if step.Claim? { ClaimTreats(w.table, step.picked, w.now, c.ttl, w.nextToken); }
  }

  /** The holder of the row's claim settles it in this step. */
  predicate Settles(w: World, step: Step, id: RowId) {
    && (step.Mark? || step.Retry?) && step.p in w.publishers && w.publishers[step.p].records != []
    && Head(w, step.p).id == id && Holds(w.table, Head(w, step.p))
  }

  ghost predicate NobodySettles(c: Settings, w: World, steps: seq<Step>, id: RowId)
    requires Legal(c, w, steps)
    decreases |steps|
  {
    steps == [] || (!Settles(w, steps[0], id) && NobodySettles(c, Next(c, w, steps[0]), steps[1..], id))
  }

  /**
   A live claim stands: until the ttl has passed since the claim, only its holder can change the
   row, whatever other publishers claim, crash or report in the meantime.
   */
  lemma {:induction false} LiveClaimStands(c: Settings, w: World, steps: seq<Step>, id: RowId)
    requires Legal(c, w, steps) && id in w.table && w.table[id].status == Publishing
    requires Run(c, w, steps).now <= w.table[id].claimedAt + c.ttl
    requires NobodySettles(c, w, steps, id)
    ensures id in Run(c, w, steps).table && Run(c, w, steps).table[id] == w.table[id]
    decreases |steps|
  {
    if steps != [] {
      TimeAdvances(c, w, [steps[0]]);
      TimeAdvances(c, Next(c, w, steps[0]), steps[1..]);
      UnsettledStays(c, w, steps[0], id);
      LiveClaimStands(c, Next(c, w, steps[0]), steps[1..], id);
    }
  }

  lemma UnsettledStays(c: Settings, w: World, step: Step, id: RowId)
    requires Enabled(c, w, step) && id in w.table && w.table[id].status == Publishing
    requires w.now <= w.table[id].claimedAt + c.ttl && !Settles(w, step, id)
    ensures id in Next(c, w, step).table && Next(c, w, step).table[id] == w.table[id]
  {
    hide Delay, Tickets, StaleRows, Taken, Recovered;
    StepMeans(c, w, step, id);
  }

  /** The same from the start of every run, with what a claim does to every row. */
  lemma ClaimsInEveryRun(c: Settings, past: seq<Step>, p: PublisherId, picked: set<RowId>, steps: seq<Step>, id: RowId)
    requires SettingsOk(c) && Legal(c, INIT, past) && id in Run(c, INIT, past).table
    ensures var w := Run(c, INIT, past);
            Enabled(c, w, Claim(p, picked)) ==>
              var w' := Next(c, w, Claim(p, picked));
              id in w'.table && ClaimLeaves(w.table[id], w'.table[id], w.now, c.ttl, id in picked, w.nextToken)
    ensures var w := Run(c, INIT, past);
            && Legal(c, w, steps) && w.table[id].status == Publishing && NobodySettles(c, w, steps, id)
            && Run(c, w, steps).now <= w.table[id].claimedAt + c.ttl ==>
              id in Run(c, w, steps).table && Run(c, w, steps).table[id] == w.table[id]
  {
    var w := Run(c, INIT, past);
    if Enabled(c, w, Claim(p, picked)) { StepMeans(c, w, Claim(p, picked), id); }
    if && Legal(c, w, steps) && w.table[id].status == Publishing && NobodySettles(c, w, steps, id)
       && Run(c, w, steps).now <= w.table[id].claimedAt + c.ttl {
      LiveClaimStands(c, w, steps, id);
    }
  }
}
