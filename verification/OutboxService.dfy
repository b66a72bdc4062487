/** The outbox repository as it updates its table, and the service's batch loop over it. */
module OutboxService {
  import opened Prelude
  import opened Outbox

  datatype Answer = Answer(confirmed: bool, mark: Fault, clock: int)

  /** What dealing with one claimed record does to the table. */
  function Handled(c: Settings, t: Table, k: Ticket, a: Answer): Table {
    if !a.confirmed then Failing(c, t, k, a.clock)
    else if a.mark == Sound && MayMark(t, k) then Marked(t, k)
    else Failing(c, if a.mark == NotApplied then t else Marked(t, k), k, a.clock)
  }

  predicate Succeeds(t: Table, k: Ticket, a: Answer) {
    a.confirmed && a.mark == Sound && MayMark(t, k)
  }

  function AllHandled(c: Settings, t: Table, records: seq<Ticket>, answers: seq<Answer>): Table
    requires |records| <= |answers|
  {
    if records == [] then t
    else
      var n := |records| - 1;
      Handled(c, AllHandled(c, t, records[..n], answers), records[n], answers[n])
  }

  /** The steps one publisher takes for its first record. */
  function Steps(t: Table, p: PublisherId, k: Ticket, a: Answer): seq<Step> {
    if !a.confirmed then [Send(p, false), Retry(p, a.clock, Sound)]
    else if Succeeds(t, k, a) then [Send(p, true), Mark(p, Sound)]
    else [Send(p, true), Mark(p, a.mark), Retry(p, a.clock, Sound)]
  }

  /** The service's treatment of a record is a run of the protocol. */
  lemma HandlingIsARun(c: Settings, w: World, p: PublisherId, a: Answer)
    requires SettingsOk(c) && At(w, p, Sending)
    ensures var k := Head(w, p);
            var steps := Steps(w.table, p, k, a);
            && Legal(c, w, steps)
            && Run(c, w, steps).table == Handled(c, w.table, k, a)
            && Run(c, w, steps).publishers == w.publishers[p := Batch(w.publishers[p].records[1..], Sending)]
            && Run(c, w, steps).confirmed == if a.confirmed then w.confirmed + {k.id} else w.confirmed
  {
    hide Delay, Tickets, Recovered, Taken, StaleRows;
    var k := Head(w, p);
    var steps := Steps(w.table, p, k, a);
    var w1 := Next(c, w, steps[0]);
    var w2 := Next(c, w1, steps[1]);
    assert Head(w1, p) == k && Enabled(c, w1, steps[1]);
    if |steps| == 2 {
      RunTwo(c, w, steps[0], steps[1]);
    } else {
      assert Head(w2, p) == k && Enabled(c, w2, steps[2]);
      RunThree(c, w, steps[0], steps[1], steps[2]);
    }
  }

  /** If the acknowledgement of `published` is lost, the retry that follows cannot undo it. */
  lemma LostAcknowledgementIsHarmless(c: Settings, t: Table, k: Ticket, clock: int)
    requires MayMark(t, k)
    ensures Handled(c, t, k, Answer(true, AnswerLost, clock)) == Marked(t, k)
    ensures Marked(t, k)[k.id].status == Published
  {
  }

  // ----- what becomes of the rows of a batch -----

  datatype Ending = Delivered | GivenUp | ToRetry

  /** How the service counts a record it holds the claim of. */
  function EndingOf(c: Settings, k: Ticket, a: Answer): Ending {
    if a.confirmed && a.mark == Sound then Delivered
    else if k.attempts >= c.maxAttempts then GivenUp
    else ToRetry
  }

  /** How many of the records end so. */
  function Ended(c: Settings, records: seq<Ticket>, answers: seq<Answer>, kind: Ending): nat
    requires |records| <= |answers|
  {
    if records == [] then 0
    else
      var n := |records| - 1;
      Ended(c, records[..n], answers, kind) + if EndingOf(c, records[n], answers[n]) == kind then 1 else 0
  }

  /**
   The row of a record once it is settled: published if the delivery was confirmed and `published`
   took effect, even when its answer was lost; otherwise given up at the last attempt, or pending
   again after the delay.
   */
  predicate SettledAs(c: Settings, k: Ticket, a: Answer, row: Row, row': Row) {
    if a.confirmed && a.mark != NotApplied then row' == row.(status := Published, token := None)
    else row' == row.(status := if k.attempts >= c.maxAttempts then Failed else Pending, token := None,
                      availableAt := a.clock + Delay(c, k.attempts))
  }

  lemma HandledSettles(c: Settings, t: Table, k: Ticket, a: Answer)
    requires MayMark(t, k)
    ensures Handled(c, t, k, a).Keys == t.Keys && SettledAs(c, k, a, t[k.id], Handled(c, t, k, a)[k.id])
    ensures forall id :: id in t && id != k.id ==> Handled(c, t, k, a)[id] == t[id]
    ensures Succeeds(t, k, a) <==> EndingOf(c, k, a) == Delivered
  {
    hide Delay;
  }

  ghost predicate AllHeld(t: Table, records: seq<Ticket>) {
    && (forall i :: 0 <= i < |records| ==> MayMark(t, records[i]))
    && (forall i, j :: 0 <= i < j < |records| ==> records[i].id != records[j].id)
  }

  /** Every row of a batch is settled by its own record's answers, and no other row changes. */
  lemma {:induction false} BatchSettles(c: Settings, t: Table, records: seq<Ticket>, answers: seq<Answer>)
    requires |records| <= |answers| && AllHeld(t, records)
    ensures var t' := AllHandled(c, t, records, answers);
            && t'.Keys == t.Keys
            && (forall i :: 0 <= i < |records| ==> SettledAs(c, records[i], answers[i], t[records[i].id], t'[records[i].id]))
            && (forall id :: id in t && (forall i :: 0 <= i < |records| ==> records[i].id != id) ==> t'[id] == t[id])
  {
    hide Handled, SettledAs;
    if records != [] {
      var n := |records| - 1;
      BatchSettles(c, t, records[..n], answers);
      var before := AllHandled(c, t, records[..n], answers);
      assert before[records[n].id] == t[records[n].id];
      HandledSettles(c, before, records[n], answers[n]);
      forall i | 0 <= i < n
        ensures SettledAs(c, records[i], answers[i], t[records[i].id], AllHandled(c, t, records, answers)[records[i].id])
      {
        assert records[..n][i] == records[i];
      }
    }
  }

  function Ids(records: seq<Ticket>): set<RowId> {
    set k | k in records :: k.id
  }

  function SetOf(ids: seq<RowId>): set<RowId> {
    set id | id in ids
  }

  /** Oldest due rows first, and none left behind while the batch has room. */
  ghost predicate OldestDue(t: Table, now: int, picked: set<RowId>, batch: nat) {
    && (forall id :: id in picked ==> id in t && Due(t[id], now))
    && |picked| <= batch
    && (forall id :: id in t && Due(t[id], now) && id !in picked ==> |picked| == batch && forall x :: x in picked ==> x < id)
  }

  /** The same on the claims the rows carry: the oldest free rows. */
  ghost predicate OldestFree(t: Table, now: int, ttl: nat, picked: set<RowId>, batch: nat) {
    && (forall id :: id in picked ==> id in t && Free(t[id], now, ttl))
    && |picked| <= batch
    && (forall id :: id in t && Free(t[id], now, ttl) && id !in picked ==> |picked| == batch && forall x :: x in picked ==> x < id)
  }

  /** What `claim` makes of the table, row by row. */
  ghost predicate ClaimedRows(t: Table, t': Table, now: int, ttl: nat, picked: set<RowId>, token: Token) {
    t'.Keys == t.Keys && forall id :: id in t ==> ClaimLeaves(t[id], t'[id], now, ttl, id in picked, token)
  }

  lemma ClaimMeans(t: Table, now: int, ttl: nat, picked: set<RowId>, batch: nat, token: Token)
    requires OldestDue(Recovered(t, now, ttl), now, picked, batch)
    ensures OldestFree(t, now, ttl, picked, batch)
    ensures ClaimedRows(t, Taken(Recovered(t, now, ttl), picked, now, token), now, ttl, picked, token)
  {
    hide Due, Free, ClaimLeaves, Taken;
    RecoveredKeys(t, now, ttl);
    ClaimTreats(t, picked, now, ttl, token);
  }

  /** The claim's tickets are for rows it now holds. */
  lemma ClaimIsHeld(t: Table, records: seq<Ticket>, now: int, token: Token)
    requires TicketsFor(records, t, Ids(records), token)
    requires Ascending(seq(|records|, i requires 0 <= i < |records| => records[i].id))
    ensures AllHeld(Taken(t, Ids(records), now, token), records)
  {
    var ids := seq(|records|, i requires 0 <= i < |records| => records[i].id);
    forall i, j | 0 <= i < j < |records| ensures records[i].id != records[j].id {
      assert ids[i] < ids[j];
    }
  }

  predicate Ascending(ids: seq<RowId>) {
    forall i, j :: 0 <= i < j < |ids| ==> ids[i] < ids[j]
  }

  lemma RecoveredKeys(t: Table, now: int, ttl: nat)
    ensures Recovered(t, now, ttl).Keys == t.Keys
  {
  }

  lemma TakenKeys(t: Table, picked: set<RowId>, now: int, token: Token)
    ensures Taken(t, picked, now, token).Keys == t.Keys
  {
  }

  lemma DueKeys(t: Table, now: int, picked: set<RowId>, batch: nat)
    requires OldestDue(t, now, picked, batch)
    ensures picked <= t.Keys && |picked| <= batch
  {
  }

  lemma SameIds(records: seq<Ticket>, ids: seq<RowId>)
    requires |records| == |ids| && forall j :: 0 <= j < |ids| ==> records[j].id == ids[j]
    ensures Ids(records) == SetOf(ids)
    ensures forall id :: id in SetOf(ids) ==> exists j :: 0 <= j < |records| && records[j].id == id
  {
    forall id | id in SetOf(ids)
      ensures id in Ids(records) && exists j :: 0 <= j < |records| && records[j].id == id
    {
      var j :| 0 <= j < |ids| && ids[j] == id;
      assert records[j] in records && records[j].id == id;
    }
  }

  class OutboxRepository {
    var rows: Table
    var order: seq<RowId>

    ghost predicate Valid()
      reads this
    {
      Ascending(order) && forall id :: id in rows <==> id in order
    }

    constructor ()
      ensures Valid() && rows == map[]
    {
      rows, order := map[], [];
    }

    /** The row inserted in the transaction that raises the alert. */
    method Insert(id: RowId, alert: nat, now: int)
      requires Valid() && forall x :: x in rows ==> x < id
      modifies this
      ensures Valid() && rows == old(rows)[id := Row(alert, Pending, None, 0, 0, now)]
    {
      forall i | 0 <= i < |order| ensures order[i] < id {
        assert order[i] in rows;
      }
      rows := rows[id := Row(alert, Pending, None, 0, 0, now)];
      order := order + [id];
    }

    /** The SELECT of `claim`. */
    method SelectDue(now: int, batch: nat) returns (ids: seq<RowId>)
      requires Valid()
      ensures Ascending(ids) && OldestDue(rows, now, SetOf(ids), batch)
    {
      ids := [];
      var i := 0;
      while i < |order| && |ids| < batch
        invariant 0 <= i <= |order| && |ids| <= batch && Ascending(ids)
        invariant forall x :: x in ids ==> x in rows && Due(rows[x], now)
        invariant forall j, x :: i <= j < |order| && x in ids ==> x < order[j]
        invariant forall j :: 0 <= j < i && Due(rows[order[j]], now) ==> order[j] in ids
      {
        if Due(rows[order[i]], now) {
          forall j | 0 <= j < |ids| ensures ids[j] < order[i] {
            assert ids[j] in ids;
          }
          ids := ids + [order[i]];
        }
        i := i + 1;
      }
      Distinct(ids);
      forall id | id in rows && Due(rows[id], now) && id !in ids
        ensures |ids| == batch && forall x :: x in ids ==> x < id
      {
        var j :| 0 <= j < |order| && order[j] == id;
        assert i <= j;
      }
    }

    /** `claim`: recover old claims, then take a batch under a new token. */
    method Claim(c: Settings, now: int, token: Token) returns (records: seq<Ticket>)
      requires Valid()
      modifies this`rows
      ensures Valid() && OldestDue(Recovered(old(rows), now, c.ttl), now, Ids(records), c.batch)
      ensures rows == Taken(Recovered(old(rows), now, c.ttl), Ids(records), now, token)
      ensures OldestFree(old(rows), now, c.ttl, Ids(records), c.batch)
      ensures ClaimedRows(old(rows), rows, now, c.ttl, Ids(records), token)
      ensures TicketsFor(records, Recovered(old(rows), now, c.ttl), Ids(records), token)
      ensures Ascending(seq(|records|, i requires 0 <= i < |records| => records[i].id))
    {
      hide Recovered, Taken, OldestDue, Ascending, OldestFree, ClaimedRows;
      rows := Recovered(rows, now, c.ttl);
      RecoveredKeys(old(rows), now, c.ttl);
      var ids := SelectDue(now, c.batch);
      DueKeys(rows, now, SetOf(ids), c.batch);
      records := [];
      for i := 0 to |ids|
        invariant |records| == i
        invariant forall j :: 0 <= j < i ==> records[j] == Ticket(ids[j], rows[ids[j]].attempts + 1, token)
      {
        assert ids[i] in SetOf(ids);
        records := records + [Ticket(ids[i], rows[ids[i]].attempts + 1, token)];
      }
      SameIds(records, ids);
      assert seq(|records|, i requires 0 <= i < |records| => records[i].id) == ids;
      TakenKeys(rows, SetOf(ids), now, token);
      ClaimMeans(old(rows), now, c.ttl, SetOf(ids), c.batch, token);
      rows := Taken(rows, SetOf(ids), now, token);
    }

    /** `published`; false stands for the exception that reports a lost claim. */
    method MarkPublished(k: Ticket) returns (ok: bool)
      requires Valid()
      modifies this`rows
      ensures Valid() && rows == Marked(old(rows), k) && ok == MayMark(old(rows), k)
    {
      ok := k.id in rows && rows[k.id].status == Publishing && rows[k.id].token == Some(k.token);
      if ok {
        rows := rows[k.id := rows[k.id].(status := Published, token := None)];
      }
    }

    /** `failed` */
    method MarkFailed(c: Settings, k: Ticket, clock: int)
      requires Valid()
      modifies this`rows
      ensures Valid() && rows == Failing(c, old(rows), k, clock)
    {
      var permanent := k.attempts >= c.maxAttempts;
      if k.id in rows && rows[k.id].token == Some(k.token) {
        rows := rows[k.id := rows[k.id].(status := if permanent then Failed else Pending, token := None,
                                         availableAt := clock + Delay(c, k.attempts))];
      }
    }
  }

  lemma {:induction false} Distinct(ids: seq<RowId>)
    requires Ascending(ids)
    ensures |SetOf(ids)| == |ids|
  {
    if ids != [] {
      var n := |ids| - 1;
      Distinct(ids[..n]);
      assert SetOf(ids) == SetOf(ids[..n]) + {ids[n]} by {
        assert ids == ids[..n] + [ids[n]];
      }
      assert ids[n] !in ids[..n];
    } else {
      assert SetOf(ids) == {};
    }
  }

  lemma BatchFits(records: seq<Ticket>, t: Table, now: int, batch: nat)
    requires Ascending(seq(|records|, i requires 0 <= i < |records| => records[i].id))
    requires OldestDue(t, now, Ids(records), batch)
    ensures |records| <= batch
  {
    var ids := seq(|records|, i requires 0 <= i < |records| => records[i].id);
    Distinct(ids);
    SameIds(records, ids);
  }

  /** Each record's row is settled as its answers say; the others stay. */
  ghost predicate RowsSettled(c: Settings, t: Table, t': Table, records: seq<Ticket>, answers: seq<Answer>)
    requires |records| <= |answers|
  {
    && t'.Keys == t.Keys
    && (forall i :: 0 <= i < |records| ==> records[i].id in t && SettledAs(c, records[i], answers[i], t[records[i].id], t'[records[i].id]))
    && (forall id :: id in t && (forall i :: 0 <= i < |records| ==> records[i].id != id) ==> t'[id] == t[id])
  }

  lemma RowsAreSettled(c: Settings, t: Table, records: seq<Ticket>, answers: seq<Answer>)
    requires |records| <= |answers| && AllHeld(t, records)
    ensures RowsSettled(c, t, AllHandled(c, t, records, answers), records, answers)
  {
    hide SettledAs;
    BatchSettles(c, t, records, answers);
  }

  /** A record's claim is untouched while the records before it are settled. */
  lemma StillHeld(c: Settings, t: Table, records: seq<Ticket>, answers: seq<Answer>, i: nat)
    requires i < |records| <= |answers| && AllHeld(t, records)
    ensures var now := AllHandled(c, t, records[..i], answers);
            MayMark(now, records[i]) && (Succeeds(now, records[i], answers[i]) <==> EndingOf(c, records[i], answers[i]) == Delivered)
  {
    hide Handled, SettledAs;
    BatchSettles(c, t, records[..i], answers);
    var now := AllHandled(c, t, records[..i], answers);
    assert now[records[i].id] == t[records[i].id];
    HandledSettles(c, now, records[i], answers[i]);
  }

  lemma CountedAs(c: Settings, t: Table, k: Ticket, a: Answer, published: bool)
    requires published <==> EndingOf(c, k, a) == Delivered
    ensures EndingOf(c, k, a) == if published then Delivered else if k.attempts >= c.maxAttempts then GivenUp else ToRetry
  {
  }

  class OutboxService {
    const c: Settings
    const repository: OutboxRepository
    var rowsClaimed: nat
    var alertsPublished: nat
    var publishRetries: nat
    var permanentFailures: nat

    ghost predicate Valid()
      reads this, repository
    {
      repository.Valid() && rowsClaimed == alertsPublished + publishRetries + permanentFailures
    }

    constructor (c: Settings)
      ensures Valid() && fresh(repository) && this.c == c && repository.rows == map[]
    {
      this.c := c;
      repository := new OutboxRepository();
      rowsClaimed, alertsPublished, publishRetries, permanentFailures := 0, 0, 0, 0;
    }

    /**
     One turn of `run`: claim the oldest free rows, then deliver each record and settle its row.
     Each counter grows by the records that end its way, and every row claimed ends as its own
     record's answers say.
     */
    method RunBatch(now: int, token: Token, answers: seq<Answer>) returns (records: seq<Ticket>)
      requires Valid() && c.batch <= |answers|
      modifies this, repository
      ensures Valid() && |records| <= |answers|
      ensures rowsClaimed == old(rowsClaimed) + |records|
      ensures alertsPublished == old(alertsPublished) + Ended(c, records, answers, Delivered)
      ensures permanentFailures == old(permanentFailures) + Ended(c, records, answers, GivenUp)
      ensures publishRetries == old(publishRetries) + Ended(c, records, answers, ToRetry)
      ensures var recovered := Recovered(old(repository.rows), now, c.ttl);
              && OldestDue(recovered, now, Ids(records), c.batch)
              && repository.rows == AllHandled(c, Taken(recovered, Ids(records), now, token), records, answers)
      ensures OldestFree(old(repository.rows), now, c.ttl, Ids(records), c.batch)
      ensures exists taken: Table ::
                && ClaimedRows(old(repository.rows), taken, now, c.ttl, Ids(records), token)
                && RowsSettled(c, taken, repository.rows, records, answers)
    {
      hide Recovered, Taken, OldestDue, OldestFree, ClaimedRows, TicketsFor, Handled, Succeeds, EndingOf, Ascending;
      hide AllHeld, RowsSettled, Ids;
      records := repository.Claim(c, now, token);
      ghost var taken := repository.rows;
      BatchFits(records, Recovered(old(repository.rows), now, c.ttl), now, c.batch);
      ClaimIsHeld(Recovered(old(repository.rows), now, c.ttl), records, now, token);
      for i := 0 to |records|
        invariant repository.Valid()
        invariant repository.rows == AllHandled(c, taken, records[..i], answers)
        invariant alertsPublished == old(alertsPublished) + Ended(c, records[..i], answers, Delivered)
        invariant permanentFailures == old(permanentFailures) + Ended(c, records[..i], answers, GivenUp)
        invariant publishRetries == old(publishRetries) + Ended(c, records[..i], answers, ToRetry)
        invariant alertsPublished + publishRetries + permanentFailures == old(rowsClaimed) + i
        invariant rowsClaimed == old(rowsClaimed)
      {
        assert records[..i + 1][..i] == records[..i];
        StillHeld(c, taken, records, answers, i);
        var published := Deliver(records[i], answers[i]);
        CountedAs(c, repository.rows, records[i], answers[i], published);
        if published {
          alertsPublished := alertsPublished + 1;
        } else if records[i].attempts >= c.maxAttempts {
          permanentFailures := permanentFailures + 1;
        } else {
          publishRetries := publishRetries + 1;
        }
      }
      assert records[..|records|] == records;
      RowsAreSettled(c, taken, records, answers);
      rowsClaimed := rowsClaimed + |records|;
    }

    /** Deliver one record and settle its row; any exception on the way leads to `failed`. */
    method Deliver(k: Ticket, a: Answer) returns (published: bool)
      requires repository.Valid()
      modifies repository
      ensures repository.Valid() && repository.rows == Handled(c, old(repository.rows), k, a)
      ensures published == Succeeds(old(repository.rows), k, a)
    {
      published := false;
      if a.confirmed && a.mark != NotApplied {
        var ok := repository.MarkPublished(k);
        published := ok && a.mark == Sound;
      }
      if !published {
        repository.MarkFailed(c, k, a.clock);
      }
    }
  }
}
