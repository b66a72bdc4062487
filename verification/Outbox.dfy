/**
 The transactional outbox: rows claimed under a fencing token, recovered when the claim grows
 old, and published or retried with a bounded number of attempts. Several publishers share one
 table; each call of the repository is one transaction and so one step.
 */
module Outbox {
  import opened Prelude

  type RowId = nat
  type Token = nat
  type PublisherId = nat

  datatype Status = Pending | Publishing | Published | Failed

  datatype Row = Row(alert: nat, status: Status, token: Option<Token>, claimedAt: int, attempts: nat, availableAt: int)

  type Table = map<RowId, Row>

  /** `OutboxRecord`: what a publisher remembers of a claim. `attempts` includes the claim itself. */
  datatype Ticket = Ticket(id: RowId, attempts: nat, token: Token)

  datatype Settings = Settings(batch: nat, maxAttempts: nat, initialBackoff: nat, maxBackoff: nat, ttl: nat)

  predicate SettingsOk(c: Settings) {
    c.batch > 0 && 0 < c.maxAttempts && c.initialBackoff <= c.maxBackoff && c.ttl > 0
  }

  // ----- one transaction -----

  predicate Stale(row: Row, now: int, ttl: nat) {
    row.status == Publishing && row.claimedAt < now - ttl
  }

  function StaleRows(t: Table, now: int, ttl: nat): set<RowId> {
    set id | id in t && Stale(t[id], now, ttl)
  }

  function Recovered(t: Table, now: int, ttl: nat): Table {
    map id | id in t :: if Stale(t[id], now, ttl) then t[id].(status := Pending, token := None) else t[id]
  }

  predicate Due(row: Row, now: int) {
    row.status == Pending && row.availableAt <= now
  }

  function Taken(t: Table, picked: set<RowId>, now: int, token: Token): Table {
    map id | id in t ::
      if id in picked then t[id].(status := Publishing, token := Some(token), claimedAt := now, attempts := t[id].attempts + 1)
      else t[id]
  }

  /**
   What a claim at `now` may do to a row, on the time of the claim it carries: a claim that is not
   older than the ttl stands, an older one is given up or taken over, and of the pending rows only
   available ones are taken. Final rows stay.
   */
  predicate ClaimLeaves(row: Row, row': Row, now: int, ttl: nat, taken: bool, token: Token) {
    var mine := row.(status := Publishing, token := Some(token), claimedAt := now, attempts := row.attempts + 1);
    match row.status
    case Pending => if taken then row.availableAt <= now && row' == mine else row' == row
    case Publishing =>
      if now <= row.claimedAt + ttl then row' == row && !taken
      else if taken then row.availableAt <= now && row' == mine
      else row' == row.(status := Pending, token := None)
    case _ => row' == row && !taken
  }

  /** A row a claim may take: pending, or claimed too long ago. */
  predicate Free(row: Row, now: int, ttl: nat) {
    row.availableAt <= now && (row.status == Pending || (row.status == Publishing && row.claimedAt + ttl < now))
  }

  /** A claim of due rows treats every row so. */
  lemma ClaimTreats(t: Table, picked: set<RowId>, now: int, ttl: nat, token: Token)
    requires forall id :: id in picked ==> id in t && Due(Recovered(t, now, ttl)[id], now)
    ensures Taken(Recovered(t, now, ttl), picked, now, token).Keys == t.Keys
    ensures forall id :: id in t ==>
              ClaimLeaves(t[id], Taken(Recovered(t, now, ttl), picked, now, token)[id], now, ttl, id in picked, token)
    ensures forall id :: id in t ==> (Due(Recovered(t, now, ttl)[id], now) <==> Free(t[id], now, ttl))
  {
  }

  predicate Holds(t: Table, k: Ticket) {
    k.id in t && t[k.id].token == Some(k.token)
  }

  predicate MayMark(t: Table, k: Ticket) {
    Holds(t, k) && t[k.id].status == Publishing
  }

  /** `published`; a lost claim raises and so changes nothing. */
  function Marked(t: Table, k: Ticket): Table {
    if MayMark(t, k) then t[k.id := t[k.id].(status := Published, token := None)] else t
  }

  function Pow2(n: nat): nat {
    if n == 0 then 1 else 2 * Pow2(n - 1)
  }

  function Delay(c: Settings, attempts: nat): nat {
    Min(c.maxBackoff, c.initialBackoff * Pow2(Max(0, attempts - 1)))
  }

  /** `failed`: guarded by the token alone. `clock` is the publisher's own time. */
  function Failing(c: Settings, t: Table, k: Ticket, clock: int): Table {
    if Holds(t, k) then
      t[k.id := t[k.id].(status := if k.attempts >= c.maxAttempts then Failed else Pending,
                         token := None, availableAt := clock + Delay(c, k.attempts))]
    else t
  }

  // ----- several publishers -----

  datatype Stage = Sending | Marking | Retrying

  /** The records a publisher has claimed and not yet dealt with; the stage is the first one's. */
  datatype Batch = Batch(records: seq<Ticket>, stage: Stage)

  /** `queued`, `claimed` and `recovered` only record history. */
  datatype World = World(
    now: int,
    table: Table,
    confirmed: set<RowId>,   // rows whose delivery Kafka has confirmed
    publishers: map<PublisherId, Batch>,
    nextToken: Token,
    queued: map<RowId, nat>, // alerts committed together with an outbox row
    claimed: multiset<RowId>,
    recovered: multiset<RowId>)

  const INIT := World(0, map[], {}, map[], 0, map[], multiset{}, multiset{})

  datatype Fault = Sound | NotApplied | AnswerLost

  datatype Step =
    | Raise(id: RowId, alert: nat)
    | Tick(now: int)
    | Claim(p: PublisherId, picked: set<RowId>)
    | Send(p: PublisherId, confirmed: bool)
    | Mark(p: PublisherId, fault: Fault)
    | Retry(p: PublisherId, clock: int, fault: Fault)
    | Crash(p: PublisherId)

  predicate At(w: World, p: PublisherId, stage: Stage) {
    p in w.publishers && w.publishers[p].records != [] && w.publishers[p].stage == stage
  }

  predicate Idle(w: World, p: PublisherId) {
    p !in w.publishers || w.publishers[p].records == []
  }

  /** `picked` is any batch of due rows: other transactions may hold the locks of the rest. */
  predicate Enabled(c: Settings, w: World, step: Step) {
    match step
    case Raise(id, _) => id !in w.table
    case Tick(now) => w.now <= now
    case Claim(p, picked) =>
      var t := Recovered(w.table, w.now, c.ttl);
      Idle(w, p) && |picked| <= c.batch && forall id :: id in picked ==> id in t && Due(t[id], w.now)
    case Send(p, _) => At(w, p, Sending)
    case Mark(p, _) => At(w, p, Marking)
    case Retry(p, _, _) => At(w, p, Retrying)
    case Crash(p) => p in w.publishers
  }

  /** The tickets of a claim, in any order. */
  ghost predicate TicketsFor(records: seq<Ticket>, t: Table, picked: set<RowId>, token: Token) {
    && (forall i :: 0 <= i < |records| ==> records[i].id in picked && records[i].id in t)
    && (forall i :: 0 <= i < |records| && records[i].id in t ==> records[i] == Ticket(records[i].id, t[records[i].id].attempts + 1, token))
    && (forall id :: id in picked ==> exists i :: 0 <= i < |records| && records[i].id == id)
  }

  function Least(s: set<RowId>): (m: RowId)
    requires s != {}
    ensures m in s && forall x :: x in s ==> m <= x
  {
    LeastExists(s);
    var m :| m in s && forall x :: x in s ==> m <= x;
    m
  }

  lemma {:induction false} LeastExists(s: set<RowId>)
    requires s != {}
    ensures exists m :: m in s && forall x :: x in s ==> m <= x
    decreases |s|
  {
    var y :| y in s;
    if s == {y} {
      assert y in s && forall x :: x in s ==> y <= x;
    } else {
      LeastExists(s - {y});
      var m :| m in s - {y} && forall x :: x in s - {y} ==> m <= x;
      LeastOfMore(s, y, m);
    }
  }

  lemma LeastOfMore(s: set<RowId>, y: RowId, m: RowId)
    requires y in s && m in s - {y} && forall x :: x in s - {y} ==> m <= x
    ensures exists k :: k in s && forall x :: x in s ==> k <= x
  {
    var k := if m <= y then m else y;
    forall x | x in s ensures k <= x {
      assert x == y || x in s - {y};
    }
    assert k in s;
  }

  /** Row identifiers follow creation order. */
  function Tickets(t: Table, picked: set<RowId>, token: Token): (records: seq<Ticket>)
    requires picked <= t.Keys
    ensures TicketsFor(records, t, picked, token) && |records| == |picked|
    decreases |picked|
  {
    if picked == {} then []
    else
      var id := Least(picked);
      var rest := Tickets(t, picked - {id}, token);
      var records := [Ticket(id, t[id].attempts + 1, token)] + rest;
      assert forall x :: x in picked ==> exists i :: 0 <= i < |records| && records[i].id == x by {
        forall x | x in picked ensures exists i :: 0 <= i < |records| && records[i].id == x {
          if x == id {
            assert records[0].id == x;
          } else {
            assert x in picked - {id};
            var i :| 0 <= i < |rest| && rest[i].id == x;
            assert records[i + 1].id == x;
          }
        }
      }
      records
  }

  function Put(w: World, p: PublisherId, b: Batch): World {
    w.(publishers := w.publishers[p := b])
  }

  function Advance(w: World, p: PublisherId): World
    requires p in w.publishers && w.publishers[p].records != []
  {
    Put(w, p, Batch(w.publishers[p].records[1..], Sending))
  }

  function Head(w: World, p: PublisherId): Ticket
    requires p in w.publishers && w.publishers[p].records != []
  {
    w.publishers[p].records[0]
  }

  function StageTo(w: World, p: PublisherId, stage: Stage): World
    requires p in w.publishers
  {
    Put(w, p, w.publishers[p].(stage := stage))
  }

  function Next(c: Settings, w: World, step: Step): World
    requires Enabled(c, w, step)
  {
    match step
    case Raise(id, alert) =>
      w.(table := w.table[id := Row(alert, Pending, None, 0, 0, w.now)], queued := w.queued[id := alert])
    case Tick(now) => w.(now := now)
    case Claim(p, picked) =>
      var t := Recovered(w.table, w.now, c.ttl);
      Put(w, p, Batch(Tickets(t, picked, w.nextToken), Sending))
        .(table := Taken(t, picked, w.now, w.nextToken), nextToken := w.nextToken + 1,
          claimed := w.claimed + multiset(picked),
          recovered := w.recovered + multiset(StaleRows(w.table, w.now, c.ttl)))
    case Send(p, confirmed) =>
      if confirmed then StageTo(w, p, Marking).(confirmed := w.confirmed + {Head(w, p).id})
      else StageTo(w, p, Retrying)
    case Mark(p, fault) =>
      var k := Head(w, p);
      var table := if fault == NotApplied then w.table else Marked(w.table, k);
      if fault == Sound && MayMark(w.table, k) then Advance(w, p).(table := table)
      else StageTo(w, p, Retrying).(table := table)
    case Retry(p, clock, fault) =>
      var k := Head(w, p);
      if fault == Sound then Advance(w, p).(table := Failing(c, w.table, k, clock))
      else
        w.(publishers := w.publishers - {p},
           table := if fault == NotApplied then w.table else Failing(c, w.table, k, clock))
    case Crash(p) => w.(publishers := w.publishers - {p})
  }

  predicate Legal(c: Settings, w: World, steps: seq<Step>)
    decreases |steps|
  {
    steps == [] || (Enabled(c, w, steps[0]) && Legal(c, Next(c, w, steps[0]), steps[1..]))
  }

  function Run(c: Settings, w: World, steps: seq<Step>): World
    requires Legal(c, w, steps)
    decreases |steps|
  {
    if steps == [] then w else Run(c, Next(c, w, steps[0]), steps[1..])
  }

  lemma RunTwo(c: Settings, w: World, a: Step, b: Step)
    requires Enabled(c, w, a) && Enabled(c, Next(c, w, a), b)
    ensures Legal(c, w, [a, b]) && Run(c, w, [a, b]) == Next(c, Next(c, w, a), b)
  {
    hide Next, Enabled;
    var w1 := Next(c, w, a);
    var w2 := Next(c, w1, b);
    assert [a, b][1..] == [b] && [b][1..] == [];
    assert Legal(c, w2, []) && Run(c, w2, []) == w2;
    assert Legal(c, w1, [b]) && Run(c, w1, [b]) == w2;
  }

  lemma RunThree(c: Settings, w: World, a: Step, b: Step, d: Step)
    requires Enabled(c, w, a)
    requires Enabled(c, Next(c, w, a), b)
    requires Enabled(c, Next(c, Next(c, w, a), b), d)
    ensures Legal(c, w, [a, b, d]) && Run(c, w, [a, b, d]) == Next(c, Next(c, Next(c, w, a), b), d)
  {
    hide Next, Enabled;
    var w1 := Next(c, w, a);
    var w2 := Next(c, w1, b);
    var w3 := Next(c, w2, d);
    assert [a, b, d][1..] == [b, d] && [b, d][1..] == [d] && [d][1..] == [];
    assert Legal(c, w3, []) && Run(c, w3, []) == w3;
    assert Legal(c, w2, [d]) && Run(c, w2, [d]) == w3;
    assert Legal(c, w1, [b, d]) && Run(c, w1, [b, d]) == w3;
  }
}
