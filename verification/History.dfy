/**
 Bounded history queries against the full history. A query selects the rows of a time range,
 orders them newest first and keeps at most `limit`; the facts of a fraud context are computed
 from such pages.
 */
module History {
  import opened Prelude
  import opened Fraud

  datatype RowStatus = Paid | Declined | GivenBack

  /** A payment; of a refund or a product view only the time and the identifier matter. */
  datatype Row = Row(time: int, id: nat, status: RowStatus, device: nat, country: nat, amount: real, currency: nat)

  /** `ORDER BY attempted_at DESC, payment_id` */
  predicate Earlier(a: Row, b: Row) {
    a.time > b.time || (a.time == b.time && a.id <= b.id)
  }

  function Insert(r: Row, rows: seq<Row>): seq<Row> {
    if rows == [] || Earlier(r, rows[0]) then [r] + rows else [rows[0]] + Insert(r, rows[1..])
  }

  function Sort(rows: seq<Row>): seq<Row> {
    if rows == [] then [] else Insert(rows[0], Sort(rows[1..]))
  }

  function Select(rows: seq<Row>, from: int, to: int): seq<Row> {
    if rows == [] then []
    else (if from <= rows[0].time <= to then [rows[0]] else []) + Select(rows[1..], from, to)
  }

  /** `WHERE attempted_at < now`: the earlier payments have no lookback. */
  function SelectBefore(rows: seq<Row>, now: int): seq<Row> {
    if rows == [] then []
    else (if rows[0].time < now then [rows[0]] else []) + SelectBefore(rows[1..], now)
  }

  function Take(rows: seq<Row>, limit: nat): seq<Row> {
    if |rows| <= limit then rows else rows[..limit]
  }

  function Cut(rows: seq<Row>, limit: nat): seq<Row> {
    if |rows| <= limit then [] else rows[limit..]
  }

  /** `WHERE from <= time <= to ORDER BY ... LIMIT limit` */
  function Page(rows: seq<Row>, from: int, to: int, limit: nat): seq<Row> {
    Take(Sort(Select(rows, from, to)), limit)
  }

  function CountSince(rows: seq<Row>, start: int): nat {
    if rows == [] then 0 else Bit(rows[0].time >= start) + CountSince(rows[1..], start)
  }

  function FailedSince(rows: seq<Row>, start: int): nat {
    if rows == [] then 0 else Bit(rows[0].status == Declined && rows[0].time >= start) + FailedSince(rows[1..], start)
  }

  /** What the unbounded query would count. */
  function Exact(rows: seq<Row>, start: int, to: int): nat {
    if rows == [] then 0 else Bit(start <= rows[0].time <= to) + Exact(rows[1..], start, to)
  }

  function ExactFailed(rows: seq<Row>, start: int, to: int): nat {
    if rows == [] then 0
    else Bit(rows[0].status == Declined && start <= rows[0].time <= to) + ExactFailed(rows[1..], start, to)
  }

  /** Failed payments of the window that the limit cut off the page. */
  function MissedFailures(rows: seq<Row>, lookback: int, to: int, limit: nat, start: int): nat {
    FailedSince(Cut(Sort(Select(rows, lookback, to)), limit), start)
  }

  predicate NewestFirst(rows: seq<Row>) {
    forall i, j :: 0 <= i < j < |rows| ==> rows[i].time >= rows[j].time
  }

  // ----- sorting -----

  lemma {:induction false} InsertCounts(r: Row, rows: seq<Row>, start: int)
    ensures CountSince(Insert(r, rows), start) == Bit(r.time >= start) + CountSince(rows, start)
    ensures FailedSince(Insert(r, rows), start) == Bit(r.status == Declined && r.time >= start) + FailedSince(rows, start)
    ensures |Insert(r, rows)| == |rows| + 1 && multiset(Insert(r, rows)) == multiset{r} + multiset(rows)
  {
    if rows == [] || Earlier(r, rows[0]) {
      assert ([r] + rows)[1..] == rows;
    } else {
      InsertCounts(r, rows[1..], start);
      assert rows == [rows[0]] + rows[1..];
      assert ([rows[0]] + Insert(r, rows[1..]))[1..] == Insert(r, rows[1..]);
    }
  }

  lemma {:induction false} SortCounts(rows: seq<Row>, start: int)
    ensures CountSince(Sort(rows), start) == CountSince(rows, start)
    ensures FailedSince(Sort(rows), start) == FailedSince(rows, start)
    ensures |Sort(rows)| == |rows| && multiset(Sort(rows)) == multiset(rows)
  {
    if rows != [] {
      SortCounts(rows[1..], start);
      InsertCounts(rows[0], Sort(rows[1..]), start);
      assert rows == [rows[0]] + rows[1..];
    }
  }

  lemma {:induction false} InsertMembers(r: Row, rows: seq<Row>, i: nat)
    requires i < |Insert(r, rows)|
    ensures Insert(r, rows)[i] == r || Insert(r, rows)[i] in rows
  {
    if rows != [] && !Earlier(r, rows[0]) && i > 0 {
      InsertMembers(r, rows[1..], i - 1);
    }
  }

  lemma {:induction false} InsertKeepsOrder(r: Row, rows: seq<Row>)
    requires NewestFirst(rows)
    ensures NewestFirst(Insert(r, rows))
  {
    if rows != [] && !Earlier(r, rows[0]) {
      InsertKeepsOrder(r, rows[1..]);
      var rest := Insert(r, rows[1..]);
      forall j | 0 <= j < |rest| ensures rows[0].time >= rest[j].time {
        InsertMembers(r, rows[1..], j);
      }
    }
  }

  lemma {:induction false} SortIsNewestFirst(rows: seq<Row>)
    ensures NewestFirst(Sort(rows))
  {
    if rows != [] {
      SortIsNewestFirst(rows[1..]);
      InsertKeepsOrder(rows[0], Sort(rows[1..]));
    }
  }

  lemma {:induction false} SelectCounts(rows: seq<Row>, from: int, to: int, start: int)
    ensures CountSince(Select(rows, from, to), start) == Exact(rows, Max(from, start), to)
    ensures FailedSince(Select(rows, from, to), start) == ExactFailed(rows, Max(from, start), to)
  {
    if rows != [] {
      SelectCounts(rows[1..], from, to, start);
      if from <= rows[0].time <= to {
        assert Select(rows, from, to)[1..] == Select(rows[1..], from, to);
      } else {
        assert Select(rows, from, to) == Select(rows[1..], from, to);
      }
    }
  }

  lemma {:induction false} SelectMembers(rows: seq<Row>, from: int, to: int, r: Row)
    ensures r in Select(rows, from, to) <==> r in rows && from <= r.time <= to
  {
    if rows != [] { SelectMembers(rows[1..], from, to, r); }
  }

  // ----- the newest rows of a window -----

  lemma {:induction false} NoneSince(rows: seq<Row>, start: int)
    requires NewestFirst(rows) && (rows == [] || rows[0].time < start)
    ensures CountSince(rows, start) == 0
  {
    if rows != [] { NoneSince(rows[1..], start); }
  }

  lemma {:induction false} TakeCounts(rows: seq<Row>, limit: nat, start: int)
    requires NewestFirst(rows)
    ensures CountSince(Take(rows, limit), start) == Min(limit, CountSince(rows, start))
  {
    if rows != [] && limit > 0 {
      if rows[0].time < start {
        NoneSince(rows, start);
        NoneSince(Take(rows, limit), start);
      } else {
        assert Take(rows, limit)[1..] == Take(rows[1..], limit - 1);
        TakeCounts(rows[1..], limit - 1, start);
      }
    }
  }

  /**
   Counting a window inside a page counts min(limit, exact), where the exact count is cut off at
   the lookback when the window reaches beyond it.
   */
  lemma BoundedCount(rows: seq<Row>, lookback: int, to: int, limit: nat, start: int)
    ensures CountSince(Page(rows, lookback, to, limit), start) == Min(limit, Exact(rows, Max(lookback, start), to))
  {
    var selected := Select(rows, lookback, to);
    SortIsNewestFirst(selected);
    TakeCounts(Sort(selected), limit, start);
    SortCounts(selected, start);
    SelectCounts(rows, lookback, to, start);
  }

  lemma {:induction false} SelectLength(rows: seq<Row>, from: int, to: int)
    ensures |Select(rows, from, to)| == Exact(rows, from, to)
  {
    if rows != [] { SelectLength(rows[1..], from, to); }
  }

  /** The length of a page, which is what the refund and view counts are. */
  lemma PageLength(rows: seq<Row>, from: int, to: int, limit: nat)
    ensures |Page(rows, from, to, limit)| == Min(limit, Exact(rows, from, to))
  {
    SortCounts(Select(rows, from, to), 0);
    SelectLength(rows, from, to);
  }

  predicate SameVerdict(rows: seq<Row>, lookback: int, to: int, limit: nat, start: int, threshold: nat) {
    CountSince(Page(rows, lookback, to, limit), start) >= threshold <==> Exact(rows, start, to) >= threshold
  }

  lemma {:induction false} LaterCountsLess(rows: seq<Row>, start: int, later: int, to: int)
    requires start <= later
    ensures Exact(rows, later, to) <= Exact(rows, start, to)
    ensures ExactFailed(rows, later, to) <= ExactFailed(rows, start, to)
  {
    if rows != [] { LaterCountsLess(rows[1..], start, later, to); }
  }

  /** For one history: the bounded count decides as the full one unless the limit or the lookback hides a crossing. */
  lemma VerdictOf(rows: seq<Row>, lookback: int, to: int, limit: nat, start: int, threshold: nat)
    ensures SameVerdict(rows, lookback, to, limit, start, threshold) <==>
            || Exact(rows, start, to) < threshold
            || (threshold <= limit && threshold <= Exact(rows, Max(lookback, start), to))
  {
    BoundedCount(rows, lookback, to, limit, start);
    LaterCountsLess(rows, start, Max(lookback, start), to);
  }

  /** A payment at a given time of which nothing else matters. */
  function At(time: int, status: RowStatus): Row {
    Row(time, 0, status, 0, 0, 0.0, 0)
  }

  function Copies(r: Row, n: nat): seq<Row> {
    seq(n, _ => r)
  }

  lemma {:induction false} CopiesCount(r: Row, n: nat, start: int, to: int)
    ensures Exact(Copies(r, n), start, to) == n * Bit(start <= r.time <= to)
    ensures ExactFailed(Copies(r, n), start, to) == n * Bit(r.status == Declined && start <= r.time <= to)
  {
    if n > 0 {
      assert Copies(r, n)[1..] == Copies(r, n - 1);
      CopiesCount(r, n - 1, start, to);
    }
  }

  /** For all histories: a threshold within the limit and a window within the lookback are necessary and sufficient. */
  lemma ThresholdWithinLimit(lookback: int, to: int, limit: nat, start: int, threshold: nat)
    requires start <= to
    ensures (forall rows: seq<Row> :: SameVerdict(rows, lookback, to, limit, start, threshold)) <==>
            threshold == 0 || (lookback <= start && threshold <= limit)
  {
    forall rows: seq<Row> | threshold == 0 || (lookback <= start && threshold <= limit)
      ensures SameVerdict(rows, lookback, to, limit, start, threshold)
    {
      VerdictOf(rows, lookback, to, limit, start, threshold);
    }
    if threshold > 0 && (lookback > start || threshold > limit) {
      var r := At(if lookback > start then start else to, Paid);
      CopiesCount(r, threshold, start, to);
      CopiesCount(r, threshold, Max(lookback, start), to);
      VerdictOf(Copies(r, threshold), lookback, to, limit, start, threshold);
      assert !SameVerdict(Copies(r, threshold), lookback, to, limit, start, threshold);
    }
  }

  // ----- failed payments -----

  lemma {:induction false} FailedConcat(a: seq<Row>, b: seq<Row>, start: int)
    ensures FailedSince(a + b, start) == FailedSince(a, start) + FailedSince(b, start)
  {
    if a == [] {
      assert a + b == b;
    } else {
      assert (a + b)[1..] == a[1..] + b;
      FailedConcat(a[1..], b, start);
    }
  }

  lemma {:induction false} NothingCut(rows: seq<Row>, limit: nat, start: int)
    requires NewestFirst(rows) && CountSince(rows, start) <= limit
    ensures CountSince(Cut(rows, limit), start) == 0
  {
    if rows != [] {
      if rows[0].time < start {
        NoneSince(Cut(rows, limit), start);
      } else {
        assert Cut(rows, limit) == Cut(rows[1..], limit - 1);
        NothingCut(rows[1..], limit - 1, start);
      }
    }
  }

  lemma {:induction false} FailedAmongCounted(rows: seq<Row>, start: int)
    ensures FailedSince(rows, start) <= CountSince(rows, start)
  {
    if rows != [] { FailedAmongCounted(rows[1..], start); }
  }

  /**
   Failures share the page with successes. The bounded count falls short of the exact one by the
   failures the limit cut off; so it is exact if and only if there are none of those, and there
   are none whenever all payments of the window fit into the page. A window that reaches beyond the
   lookback ends there.
   */
  lemma BoundedFailures(rows: seq<Row>, lookback: int, to: int, limit: nat, start: int)
    ensures var shown, missed := FailedSince(Page(rows, lookback, to, limit), start), MissedFailures(rows, lookback, to, limit, start);
            && shown + missed == ExactFailed(rows, Max(lookback, start), to)
            && (shown == ExactFailed(rows, Max(lookback, start), to) <==> missed == 0)
            && (Exact(rows, Max(lookback, start), to) <= limit ==> missed == 0)
  {
    hide Select, Sort, CountSince, FailedSince, Exact, ExactFailed, NewestFirst;
    var selected := Select(rows, lookback, to);
    SortIsNewestFirst(selected);
    SortCounts(selected, start);
    SelectCounts(rows, lookback, to, start);
    SplitFailures(Sort(selected), limit, start);
    if Exact(rows, Max(lookback, start), to) <= limit {
      NothingCut(Sort(selected), limit, start);
      FailedAmongCounted(Cut(Sort(selected), limit), start);
    }
  }

  lemma SplitFailures(sorted: seq<Row>, limit: nat, start: int)
    ensures FailedSince(Take(sorted, limit), start) + FailedSince(Cut(sorted, limit), start) == FailedSince(sorted, start)
  {
    hide FailedSince;
    assert sorted == Take(sorted, limit) + Cut(sorted, limit);
    FailedConcat(Take(sorted, limit), Cut(sorted, limit), start);
  }

  predicate SameBurst(rows: seq<Row>, lookback: int, to: int, limit: nat, start: int, threshold: nat) {
    FailedSince(Page(rows, lookback, to, limit), start) >= threshold <==> ExactFailed(rows, start, to) >= threshold
  }

  /** For one history: the burst is judged as on the full history unless the cut hides a crossing. */
  lemma BurstVerdictOf(rows: seq<Row>, lookback: int, to: int, limit: nat, start: int, threshold: nat)
    ensures SameBurst(rows, lookback, to, limit, start, threshold) <==>
            || ExactFailed(rows, start, to) < threshold
            || threshold + MissedFailures(rows, lookback, to, limit, start) <= ExactFailed(rows, Max(lookback, start), to)
  {
    LaterCountsLess(rows, start, Max(lookback, start), to);
    BoundedFailures(rows, lookback, to, limit, start);
  }

  lemma {:induction false} AllRecent(rows: seq<Row>, start: int, t: int)
    requires start <= t
    ensures CountSince(rows, t) <= |rows|
    ensures CountSince(rows, t) == |rows| ==> FailedSince(rows, start) == FailedSince(rows, t)
  {
    if rows != [] { AllRecent(rows[1..], start, t); }
  }

  lemma {:induction false} ExactConcat(a: seq<Row>, b: seq<Row>, start: int, to: int)
    ensures Exact(a + b, start, to) == Exact(a, start, to) + Exact(b, start, to)
    ensures ExactFailed(a + b, start, to) == ExactFailed(a, start, to) + ExactFailed(b, start, to)
  {
    if a == [] {
      assert a + b == b;
    } else {
      assert (a + b)[1..] == a[1..] + b;
      ExactConcat(a[1..], b, start, to);
    }
  }

  /** `limit` recent successes in front of `threshold` failures. */
  function CrowdedOut(limit: nat, threshold: nat, to: int): seq<Row> {
    Copies(At(to, Paid), limit) + Copies(At(to - 1, Declined), threshold)
  }

  /** Whatever the limit and the threshold, some history holds a burst that the page does not show at all. */
  lemma BurstCanBeCrowdedOut(lookback: int, to: int, limit: nat, start: int, threshold: nat)
    requires start < to
    ensures var rows := CrowdedOut(limit, threshold, to);
            ExactFailed(rows, start, to) == threshold && FailedSince(Page(rows, lookback, to, limit), start) == 0
  {
    hide Page, CountSince, FailedSince, Exact, ExactFailed, MissedFailures;
    var successes, failures := Copies(At(to, Paid), limit), Copies(At(to - 1, Declined), threshold);
    var rows, page := CrowdedOut(limit, threshold, to), Page(CrowdedOut(limit, threshold, to), lookback, to, limit);
    forall t ensures ExactFailed(rows, t, to) == threshold * Bit(t < to) && Exact(rows, t, to) >= limit * Bit(t <= to) {
      ExactConcat(successes, failures, t, to);
      CopiesCount(At(to, Paid), limit, t, to);
      CopiesCount(At(to - 1, Declined), threshold, t, to);
    }
    BoundedFailures(rows, lookback, to, limit, start);
    if lookback < to {
      BoundedCount(rows, lookback, to, limit, to);
      PageIsShort(rows, lookback, to, limit);
      AllRecent(page, start, to);
      BoundedFailures(rows, lookback, to, limit, to);
    }
  }

  lemma PageIsShort(rows: seq<Row>, lookback: int, to: int, limit: nat)
    ensures |Page(rows, lookback, to, limit)| <= limit
  {
  }

  /** No limit protects the burst: all histories are judged alike only when there is nothing to judge. */
  lemma NoLimitProtectsBursts(lookback: int, to: int, limit: nat, start: int, threshold: nat)
    requires start < to
    ensures (forall rows: seq<Row> :: SameBurst(rows, lookback, to, limit, start, threshold)) <==> threshold == 0
  {
    BurstCanBeCrowdedOut(lookback, to, limit, start, threshold);
    if threshold > 0 {
      assert !SameBurst(CrowdedOut(limit, threshold, to), lookback, to, limit, start, threshold);
    }
  }

  // ----- countries -----

  function CountriesSince(rows: seq<Row>, start: int): set<nat> {
    set r | r in rows && r.time >= start :: r.country
  }

  /** What the unbounded query would find. */
  function ExactCountries(rows: seq<Row>, start: int, to: int): set<nat> {
    set r | r in rows && start <= r.time <= to :: r.country
  }

  lemma {:induction false} Counted(rows: seq<Row>, start: int, r: Row)
    requires r in rows && r.time >= start
    ensures CountSince(rows, start) > 0
  {
    if rows[0] != r { Counted(rows[1..], start, r); }
  }

  function PageCut(rows: seq<Row>, from: int, to: int, limit: nat): seq<Row> {
    Cut(Sort(Select(rows, from, to)), limit)
  }

  lemma {:induction false} CountriesConcat(a: seq<Row>, b: seq<Row>, start: int)
    ensures CountriesSince(a + b, start) == CountriesSince(a, start) + CountriesSince(b, start)
  {
    forall r | r in a + b ensures r in a || r in b {
    }
  }

  lemma SelectedCountries(rows: seq<Row>, lookback: int, to: int, start: int)
    ensures CountriesSince(Sort(Select(rows, lookback, to)), start) == ExactCountries(rows, Max(lookback, start), to)
  {
    hide Sort, Select;
    var selected := Select(rows, lookback, to);
    SortCounts(selected, start);
    forall r: Row ensures r in Sort(selected) <==> r in rows && lookback <= r.time <= to {
      SelectMembers(rows, lookback, to, r);
      assert r in Sort(selected) <==> r in multiset(Sort(selected));
      assert r in selected <==> r in multiset(selected);
    }
  }

  /** Countries of the rows in the window that the limit cuts off or that are older than the lookback. */
  function HiddenCountries(rows: seq<Row>, lookback: int, to: int, limit: nat, start: int): set<nat> {
    CountriesSince(PageCut(rows, lookback, to, limit), start) + ExactCountries(rows, start, Min(lookback - 1, to))
  }

  /**
   The page shows all countries of the window if and only if every hidden country is on it anyway;
   none is hidden whenever the window is within the lookback and its payments fit into the page.
   */
  lemma BoundedCountries(rows: seq<Row>, lookback: int, to: int, limit: nat, start: int)
    ensures var shown, hidden := CountriesSince(Page(rows, lookback, to, limit), start),
                                 HiddenCountries(rows, lookback, to, limit, start);
            && shown + hidden == ExactCountries(rows, start, to)
            && (shown == ExactCountries(rows, start, to) <==> hidden <= shown)
            && (lookback <= start && Exact(rows, start, to) <= limit ==> hidden == {})
  {
    hide Sort, Select, Exact, CountSince, FailedSince, NewestFirst, CountriesSince, ExactCountries;
    var sorted := Sort(Select(rows, lookback, to));
    SelectedCountries(rows, lookback, to, start);
    CountriesConcat(Take(sorted, limit), Cut(sorted, limit), start);
    assert sorted == Take(sorted, limit) + Cut(sorted, limit);
    CountriesByAge(rows, lookback, start, to);
    if lookback <= start && Exact(rows, start, to) <= limit {
      SortIsNewestFirst(Select(rows, lookback, to));
      SortCounts(Select(rows, lookback, to), start);
      SelectCounts(rows, lookback, to, start);
      NothingCut(sorted, limit, start);
      NoCountries(Cut(sorted, limit), start);
    }
  }

  lemma CountriesByAge(rows: seq<Row>, lookback: int, start: int, to: int)
    ensures ExactCountries(rows, start, to) ==
            ExactCountries(rows, Max(lookback, start), to) + ExactCountries(rows, start, Min(lookback - 1, to))
    ensures lookback <= start ==> ExactCountries(rows, start, Min(lookback - 1, to)) == {}
  {
  }

  lemma NoCountries(rows: seq<Row>, start: int)
    requires CountSince(rows, start) == 0
    ensures CountriesSince(rows, start) == {}
  {
    hide CountSince;
    forall r | r in rows ensures r.time < start {
      if r.time >= start { Counted(rows, start, r); }
    }
  }

  predicate SameSpread(rows: seq<Row>, lookback: int, to: int, limit: nat, start: int) {
    |CountriesSince(Page(rows, lookback, to, limit), start)| > 1 <==> |ExactCountries(rows, start, to)| > 1
  }

  /** For one history: several countries are seen as on the full history unless all but one are hidden. */
  lemma SpreadVerdictOf(rows: seq<Row>, lookback: int, to: int, limit: nat, start: int)
    ensures var shown, hidden := CountriesSince(Page(rows, lookback, to, limit), start),
                                 HiddenCountries(rows, lookback, to, limit, start);
            SameSpread(rows, lookback, to, limit, start) <==> |shown| > 1 || |shown + hidden| <= 1
  {
    hide Page, HiddenCountries, CountriesSince, ExactCountries;
    BoundedCountries(rows, lookback, to, limit, start);
    var shown, full := CountriesSince(Page(rows, lookback, to, limit), start), ExactCountries(rows, start, to);
    assert shown <= full;
    SubsetIsSmaller(shown, full);
  }

  lemma {:induction false} SubsetIsSmaller(a: set<nat>, b: set<nat>)
    requires a <= b
    ensures |a| <= |b|
  {
    if a != {} {
      var x :| x in a;
      SubsetIsSmaller(a - {x}, b - {x});
    }
  }

  /** `limit` recent payments from one country in front of two from others. */
  function Travels(limit: nat, to: int): seq<Row> {
    Copies(At(to, Paid), limit) + [At(to - 1, Paid).(country := 1), At(to - 1, Paid).(country := 2)]
  }

  /** No limit protects the country count: some history spreads over countries that the page does not show. */
  lemma SpreadCanBeCrowdedOut(lookback: int, to: int, limit: nat, start: int)
    requires start < to
    ensures !SameSpread(Travels(limit, to), lookback, to, limit, start)
  {
    hide Sort, Select, Page, CountSince, Exact;
    var rows, page := Travels(limit, to), Page(Travels(limit, to), lookback, to, limit);
    assert rows[limit].country == 1 && rows[limit + 1].country == 2;
    assert {1, 2} <= ExactCountries(rows, start, to);
    SubsetIsSmaller({1, 2}, ExactCountries(rows, start, to));
    forall country | country in CountriesSince(page, start) ensures country == 0 {
      var r :| r in page && r.time >= start && r.country == country;
      NewestOnPage(lookback, to, limit, r);
    }
    SubsetIsSmaller(CountriesSince(page, start), {0});
  }

  lemma NewestOnPage(lookback: int, to: int, limit: nat, r: Row)
    requires r in Page(Travels(limit, to), lookback, to, limit)
    ensures r.country == 0
  {
    hide Sort, Select, Page, CountSince, Exact, ExactFailed;
    var rows := Travels(limit, to);
    PageMembers(rows, lookback, to, limit, r);
    ExactConcat(Copies(At(to, Paid), limit), rows[limit..], to, to);
    CopiesCount(At(to, Paid), limit, to, to);
    BoundedCount(rows, lookback, to, limit, to);
    NoneOlder(Page(rows, lookback, to, limit), to, r);
  }

  lemma PageMembers(rows: seq<Row>, lookback: int, to: int, limit: nat, r: Row)
    requires r in Page(rows, lookback, to, limit)
    ensures r in rows && lookback <= r.time <= to && |Page(rows, lookback, to, limit)| <= limit
  {
    hide Sort, Select;
    var selected := Select(rows, lookback, to);
    SortCounts(selected, 0);
    SelectMembers(rows, lookback, to, r);
    assert r in Sort(selected);
    assert r in multiset(Sort(selected)) && r in multiset(selected);
  }

  /** If as many rows are recent as there are rows, every row is recent. */
  lemma {:induction false} NoneOlder(rows: seq<Row>, start: int, r: Row)
    requires CountSince(rows, start) >= |rows| && r in rows
    ensures r.time >= start
  {
    AllRecent(rows[1..], start, start);
    if rows[0] != r {
      NoneOlder(rows[1..], start, r);
    }
  }

  // ----- earlier payments -----

  function Prior(rows: seq<Row>, now: int, limit: nat): seq<Row> {
    Take(Sort(SelectBefore(rows, now)), limit)
  }

  /** The earlier payments are those strictly before the event, whatever their age. */
  lemma {:induction false} PriorMembers(rows: seq<Row>, now: int, r: Row)
    ensures r in SelectBefore(rows, now) <==> r in rows && r.time < now
  {
    if rows != [] { PriorMembers(rows[1..], now, r); }
  }

  function Successes(rows: seq<Row>): nat {
    if rows == [] then 0 else Bit(rows[0].status == Paid) + Successes(rows[1..])
  }

  function Matching(rows: seq<Row>, currency: nat): nat {
    if rows == [] then 0 else Bit(rows[0].status == Paid && rows[0].currency == currency) + Matching(rows[1..], currency)
  }

  function Spent(rows: seq<Row>, currency: nat): real {
    if rows == [] then 0.0
    else (if rows[0].status == Paid && rows[0].currency == currency then rows[0].amount else 0.0) + Spent(rows[1..], currency)
  }

  /** The mean of the successful amounts in the payment's own currency. */
  function Average(rows: seq<Row>, currency: Option<nat>): Option<real> {
    if currency == None || Matching(rows, currency.value) == 0 then None
    else Some(Spent(rows, currency.value) / Matching(rows, currency.value) as real)
  }

  function Devices(rows: seq<Row>): set<nat> {
    set r | r in rows && r.status == Paid :: r.device
  }

  lemma {:induction false} InsertSums(r: Row, rows: seq<Row>, currency: nat)
    ensures Successes(Insert(r, rows)) == Bit(r.status == Paid) + Successes(rows)
    ensures Matching(Insert(r, rows), currency) == Bit(r.status == Paid && r.currency == currency) + Matching(rows, currency)
    ensures Spent(Insert(r, rows), currency) ==
            (if r.status == Paid && r.currency == currency then r.amount else 0.0) + Spent(rows, currency)
  {
    if rows == [] || Earlier(r, rows[0]) {
      assert ([r] + rows)[1..] == rows;
    } else {
      InsertSums(r, rows[1..], currency);
      assert ([rows[0]] + Insert(r, rows[1..]))[1..] == Insert(r, rows[1..]);
    }
  }

  lemma {:induction false} SortSums(rows: seq<Row>, currency: nat)
    ensures Successes(Sort(rows)) == Successes(rows)
    ensures Matching(Sort(rows), currency) == Matching(rows, currency)
    ensures Spent(Sort(rows), currency) == Spent(rows, currency)
  {
    if rows != [] {
      SortSums(rows[1..], currency);
      InsertSums(rows[0], Sort(rows[1..]), currency);
    }
  }

  /** The earlier payments that the limit keeps off the page. */
  function PriorCut(rows: seq<Row>, now: int, limit: nat): seq<Row> {
    Cut(Sort(SelectBefore(rows, now)), limit)
  }

  lemma {:induction false} SumsConcat(a: seq<Row>, b: seq<Row>, currency: nat)
    ensures Successes(a + b) == Successes(a) + Successes(b)
    ensures Matching(a + b, currency) == Matching(a, currency) + Matching(b, currency)
    ensures Spent(a + b, currency) == Spent(a, currency) + Spent(b, currency)
  {
    if a == [] {
      assert a + b == b;
    } else {
      assert (a + b)[1..] == a[1..] + b;
      SumsConcat(a[1..], b, currency);
    }
  }

  lemma SameDevices(a: seq<Row>, b: seq<Row>)
    requires multiset(a) == multiset(b)
    ensures Devices(a) == Devices(b)
  {
    assert forall r :: r in a <==> r in multiset(a);
    assert forall r :: r in b <==> r in multiset(b);
  }

  /** The page and what was cut off make up the earlier payments. */
  lemma PriorSplit(rows: seq<Row>, now: int, limit: nat, currency: nat)
    ensures var all, page, cut := SelectBefore(rows, now), Prior(rows, now, limit), PriorCut(rows, now, limit);
            && Successes(page) + Successes(cut) == Successes(all)
            && Matching(page, currency) + Matching(cut, currency) == Matching(all, currency)
            && Spent(page, currency) + Spent(cut, currency) == Spent(all, currency)
            && Devices(page) + Devices(cut) == Devices(all)
            && |page| + |cut| == |all|
  {
    hide Sort, SelectBefore, Successes, Matching, Spent;
    var all := SelectBefore(rows, now);
    var page, cut := Prior(rows, now, limit), PriorCut(rows, now, limit);
    SortCounts(all, 0);
    SortSums(all, currency);
    assert Sort(all) == page + cut;
    SumsConcat(page, cut, currency);
    SameDevices(Sort(all), all);
    assert forall r :: r in page + cut <==> r in page || r in cut;
  }

  lemma CrossMultiply(a: real, b: real, c: real, d: real)
    requires b > 0.0 && d > 0.0
    ensures a / b == c / d <==> a * d == c * b
  {
    var x, y, p := a / b, c / d, b * d;
    assert x * b == a && y * d == c;
    assert a * d == (x * b) * d == x * p && c * b == (y * d) * b == y * p;
    assert x == (x * p) / p && y == (y * p) / p;
  }

  /** Adding k amounts q to m amounts p keeps the mean exactly when their own mean is the same. */
  lemma MeanKept(p: real, m: nat, q: real, k: nat)
    requires m > 0 && k > 0
    ensures p / m as real == (p + q) / (m + k) as real <==> p * k as real == q * m as real
  {
    CrossMultiply(p, m as real, p + q, (m + k) as real);
    assert (m + k) as real == m as real + k as real;
    assert p * (m as real + k as real) == p * m as real + p * k as real;
    assert (p + q) * m as real == p * m as real + q * m as real;
  }

  /** The successful amounts cut off, if any, have the mean of those on the page. */
  predicate AverageKept(page: seq<Row>, cut: seq<Row>, currency: Option<nat>) {
    || currency == None
    || Matching(cut, currency.value) == 0
    || (Matching(page, currency.value) > 0 &&
        Spent(page, currency.value) * Matching(cut, currency.value) as real ==
        Spent(cut, currency.value) * Matching(page, currency.value) as real)
  }

  /**
   When the facts from earlier payments are those of the whole history: the successes exactly when
   no success was cut off, the devices exactly when no new device was, and the average exactly when
   the cut amounts have the mean of the page. All earlier payments on the page suffice.
   */
  lemma PriorIsExact(rows: seq<Row>, now: int, limit: nat, currency: Option<nat>)
    ensures var all, page, cut := SelectBefore(rows, now), Prior(rows, now, limit), PriorCut(rows, now, limit);
            && (Successes(page) == Successes(all) <==> Successes(cut) == 0)
            && (Devices(page) == Devices(all) <==> Devices(cut) <= Devices(page))
            && (Average(page, currency) == Average(all, currency) <==> AverageKept(page, cut, currency))
            && (|all| <= limit ==> cut == [])
  {
    hide Sort, SelectBefore, Successes, Matching, Spent, Devices;
    var page, cut := Prior(rows, now, limit), PriorCut(rows, now, limit);
    SortCounts(SelectBefore(rows, now), 0);
    var k := if currency.Some? then currency.value else 0;
    PriorSplit(rows, now, limit, k);
    if currency.Some? && Matching(page, k) > 0 && Matching(cut, k) > 0 {
      MeanKept(Spent(page, k), Matching(page, k), Spent(cut, k), Matching(cut, k));
    } else {
      hide Prior, PriorCut;
      NothingMatches(cut, k);
    }
  }

  lemma {:induction false} NothingMatches(rows: seq<Row>, currency: nat)
    ensures Matching(rows, currency) == 0 ==> Spent(rows, currency) == 0.0
  {
    if rows != [] { NothingMatches(rows[1..], currency); }
  }

  // ----- earlier payments: no limit protects them -----

  /** `limit` recent failures in front of `n` successes with one device. */
  function ForgottenPast(limit: nat, n: nat, now: int): seq<Row> {
    Copies(At(now - 1, Declined), limit) + Copies(At(now - 2, Paid).(amount := 1.0), n)
  }

  lemma {:induction false} AllEarlier(rows: seq<Row>, now: int)
    requires forall i :: 0 <= i < |rows| ==> rows[i].time < now
    ensures SelectBefore(rows, now) == rows
  {
    if rows != [] {
      AllEarlier(rows[1..], now);
      assert rows == [rows[0]] + rows[1..];
    }
  }

  lemma {:induction false} SumsOfCopies(r: Row, n: nat, currency: nat, start: int)
    ensures Successes(Copies(r, n)) == n * Bit(r.status == Paid)
    ensures Matching(Copies(r, n), currency) == n * Bit(r.status == Paid && r.currency == currency)
    ensures Spent(Copies(r, n), currency) == if r.status == Paid && r.currency == currency then n as real * r.amount else 0.0
    ensures CountSince(Copies(r, n), start) == n * Bit(r.time >= start)
  {
    if n > 0 {
      assert Copies(r, n)[1..] == Copies(r, n - 1);
      SumsOfCopies(r, n - 1, currency, start);
      assert n as real == (n - 1) as real + 1.0;
    }
  }

  lemma {:induction false} CountConcat(a: seq<Row>, b: seq<Row>, start: int)
    ensures CountSince(a + b, start) == CountSince(a, start) + CountSince(b, start)
  {
    if a == [] {
      assert a + b == b;
    } else {
      assert (a + b)[1..] == a[1..] + b;
      CountConcat(a[1..], b, start);
    }
  }

  /** The page of a history whose `limit` newest rows are all `recent`, in front of older ones. */
  lemma PageOfTwo(recent: Row, older: Row, limit: nat, n: nat, now: int)
    requires older.time < recent.time < now
    ensures var rows := Copies(recent, limit) + Copies(older, n);
            && SelectBefore(rows, now) == rows
            && Prior(rows, now, limit) == Copies(recent, limit)
  {
    hide Sort, CountSince, FailedSince, NewestFirst;
    var a, b := Copies(recent, limit), Copies(older, n);
    var rows := a + b;
    AllEarlier(rows, now);
    SortIsNewestFirst(rows);
    SortCounts(rows, recent.time);
    TakeCounts(Sort(rows), limit, recent.time);
    CountConcat(a, b, recent.time);
    SumsOfCopies(recent, limit, 0, recent.time);
    SumsOfCopies(older, n, 0, recent.time);
    var page := Prior(rows, now, limit);
    forall i | 0 <= i < |page| ensures page[i] == recent {
      assert page[i] in page;
      NoneOlder(page, recent.time, page[i]);
      assert page[i] in Sort(rows) && page[i] in multiset(Sort(rows)) && page[i] in multiset(rows);
    }
  }

  /** Whatever the limit, some history has successes, a device and an average of which the page shows nothing. */
  lemma PastCanBeCrowdedOut(now: int, limit: nat, n: nat)
    requires n > 0
    ensures var rows := ForgottenPast(limit, n, now);
            var all, page := SelectBefore(rows, now), Prior(rows, now, limit);
            && Successes(all) == n && Devices(all) == {0} && Average(all, Some(0)) == Some(1.0)
            && Successes(page) == 0 && Devices(page) == {} && Average(page, Some(0)) == None
  {
    hide Sort, Prior, SelectBefore, Successes, Matching, Spent, Devices;
    var recent, older := At(now - 1, Declined), At(now - 2, Paid).(amount := 1.0);
    var a, b := Copies(recent, limit), Copies(older, n);
    PageOfTwo(recent, older, limit, n, now);
    SumsOfCopies(recent, limit, 0, 0);
    SumsOfCopies(older, n, 0, 0);
    SumsConcat(a, b, 0);
    DevicesOfTwo(recent, older, limit, n);
    hide Copies;
    assert n as real * 1.0 / n as real == 1.0;
  }

  lemma DevicesOfTwo(a: Row, b: Row, m: nat, n: nat)
    ensures Devices(Copies(a, m)) == if m > 0 && a.status == Paid then {a.device} else {}
    ensures Devices(Copies(a, m) + Copies(b, n)) ==
            Devices(Copies(a, m)) + if n > 0 && b.status == Paid then {b.device} else {}
  {
    var rows := Copies(a, m) + Copies(b, n);
    assert m > 0 ==> Copies(a, m)[0] == a && rows[0] == a;
    assert n > 0 ==> rows[m] == b;
  }

  // ----- the new-device rule on earlier payments -----

  predicate NewDeviceHit(minimum: int, device: Option<nat>, rows: seq<Row>) {
    && Successes(rows) >= minimum
    && device.Some? && Devices(rows) != {} && device.value !in Devices(rows)
  }

  lemma {:induction false} SuccessHasDevice(rows: seq<Row>)
    ensures Successes(rows) > 0 <==> Devices(rows) != {}
    ensures Successes(rows) <= |rows|
  {
    if rows != [] {
      SuccessHasDevice(rows[1..]);
      assert rows == [rows[0]] + rows[1..];
      if rows[0].status == Paid {
        assert rows[0].device in Devices(rows);
      } else {
        assert Devices(rows) == Devices(rows[1..]);
      }
    }
  }

  /** Neither a known device nor the successes that make the history count were cut off. */
  predicate NewDeviceKept(minimum: int, device: Option<nat>, page: seq<Row>, cut: seq<Row>) {
    || device == None
    || (if device.value in Devices(cut) then device.value in Devices(page) || Successes(page) < minimum
        else device.value in Devices(page) || Successes(page) >= minimum || Successes(page) + Successes(cut) < minimum)
  }

  /** For one history: when the new-device rule decides as on the full one. */
  lemma NewDeviceVerdictOf(rows: seq<Row>, now: int, limit: nat, minimum: int, device: Option<nat>)
    requires minimum > 0
    ensures (NewDeviceHit(minimum, device, Prior(rows, now, limit)) <==>
             NewDeviceHit(minimum, device, SelectBefore(rows, now))) <==>
            NewDeviceKept(minimum, device, Prior(rows, now, limit), PriorCut(rows, now, limit))
  {
    hide Prior, PriorCut, SelectBefore, Successes, Devices;
    PriorSplit(rows, now, limit, 0);
    SuccessHasDevice(Prior(rows, now, limit));
    SuccessHasDevice(SelectBefore(rows, now));
  }

  /** A device counts as new on the page although an earlier success used it. */
  predicate FalseAlarm(rows: seq<Row>, now: int, limit: nat, minimum: int, device: Option<nat>) {
    NewDeviceHit(minimum, device, Prior(rows, now, limit)) && !NewDeviceHit(minimum, device, SelectBefore(rows, now))
  }

  /** A new device goes unnoticed because the page shows too few successes. */
  predicate FalseSilence(rows: seq<Row>, now: int, limit: nat, minimum: int, device: Option<nat>) {
    !NewDeviceHit(minimum, device, Prior(rows, now, limit)) && NewDeviceHit(minimum, device, SelectBefore(rows, now))
  }

  lemma AlarmOnForgottenDevice(now: int, limit: nat, minimum: int, device: nat)
    requires 0 < minimum <= limit
    ensures var rows := Copies(At(now - 1, Paid).(device := device + 1), limit) +
                        Copies(At(now - 2, Paid).(device := device), 1);
            FalseAlarm(rows, now, limit, minimum, Some(device))
  {
    hide Sort, Prior, SelectBefore;
    var recent, older := At(now - 1, Paid).(device := device + 1), At(now - 2, Paid).(device := device);
    var a, b := Copies(recent, limit), Copies(older, 1);
    PageOfTwo(recent, older, limit, 1, now);
    SumsOfCopies(recent, limit, 0, 0);
    DevicesOfTwo(recent, older, limit, 1);
  }

  /**
   For all histories: no limit protects the new-device rule. A new device can always go unnoticed,
   and a known one is taken for new in some history exactly when the limit reaches the minimum.
   */
  lemma NoLimitProtectsNewDevice(now: int, limit: nat, minimum: int, device: nat)
    requires minimum > 0
    ensures FalseSilence(ForgottenPast(limit, minimum, now), now, limit, minimum, Some(device + 1))
    ensures (exists rows: seq<Row> :: FalseAlarm(rows, now, limit, minimum, Some(device))) <==> minimum <= limit
  {
    hide Prior, PriorCut, SelectBefore, Successes, Devices;
    PastCanBeCrowdedOut(now, limit, minimum);
    if minimum <= limit {
      AlarmOnForgottenDevice(now, limit, minimum, device);
    } else {
      forall rows: seq<Row> ensures !FalseAlarm(rows, now, limit, minimum, Some(device)) {
        SuccessHasDevice(Prior(rows, now, limit));
        PriorIsShort(rows, now, limit);
      }
    }
  }

  lemma PriorIsShort(rows: seq<Row>, now: int, limit: nat)
    ensures |Prior(rows, now, limit)| <= limit
  {
  }
}
