/**
 The fraud context built from pages against the one built from the whole history, and when the
 rules and the engine cannot tell them apart.
 */
module HistoryContext {
  import opened Prelude
  import opened Fraud
  import opened History

  datatype Past = Past(payments: seq<Row>, refunds: seq<Row>, views: seq<Row>)

  /** Where the windows of one event start. */
  datatype Windows = Windows(now: int, lookback: int, velocity: int, failure: int, country: int, views: int)

  /** `FraudContextBuilder.build`: `x` holds the facts that do not come from the history. */
  function BoundedFacts(w: Windows, h: Past, x: Context, currency: Option<nat>, limit: nat): Context {
    var page := Page(h.payments, w.lookback, w.now, limit);
    var prior := Prior(h.payments, w.now, limit);
    x.(recentAttempts := CountSince(page, w.velocity),
       recentFailures := FailedSince(page, w.failure),
       distinctCountries := |CountriesSince(page, w.country)|,
       recentRefunds := |Page(h.refunds, w.lookback, w.now, limit)|,
       productViews := |Page(h.views, w.views, w.now, limit)|,
       average := Average(prior, currency),
       lifetimeSuccesses := Successes(prior),
       previousDevices := Devices(prior))
  }

  /** The same facts from the whole history. */
  function FullFacts(w: Windows, h: Past, x: Context, currency: Option<nat>): Context {
    var prior := SelectBefore(h.payments, w.now);
    x.(recentAttempts := Exact(h.payments, w.velocity, w.now),
       recentFailures := ExactFailed(h.payments, w.failure, w.now),
       distinctCountries := |ExactCountries(h.payments, w.country, w.now)|,
       recentRefunds := Exact(h.refunds, w.lookback, w.now),
       productViews := Exact(h.views, w.views, w.now),
       average := Average(prior, currency),
       lifetimeSuccesses := Successes(prior),
       previousDevices := Devices(prior))
  }

  // ----- the signals of the account-takeover rule -----

  /** Some success is on the page, or none was cut off. */
  predicate EstablishedKept(page: seq<Row>, cut: seq<Row>) {
    Successes(page) > 0 || Successes(cut) == 0
  }

  /** A device on the page is enough; otherwise the cut must not change whether the device is new. */
  predicate NoveltyKept(device: Option<nat>, page: seq<Row>, cut: seq<Row>) {
    || device == None
    || (if Devices(page) == {} then Devices(cut) == {} || device.value in Devices(cut)
        else device.value in Devices(page) || device.value !in Devices(cut))
  }

  /** By how much an amount, taken once for every successful one, is above the multiple of their sum. */
  function Room(c: Config, amount: real, rows: seq<Row>, currency: nat): real {
    amount * Matching(rows, currency) as real - Spent(rows, currency) * c.amountMultiplier
  }

  /** If the amount deviates on the page, the cut leaves it the room it has; if not, the cut makes none. */
  predicate DeviationKept(c: Config, amount: Option<real>, currency: Option<nat>, page: seq<Row>, cut: seq<Row>) {
    || amount == None || currency == None || Matching(cut, currency.value) == 0
    || var k, spent := currency.value, Spent(page, currency.value);
       var full := spent + Spent(cut, k) > 0.0 && Room(c, amount.value, page, k) + Room(c, amount.value, cut, k) >= 0.0;
       if Matching(page, k) > 0 && spent > 0.0 && Room(c, amount.value, page, k) >= 0.0 then full else !full
  }

  lemma DeviatesByRoom(c: Config, x: Context, rows: seq<Row>, currency: Option<nat>)
    requires x.average == Average(rows, currency)
    ensures Deviates(c, x) <==>
            && x.amount.Some? && currency.Some? && Matching(rows, currency.value) > 0
            && Spent(rows, currency.value) > 0.0 && Room(c, x.amount.value, rows, currency.value) >= 0.0
  {
    hide Matching, Spent;
    if x.amount.Some? && currency.Some? && Matching(rows, currency.value) > 0 {
      MeanAgainst(x.amount.value, Spent(rows, currency.value), Matching(rows, currency.value), c.amountMultiplier);
    }
  }

  lemma MeanAgainst(amount: real, spent: real, n: nat, multiplier: real)
    requires n > 0
    ensures spent / n as real > 0.0 <==> spent > 0.0
    ensures amount >= spent / n as real * multiplier <==> amount * n as real - spent * multiplier >= 0.0
  {
    var mean, m := spent / n as real, n as real;
    assert mean * m == spent;
    assert spent * multiplier == (mean * multiplier) * m;
    assert (amount - mean * multiplier) * m == amount * m - spent * multiplier;
  }

  /** Each signal is the same on the page as on the whole history exactly under its own condition. */
  lemma SignalsKept(c: Config, w: Windows, h: Past, x: Context, currency: Option<nat>, limit: nat)
    ensures var y, z := BoundedFacts(w, h, x, currency, limit), FullFacts(w, h, x, currency);
            var page, cut := Prior(h.payments, w.now, limit), PriorCut(h.payments, w.now, limit);
            && ((y.lifetimeSuccesses > 0 <==> z.lifetimeSuccesses > 0) <==> EstablishedKept(page, cut))
            && ((IsNewDevice(y) <==> IsNewDevice(z)) <==> NoveltyKept(x.currentDevice, page, cut))
            && ((Deviates(c, y) <==> Deviates(c, z)) <==> DeviationKept(c, x.amount, currency, page, cut))
  {
    hide Page, Prior, PriorCut, SelectBefore, Exact, ExactFailed, CountSince, FailedSince, CountriesSince, ExactCountries;
    hide Average, Successes, Devices, Matching, Spent, Deviates;
    var page, cut, all := Prior(h.payments, w.now, limit), PriorCut(h.payments, w.now, limit), SelectBefore(h.payments, w.now);
    PriorSplit(h.payments, w.now, limit, if currency.Some? then currency.value else 0);
    DeviatesByRoom(c, BoundedFacts(w, h, x, currency, limit), page, currency);
    DeviatesByRoom(c, FullFacts(w, h, x, currency), all, currency);
    if x.amount.Some? && currency.Some? {
      NothingMatches(cut, currency.value);
      RoomAdds(c, x.amount.value, page, cut, all, currency.value);
    }
  }

  lemma RoomAdds(c: Config, amount: real, page: seq<Row>, cut: seq<Row>, all: seq<Row>, k: nat)
    requires Matching(page, k) + Matching(cut, k) == Matching(all, k) && Spent(page, k) + Spent(cut, k) == Spent(all, k)
    ensures Room(c, amount, all, k) == Room(c, amount, page, k) + Room(c, amount, cut, k)
  {
    hide Matching, Spent;
    var m, n := Matching(page, k) as real, Matching(cut, k) as real;
    assert Matching(all, k) as real == m + n;
    assert amount * (m + n) == amount * m + amount * n;
  }

  /** What the whole history adds to a signal of the page. */
  function Change(kept: bool, on: bool): int {
    if kept then 0 else if on then -1 else 1
  }

  /** What the rows cut off add to the number of signals, each judged by its own condition. */
  function Shift(c: Config, y: Context, currency: Option<nat>, page: seq<Row>, cut: seq<Row>): int {
    Change(EstablishedKept(page, cut), y.lifetimeSuccesses > 0) +
    Change(NoveltyKept(y.currentDevice, page, cut), IsNewDevice(y)) +
    Change(DeviationKept(c, y.amount, currency, page, cut), Deviates(c, y))
  }

  lemma SignalsShift(c: Config, w: Windows, h: Past, x: Context, currency: Option<nat>, limit: nat)
    ensures var y := BoundedFacts(w, h, x, currency, limit);
            Signals(c, FullFacts(w, h, x, currency)) ==
            Signals(c, y) + Shift(c, y, currency, Prior(h.payments, w.now, limit), PriorCut(h.payments, w.now, limit))
  {
    hide Page, Prior, PriorCut, SelectBefore, Exact, ExactFailed, CountSince, FailedSince, CountriesSince, ExactCountries;
    hide Average, Successes, Devices, Deviates, EstablishedKept, NoveltyKept, DeviationKept, IsNewDevice;
    SignalsKept(c, w, h, x, currency, limit);
  }

  // ----- rule by rule -----

  /** The number of refunds from which the refund rule matches. */
  function RefundBar(c: Config, x: Context): nat {
    if x.secondsSincePayment.Some? && x.secondsSincePayment.value <= c.rapidRefundSeconds && NearFull(c, x) then 2 else 3
  }

  /** When a rule is judged on the page as on the whole history. */
  predicate Covered(c: Config, k: Kind, w: Windows, h: Past, x: Context, currency: Option<nat>, limit: nat) {
    var page, cut := Prior(h.payments, w.now, limit), PriorCut(h.payments, w.now, limit);
    match k
    case HighAmount => DeviationKept(c, x.amount, currency, page, cut)
    case PaymentVelocity =>
      || Exact(h.payments, w.velocity, w.now) < c.velocityMaxAttempts
      || (c.velocityMaxAttempts <= limit && c.velocityMaxAttempts <= Exact(h.payments, Max(w.lookback, w.velocity), w.now))
    case FailedPaymentBurst =>
      || ExactFailed(h.payments, w.failure, w.now) < c.failedPaymentThreshold
      || c.failedPaymentThreshold + MissedFailures(h.payments, w.lookback, w.now, limit, w.failure) <=
         ExactFailed(h.payments, Max(w.lookback, w.failure), w.now)
    case NewDevice => NewDeviceKept(c.minHistoryForDevice, x.currentDevice, page, cut)
    case CountryMismatch =>
      var shown := CountriesSince(Page(h.payments, w.lookback, w.now, limit), w.country);
      |shown| > 1 || |shown + HiddenCountries(h.payments, w.lookback, w.now, limit, w.country)| <= 1
    case RapidCheckout => true
    case AccountTakeover =>
      var y := BoundedFacts(w, h, x, currency, limit);
      var shift := Shift(c, y, currency, page, cut);
      Signals(c, y) + Min(shift, 0) >= c.takeoverMinSignals || Signals(c, y) + Max(shift, 0) < c.takeoverMinSignals
    case RefundAbuse => RefundBar(c, x) <= limit || Exact(h.refunds, w.lookback, w.now) < RefundBar(c, x)
    case BotCheckout => !Rapid(c, x) || c.botViewThreshold <= limit || Exact(h.views, w.views, w.now) < c.botViewThreshold
    case PaymentAmountMismatch => true
  }

  /** The facts `y` and `z` agree on whatever rule `k` looks at. */
  predicate Agree(c: Config, k: Kind, y: Context, z: Context) {
    match k
    case HighAmount => Deviates(c, y) <==> Deviates(c, z)
    case PaymentVelocity => y.recentAttempts >= c.velocityMaxAttempts <==> z.recentAttempts >= c.velocityMaxAttempts
    case FailedPaymentBurst => y.recentFailures >= c.failedPaymentThreshold <==> z.recentFailures >= c.failedPaymentThreshold
    case NewDevice => Novel(c, y) <==> Novel(c, z)
    case CountryMismatch => y.distinctCountries > 1 <==> z.distinctCountries > 1
    case RapidCheckout => true
    case AccountTakeover => Signals(c, y) >= c.takeoverMinSignals <==> Signals(c, z) >= c.takeoverMinSignals
    case RefundAbuse => y.recentRefunds >= RefundBar(c, y) <==> z.recentRefunds >= RefundBar(c, z)
    case BotCheckout => Rapid(c, y) ==> (y.productViews >= c.botViewThreshold <==> z.productViews >= c.botViewThreshold)
    case PaymentAmountMismatch => true
  }

  predicate Novel(c: Config, x: Context) {
    x.lifetimeSuccesses >= c.minHistoryForDevice && IsNewDevice(x)
  }

  /** They agree on everything that does not come from the history. */
  predicate SameEvent(y: Context, z: Context) {
    z == y.(recentAttempts := z.recentAttempts, recentFailures := z.recentFailures,
            distinctCountries := z.distinctCountries, recentRefunds := z.recentRefunds,
            productViews := z.productViews, average := z.average,
            lifetimeSuccesses := z.lifetimeSuccesses, previousDevices := z.previousDevices)
  }

  lemma AgreementDecides(c: Config, k: Kind, y: Context, z: Context)
    requires SameEvent(y, z)
    ensures KindFinding(c, k, y) == KindFinding(c, k, z) <==> Agree(c, k, y, z)
  {
    hide KindMaximum, NearFull, Deviates, Signals;
    SameNearFull(c, y, z);
  }

  lemma SameNearFull(c: Config, y: Context, z: Context)
    requires SameEvent(y, z)
    ensures NearFull(c, y) == NearFull(c, z)
  {
  }

  lemma CoveredAgrees(c: Config, k: Kind, w: Windows, h: Past, x: Context, currency: Option<nat>, limit: nat)
    requires ConfigOk(c)
    ensures Agree(c, k, BoundedFacts(w, h, x, currency, limit), FullFacts(w, h, x, currency)) <==>
            Covered(c, k, w, h, x, currency, limit)
  {
    hide Page, Prior, PriorCut, HiddenCountries, SelectBefore, Exact, ExactFailed, MissedFailures, CountSince, FailedSince;
    hide Average, Successes, Devices, CountriesSince, ExactCountries, EstablishedKept, NoveltyKept, DeviationKept;
    hide NewDeviceKept, NearFull, Deviates, Signals, Shift;
    SameNearFull(c, x, BoundedFacts(w, h, x, currency, limit));
    SameNearFull(c, x, FullFacts(w, h, x, currency));
    match k
    case PaymentVelocity => VerdictOf(h.payments, w.lookback, w.now, limit, w.velocity, c.velocityMaxAttempts);
    case FailedPaymentBurst =>
      BurstVerdictOf(h.payments, w.lookback, w.now, limit, w.failure, c.failedPaymentThreshold);
    case CountryMismatch => SpreadVerdictOf(h.payments, w.lookback, w.now, limit, w.country);
    case RefundAbuse => PageLength(h.refunds, w.lookback, w.now, limit);
    case BotCheckout => PageLength(h.views, w.views, w.now, limit);
    case RapidCheckout =>
    case PaymentAmountMismatch =>
    case NewDevice => NewDeviceVerdictOf(h.payments, w.now, limit, c.minHistoryForDevice, x.currentDevice);
    case HighAmount => SignalsKept(c, w, h, x, currency, limit);
    case AccountTakeover => SignalsShift(c, w, h, x, currency, limit);
  }

  /** A rule finds the same on the bounded context as on the one of the whole history exactly when it is covered. */
  lemma RuleDecidesTheSame(c: Config, k: Kind, w: Windows, h: Past, x: Context, currency: Option<nat>, limit: nat)
    requires ConfigOk(c)
    ensures KindFinding(c, k, BoundedFacts(w, h, x, currency, limit)) == KindFinding(c, k, FullFacts(w, h, x, currency)) <==>
            Covered(c, k, w, h, x, currency, limit)
  {
    hide Covered, KindFinding, Agree, Page, Prior;
    CoveredAgrees(c, k, w, h, x, currency, limit);
    AgreementDecides(c, k, BoundedFacts(w, h, x, currency, limit), FullFacts(w, h, x, currency));
  }

  predicate CoveredRule(c: Config, r: Rule, w: Windows, h: Past, x: Context, currency: Option<nat>, limit: nat) {
    r.BuiltIn? && (Supports(r, x.eventType) ==> Covered(c, r.kind, w, h, x, currency, limit))
  }

  lemma ShareDecidesTheSame(c: Config, r: Rule, w: Windows, h: Past, x: Context, currency: Option<nat>, limit: nat)
    requires ConfigOk(c) && r.BuiltIn?
    ensures Share(c, r, BoundedFacts(w, h, x, currency, limit)) == Share(c, r, FullFacts(w, h, x, currency)) <==>
            CoveredRule(c, r, w, h, x, currency, limit)
  {
    hide KindFinding, KindMaximum, KindSupports, Covered, Page, Prior, ConfigOk;
    RuleDecidesTheSame(c, r.kind, w, h, x, currency, limit);
    BuiltInIsSound(c, r.kind, BoundedFacts(w, h, x, currency, limit));
    BuiltInIsSound(c, r.kind, FullFacts(w, h, x, currency));
  }

  /**
   The engine's shares are those of the whole history exactly when every rule that applies to the
   event is covered; then so is its verdict, although the contexts may differ.
   */
  lemma {:induction false} EngineDecidesTheSame(
    c: Config, rules: seq<Rule>, w: Windows, h: Past, x: Context, currency: Option<nat>, limit: nat)
    requires ConfigOk(c) && AllBuiltIn(rules)
    ensures Shares(c, rules, BoundedFacts(w, h, x, currency, limit)) == Shares(c, rules, FullFacts(w, h, x, currency)) <==>
            forall i :: 0 <= i < |rules| ==> CoveredRule(c, rules[i], w, h, x, currency, limit)
    ensures (forall i :: 0 <= i < |rules| ==> CoveredRule(c, rules[i], w, h, x, currency, limit)) ==>
              Assess(c, rules, BoundedFacts(w, h, x, currency, limit)) == Assess(c, rules, FullFacts(w, h, x, currency))
  {
    hide Share, CoveredRule, Page, Prior, Judge, ConfigOk, BoundedFacts, FullFacts;
    if rules != [] {
      var n := |rules| - 1;
      var y, z := BoundedFacts(w, h, x, currency, limit), FullFacts(w, h, x, currency);
      EngineDecidesTheSame(c, rules[..n], w, h, x, currency, limit);
      ShareDecidesTheSame(c, rules[n], w, h, x, currency, limit);
      SnocEqual(Shares(c, rules[..n], y), Shares(c, rules[..n], z), Share(c, rules[n], y), Share(c, rules[n], z));
    }
  }

  lemma SnocEqual(a: seq<Finding>, b: seq<Finding>, f: Finding, g: Finding)
    ensures a + [f] == b + [g] <==> a == b && f == g
  {
    if a + [f] == b + [g] {
      assert a == (a + [f])[..|a|] && f == (a + [f])[|a|];
      assert |a| + 1 == |a + [f]| == |b + [g]| == |b| + 1;
      assert b == (b + [g])[..|b|] && g == (b + [g])[|b|];
    }
  }

  // ----- verdicts that no limit protects -----

  /** The history of `ForgottenPast` and nothing else. */
  function Forgotten(limit: nat, n: nat, now: int): Past {
    Past(ForgottenPast(limit, n, now), [], [])
  }

  /**
   High amount: whatever the limit, an amount that deviates from the average of the whole history
   passes because the page shows no average.
   */
  lemma NoLimitProtectsHighAmount(c: Config, w: Windows, x: Context, limit: nat)
    requires ConfigOk(c) && x.amount.Some? && x.amount.value >= c.amountMultiplier
    ensures var h := Forgotten(limit, 1, w.now);
            KindFinding(c, HighAmount, BoundedFacts(w, h, x, Some(0), limit)) !=
            KindFinding(c, HighAmount, FullFacts(w, h, x, Some(0)))
  {
    hide Page, Prior, SelectBefore, Exact, ExactFailed, CountSince, FailedSince, CountriesSince, ExactCountries;
    hide Average, Successes, Devices, KindMaximum;
    PastCanBeCrowdedOut(w.now, limit, 1);
  }

  /**
   Account takeover: whatever the limit and the required number of signals, a rapid purchase of a
   deviating amount on a new device is recognised on the whole history and not on the page.
   */
  lemma NoLimitProtectsTakeover(c: Config, w: Windows, x: Context, limit: nat)
    requires ConfigOk(c) && x.amount.Some? && x.amount.value >= c.amountMultiplier
    requires Rapid(c, x) && x.currentDevice == Some(1) && (Abroad(x) <==> c.takeoverMinSignals == 5)
    ensures var h := Forgotten(limit, 1, w.now);
            && KindFinding(c, AccountTakeover, FullFacts(w, h, x, Some(0))).matched
            && !KindFinding(c, AccountTakeover, BoundedFacts(w, h, x, Some(0), limit)).matched
  {
    hide Page, Prior, SelectBefore, Exact, ExactFailed, CountSince, FailedSince, CountriesSince, ExactCountries;
    hide Average, Successes, Devices, KindMaximum;
    PastCanBeCrowdedOut(w.now, limit, 1);
  }
}
