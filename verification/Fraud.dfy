/**
 The fraud rules, the engine that runs them and the aggregation of their results. Amounts and
 rates are real numbers; times are whole seconds.
 */
module Fraud {
  import opened Prelude

  datatype EventType = CheckoutStarted | OrderCreated | PaymentFailed | PaymentCompleted | RefundRequested

  datatype Severity = Low | Medium | High | Critical

  datatype Decision = Approve | Review | Block

  datatype Config = Config(
    reviewThreshold: int, blockThreshold: int,
    highAmountThreshold: real, amountMultiplier: real, highAmountScore: int, deviationScore: int,
    velocityMaxAttempts: int, velocityScore: int,
    failedPaymentThreshold: int, failedPaymentScore: int,
    newDeviceScore: int, minHistoryForDevice: int,
    countryMismatchScore: int, multiCountryScore: int,
    rapidCheckoutSeconds: int, rapidCheckoutScore: int,
    takeoverScore: int, takeoverMinSignals: int,
    refundRateThreshold: real, rapidRefundSeconds: int, refundAbuseScore: int,
    botViewThreshold: int, botCheckoutScore: int,
    amountMismatchScore: int)

  predicate Percent(n: int) { 0 <= n <= 100 }

  /** What the validated configuration promises. */
  predicate ConfigOk(c: Config) {
    && 0 <= c.reviewThreshold < c.blockThreshold <= 100
    && c.highAmountThreshold >= 0.0 && c.amountMultiplier > 1.0
    && Percent(c.highAmountScore) && Percent(c.deviationScore)
    && Percent(c.velocityScore) && Percent(c.failedPaymentScore) && Percent(c.newDeviceScore)
    && Percent(c.countryMismatchScore) && Percent(c.multiCountryScore)
    && Percent(c.rapidCheckoutScore) && Percent(c.takeoverScore) && 2 <= c.takeoverMinSignals <= 5
    && 0.0 <= c.refundRateThreshold <= 1.0 && Percent(c.refundAbuseScore)
    && Percent(c.botCheckoutScore) && Percent(c.amountMismatchScore)
    && c.velocityMaxAttempts > 0 && c.failedPaymentThreshold > 0 && c.minHistoryForDevice > 0
    && c.rapidCheckoutSeconds > 0 && c.rapidRefundSeconds > 0 && c.botViewThreshold > 0
  }

  datatype Context = Context(
    eventType: EventType, amount: Option<real>, average: Option<real>,
    checkoutSeconds: Option<nat>, currentDevice: Option<nat>, previousDevices: set<nat>,
    currentCountry: Option<nat>, homeCountry: nat,
    recentAttempts: nat, recentFailures: nat, distinctCountries: nat, recentRefunds: nat,
    lifetimeSuccesses: nat, productViews: nat, refundAmount: Option<real>, refundable: Option<real>,
    secondsSincePayment: Option<nat>, amountMatchesOrder: bool)

  datatype Kind =
    | HighAmount | PaymentVelocity | FailedPaymentBurst | NewDevice | CountryMismatch
    | RapidCheckout | AccountTakeover | RefundAbuse | BotCheckout | PaymentAmountMismatch

  datatype Finding = Finding(matched: bool, score: int, severity: Severity)

  /** A rule of the registry, or any other object with the rule protocol; no answer stands for an exception. */
  datatype Rule = BuiltIn(kind: Kind) | Custom(maximum: int, supported: set<EventType>, answer: Option<Finding>)

  predicate IsNewDevice(x: Context) {
    x.currentDevice.Some? && x.previousDevices != {} && x.currentDevice.value !in x.previousDevices
  }

  predicate Abroad(x: Context) {
    x.currentCountry.Some? && x.currentCountry.value != x.homeCountry
  }

  predicate Rapid(c: Config, x: Context) {
    x.checkoutSeconds.Some? && x.checkoutSeconds.value <= c.rapidCheckoutSeconds
  }

  predicate Deviates(c: Config, x: Context) {
    x.amount.Some? && x.average.Some? && x.average.value > 0.0 && x.amount.value >= x.average.value * c.amountMultiplier
  }

  predicate Absolute(c: Config, x: Context) {
    x.amount.Some? && x.amount.value >= c.highAmountThreshold
  }

  predicate NearFull(c: Config, x: Context) {
    && x.refundAmount.Some? && x.refundable.Some? && x.refundable.value > 0.0
    && x.refundAmount.value / x.refundable.value >= (if c.refundRateThreshold < 0.9 then 0.9 else c.refundRateThreshold)
  }

  function Bit(b: bool): nat { if b then 1 else 0 }

  function Signals(c: Config, x: Context): nat {
    Bit(x.lifetimeSuccesses > 0) + Bit(IsNewDevice(x)) + Bit(Abroad(x)) + Bit(Rapid(c, x)) + Bit(Deviates(c, x))
  }

  /** `helpers.result` */
  function Report(matched: bool, score: int, severity: Severity): Finding {
    if matched then Finding(true, score, severity) else Finding(false, 0, Low)
  }

  function KindSupports(k: Kind): set<EventType> {
    match k
    case HighAmount => {CheckoutStarted, OrderCreated, PaymentFailed, PaymentCompleted, RefundRequested}
    case PaymentVelocity => {PaymentFailed, PaymentCompleted}
    case FailedPaymentBurst => {PaymentFailed, PaymentCompleted}
    case NewDevice => {PaymentFailed, PaymentCompleted}
    case CountryMismatch => {OrderCreated, PaymentFailed, PaymentCompleted}
    case RapidCheckout => {CheckoutStarted, OrderCreated, PaymentFailed, PaymentCompleted}
    case AccountTakeover => {CheckoutStarted, OrderCreated, PaymentFailed, PaymentCompleted}
    case RefundAbuse => {RefundRequested}
    case BotCheckout => {CheckoutStarted, OrderCreated, PaymentFailed, PaymentCompleted}
    case PaymentAmountMismatch => {CheckoutStarted, OrderCreated, PaymentFailed, PaymentCompleted, RefundRequested}
  }

  function KindMaximum(c: Config, k: Kind): int {
    match k
    case HighAmount => Min(100, c.highAmountScore + c.deviationScore)
    case PaymentVelocity => c.velocityScore
    case FailedPaymentBurst => c.failedPaymentScore
    case NewDevice => c.newDeviceScore
    case CountryMismatch => Min(100, c.countryMismatchScore + c.multiCountryScore)
    case RapidCheckout => c.rapidCheckoutScore
    case AccountTakeover => c.takeoverScore
    case RefundAbuse => c.refundAbuseScore
    case BotCheckout => c.botCheckoutScore
    case PaymentAmountMismatch => c.amountMismatchScore
  }

  function KindFinding(c: Config, k: Kind, x: Context): Finding {
    var maximum := KindMaximum(c, k);
    match k
    case HighAmount =>
      var score := c.highAmountScore * Bit(Absolute(c, x)) + c.deviationScore * Bit(Deviates(c, x));
      Report(Absolute(c, x) || Deviates(c, x), Min(score, maximum), if Deviates(c, x) then High else Medium)
    case PaymentVelocity => Report(x.recentAttempts >= c.velocityMaxAttempts, maximum, Medium)
    case FailedPaymentBurst => Report(x.recentFailures >= c.failedPaymentThreshold, maximum, High)
    case NewDevice => Report(x.lifetimeSuccesses >= c.minHistoryForDevice && IsNewDevice(x), maximum, Medium)
    case CountryMismatch =>
      var multiple := x.distinctCountries > 1;
      var score := c.countryMismatchScore * Bit(Abroad(x)) + c.multiCountryScore * Bit(multiple);
      Report(Abroad(x) || multiple, Min(score, maximum), if multiple then High else Medium)
    case RapidCheckout => Report(Rapid(c, x), maximum, Medium)
    case AccountTakeover => Report(Signals(c, x) >= c.takeoverMinSignals, maximum, Critical)
    case RefundAbuse =>
      var rapid := x.secondsSincePayment.Some? && x.secondsSincePayment.value <= c.rapidRefundSeconds;
      Report(x.recentRefunds >= 3 || (rapid && NearFull(c, x) && x.recentRefunds >= 2), maximum, High)
    case BotCheckout => Report(x.productViews >= c.botViewThreshold && Rapid(c, x), maximum, Medium)
    case PaymentAmountMismatch => Report(!x.amountMatchesOrder, maximum, Critical)
  }

  // ----- scoring -----

  function Rank(s: Severity): nat {
    match s
    case Low => 0
    case Medium => 1
    case High => 2
    case Critical => 3
  }

  function Standing(d: Decision): nat {
    match d
    case Approve => 0
    case Review => 1
    case Block => 2
  }

  datatype Verdict = Verdict(score: int, decision: Decision, severity: Severity)

  datatype EngineError = RuleFailed | ExceededMaximum | NegativeScore

  datatype Outcome<+T> = Done(value: T) | Failed(error: EngineError)

  function SumMatched(results: seq<Finding>): int {
    if results == [] then 0
    else SumMatched(results[..|results| - 1]) + (var r := results[|results| - 1]; if r.matched then r.score else 0)
  }

  function Worse(a: Severity, b: Severity): Severity {
    if Rank(a) < Rank(b) then b else a
  }

  /** The highest severity among the matched results; Low when there is none. */
  function Worst(results: seq<Finding>): Severity {
    if results == [] then Low
    else
      var r := results[|results| - 1];
      Worse(Worst(results[..|results| - 1]), if r.matched then r.severity else Low)
  }

  function Decide(c: Config, score: int): (Decision, Severity) {
    if score >= c.blockThreshold then (Block, High)
    else if score >= c.reviewThreshold then (Review, Medium)
    else (Approve, Low)
  }

  function Judge(c: Config, points: int, worst: Severity): Verdict {
    var score := Min(100, points);
    var (decision, minimum) := Decide(c, score);
    Verdict(score, decision, Worse(worst, minimum))
  }

  function Aggregate(c: Config, results: seq<Finding>): Outcome<Verdict> {
    if HasNegative(results) then Failed(NegativeScore)
    else Done(Judge(c, SumMatched(results), Worst(results)))
  }

  // ----- the engine -----

  predicate Supports(r: Rule, t: EventType) {
    match r
    case BuiltIn(k) => t in KindSupports(k)
    case Custom(_, supported, _) => t in supported
  }

  function MaximumOf(c: Config, r: Rule): int {
    match r
    case BuiltIn(k) => KindMaximum(c, k)
    case Custom(maximum, _, _) => maximum
  }

  function Answer(c: Config, r: Rule, x: Context): Outcome<Finding> {
    match r
    case BuiltIn(k) => Done(KindFinding(c, k, x))
    case Custom(_, _, answer) => if answer.None? then Failed(RuleFailed) else Done(answer.value)
  }

  /** One applicable rule's answer, checked against its declared maximum. */
  function Checked(c: Config, r: Rule, x: Context): Outcome<Finding> {
    match Answer(c, r, x)
    case Failed(e) => Failed(e)
    case Done(f) => if f.score > MaximumOf(c, r) then Failed(ExceededMaximum) else Done(f)
  }

  predicate Sound(c: Config, r: Rule, x: Context) {
    Supports(r, x.eventType) ==> Checked(c, r, x).Done? && Checked(c, r, x).value.score >= 0
  }

  /** What a rule adds to an evaluation. */
  function Share(c: Config, r: Rule, x: Context): Finding {
    if Supports(r, x.eventType) && Checked(c, r, x).Done? then Checked(c, r, x).value else Finding(false, 0, Low)
  }

  function Shares(c: Config, rules: seq<Rule>, x: Context): seq<Finding> {
    if rules == [] then [] else Shares(c, rules[..|rules| - 1], x) + [Share(c, rules[|rules| - 1], x)]
  }

  /** The verdict as a function of the rules' shares alone. */
  function Assess(c: Config, rules: seq<Rule>, x: Context): Verdict {
    Judge(c, SumMatched(Shares(c, rules, x)), Worst(Shares(c, rules, x)))
  }

  lemma SumSnoc(results: seq<Finding>, f: Finding)
    ensures SumMatched(results + [f]) == SumMatched(results) + if f.matched then f.score else 0
    ensures Worst(results + [f]) == Worse(Worst(results), if f.matched then f.severity else Low)
  {
    assert (results + [f])[..|results|] == results;
  }

  /** The findings of all applicable rules in order, or the failure of the first that fails. */
  function Collected(c: Config, rules: seq<Rule>, x: Context): Outcome<seq<Finding>> {
    if rules == [] then Done([])
    else
      var n := |rules| - 1;
      match Collected(c, rules[..n], x)
      case Failed(e) => Failed(e)
      case Done(findings) =>
        if !Supports(rules[n], x.eventType) then Done(findings)
        else
          match Checked(c, rules[n], x)
          case Failed(e) => Failed(e)
          case Done(f) => Done(findings + [f])
  }

  lemma {:induction false} FirstFailureStands(c: Config, rules: seq<Rule>, x: Context, i: nat)
    requires i <= |rules| && Collected(c, rules[..i], x).Failed?
    ensures Collected(c, rules, x) == Collected(c, rules[..i], x)
    decreases |rules|
  {
    if i < |rules| {
      var n := |rules| - 1;
      assert rules[..n][..i] == rules[..i];
      FirstFailureStands(c, rules[..n], x, i);
    } else {
      assert rules[..i] == rules;
    }
  }

  predicate HasNegative(results: seq<Finding>) {
    exists i :: 0 <= i < |results| && results[i].score < 0
  }

  /** The engine succeeds exactly when every rule behaves, and its verdict is that of the shares. */
  lemma {:induction false} EngineOutcome(c: Config, rules: seq<Rule>, x: Context)
    ensures var r := Collected(c, rules, x);
            && ((r.Done? && !HasNegative(r.value)) <==> forall i :: 0 <= i < |rules| ==> Sound(c, rules[i], x))
            && (r.Done? ==> Judge(c, SumMatched(r.value), Worst(r.value)) == Assess(c, rules, x))
  {
    hide Judge, Checked, Supports;
    if Collected(c, rules, x).Done? { EngineSums(c, rules, x); }
    EngineSucceeds(c, rules, x);
  }

  lemma {:induction false} EngineSums(c: Config, rules: seq<Rule>, x: Context)
    requires Collected(c, rules, x).Done?
    ensures var findings := Collected(c, rules, x).value;
            SumMatched(findings) == SumMatched(Shares(c, rules, x)) && Worst(findings) == Worst(Shares(c, rules, x))
  {
    hide Checked, Supports;
    if rules != [] {
      var n := |rules| - 1;
      EngineSums(c, rules[..n], x);
      SumSnoc(Shares(c, rules[..n], x), Share(c, rules[n], x));
      if Supports(rules[n], x.eventType) {
        SumSnoc(Collected(c, rules[..n], x).value, Checked(c, rules[n], x).value);
      }
    }
  }

  lemma {:induction false} EngineSucceeds(c: Config, rules: seq<Rule>, x: Context)
    ensures var r := Collected(c, rules, x);
            (r.Done? && !HasNegative(r.value)) <==> forall i :: 0 <= i < |rules| ==> Sound(c, rules[i], x)
  {
    hide Checked, Supports;
    if rules != [] {
      var n := |rules| - 1;
      EngineSucceeds(c, rules[..n], x);
      var before, r := Collected(c, rules[..n], x), Collected(c, rules, x);
      assert forall i :: 0 <= i < n ==> rules[..n][i] == rules[i];
      if before.Done? && r.Done? && Supports(rules[n], x.eventType) {
        NegativeSnoc(before.value, Checked(c, rules[n], x).value);
      }
    }
  }

  lemma NegativeSnoc(results: seq<Finding>, f: Finding)
    ensures HasNegative(results + [f]) <==> HasNegative(results) || f.score < 0
  {
    if f.score < 0 { assert (results + [f])[|results|].score < 0; }
    if HasNegative(results) {
      var i :| 0 <= i < |results| && results[i].score < 0;
      assert (results + [f])[i].score < 0;
    }
  }

  /** The scores of the matched results, each taken once. */
  function Points(results: seq<Finding>, matched: set<nat>): int
    requires forall i :: i in matched ==> i < |results|
  {
    if results == [] then 0
    else
      var n := |results| - 1;
      Points(results[..n], matched - {n}) + if n in matched then results[n].score else 0
  }

  function MatchedOf(results: seq<Finding>): set<nat> {
    set i: nat | i < |results| && results[i].matched
  }

  /** The decision on block and review, by the two thresholds alone. */
  predicate DecidedBy(c: Config, v: Verdict) {
    && (v.decision == Block <==> v.score >= c.blockThreshold)
    && (v.decision == Review <==> c.reviewThreshold <= v.score < c.blockThreshold)
    && (v.decision == Approve <==> v.score < c.blockThreshold && v.score < c.reviewThreshold)
  }

  /** The least severity that goes with a decision. */
  predicate Floor(d: Decision, s: Severity) {
    (d == Block && s == High) || (d == Review && s == Medium) || (d == Approve && s == Low)
  }

  /**
   What a verdict says of the results: the points of the matched ones up to 100, the decision by
   the thresholds, and the least severity that neither a matched result nor the decision exceeds.
   */
  predicate Means(c: Config, results: seq<Finding>, v: Verdict) {
    && v.score == Min(100, Points(results, MatchedOf(results)))
    && DecidedBy(c, v)
    && (forall i :: 0 <= i < |results| && results[i].matched ==> Rank(results[i].severity) <= Rank(v.severity))
    && (v.decision == Block ==> Rank(v.severity) >= Rank(High))
    && (v.decision == Review ==> Rank(v.severity) >= Rank(Medium))
    && (Floor(v.decision, v.severity) || exists i :: 0 <= i < |results| && results[i].matched && results[i].severity == v.severity)
  }

  lemma {:induction false} PointsAreMatched(results: seq<Finding>)
    ensures SumMatched(results) == Points(results, MatchedOf(results))
  {
    if results != [] {
      var n := |results| - 1;
      PointsAreMatched(results[..n]);
      assert MatchedOf(results) - {n} == MatchedOf(results[..n]);
    }
  }

  lemma {:induction false} WorstIsGreatest(results: seq<Finding>)
    ensures forall i :: 0 <= i < |results| && results[i].matched ==> Rank(results[i].severity) <= Rank(Worst(results))
    ensures Worst(results) == Low || exists i :: 0 <= i < |results| && results[i].matched && results[i].severity == Worst(results)
  {
    if results != [] {
      var n := |results| - 1;
      WorstIsGreatest(results[..n]);
      assert results == results[..n] + [results[n]];
    }
  }

  lemma VerdictMeans(c: Config, rules: seq<Rule>, x: Context)
    ensures Means(c, Shares(c, rules, x), Assess(c, rules, x))
  {
    hide Shares, SumMatched, Worst, Points, MatchedOf;
    PointsAreMatched(Shares(c, rules, x));
    WorstIsGreatest(Shares(c, rules, x));
  }

  /** An applicable rule ends the evaluation: it raises, or scores above its declared maximum. */
  predicate FailsAs(c: Config, r: Rule, x: Context, e: EngineError) {
    && Supports(r, x.eventType)
    && (if r.Custom? && r.answer == None then e == RuleFailed
        else (if r.Custom? then r.answer.value else KindFinding(c, r.kind, x)).score > MaximumOf(c, r) && e == ExceededMaximum)
  }

  predicate Fails(c: Config, r: Rule, x: Context) {
    FailsAs(c, r, x, RuleFailed) || FailsAs(c, r, x, ExceededMaximum)
  }

  /** `evaluate`: the rules in order; the first failure ends it. */
  method Evaluate(c: Config, rules: seq<Rule>, x: Context) returns (r: Outcome<Verdict>)
    ensures Collected(c, rules, x).Failed? ==> r == Failed(Collected(c, rules, x).error)
    ensures Collected(c, rules, x).Done? ==> r == Aggregate(c, Collected(c, rules, x).value)
    ensures r.Done? <==> forall i :: 0 <= i < |rules| ==> Sound(c, rules[i], x)
    ensures r.Done? ==> r.value == Assess(c, rules, x) && Means(c, Shares(c, rules, x), r.value)
    ensures r.Failed? && r.error != NegativeScore ==>
              exists i :: 0 <= i < |rules| && FailsAs(c, rules[i], x, r.error) && forall j :: 0 <= j < i ==> !Fails(c, rules[j], x)
    ensures r == Failed(NegativeScore) ==> forall i :: 0 <= i < |rules| ==> !Fails(c, rules[i], x)
  {
    hide KindFinding, KindMaximum, KindSupports, Judge, Shares, Assess, Sound, SumMatched, Worst, Means;
    var results: seq<Finding> := [];
    EngineOutcome(c, rules, x);
    VerdictMeans(c, rules, x);
    for i := 0 to |rules|
      invariant Collected(c, rules[..i], x) == Done(results)
      invariant forall j :: 0 <= j < i ==> !Fails(c, rules[j], x)
    {
      assert rules[..i + 1][..i] == rules[..i];
      if Supports(rules[i], x.eventType) {
        var answer := Answer(c, rules[i], x);
        if answer.Failed? {
          FirstFailureStands(c, rules, x, i + 1);
          return Failed(answer.error);
        }
        if answer.value.score > MaximumOf(c, rules[i]) {
          FirstFailureStands(c, rules, x, i + 1);
          return Failed(ExceededMaximum);
        }
        results := results + [answer.value];
      }
    }
    assert rules[..|rules|] == rules;
    r := Aggregate(c, results);
  }

  predicate AllBuiltIn(rules: seq<Rule>) {
    forall i :: 0 <= i < |rules| ==> rules[i].BuiltIn?
  }

  /** With a valid configuration no built-in rule trips the engine, whatever the facts. */
  lemma BuiltInIsSound(c: Config, k: Kind, x: Context)
    requires ConfigOk(c)
    ensures Sound(c, BuiltIn(k), x)
    ensures var f := KindFinding(c, k, x); 0 <= f.score <= KindMaximum(c, k) <= 100 && (!f.matched ==> f == Finding(false, 0, Low))
  {
    hide Deviates, Absolute, NearFull, IsNewDevice, Abroad, Rapid, Signals;
  }

  /** So an evaluation by built-in rules always succeeds, with a score within 0..100. */
  lemma {:induction false} BuiltInsAreSound(c: Config, rules: seq<Rule>, x: Context)
    requires ConfigOk(c) && AllBuiltIn(rules)
    ensures forall i :: 0 <= i < |rules| ==> Sound(c, rules[i], x)
    ensures 0 <= SumMatched(Shares(c, rules, x)) && 0 <= Assess(c, rules, x).score <= 100
  {
    hide KindFinding, KindMaximum, KindSupports, ConfigOk;
    if rules != [] {
      var n := |rules| - 1;
      BuiltInsAreSound(c, rules[..n], x);
      BuiltInIsSound(c, rules[n].kind, x);
      SumSnoc(Shares(c, rules[..n], x), Share(c, rules[n], x));
    }
  }

  // ----- monotonicity -----

  ghost predicate NoLower(v: Verdict, w: Verdict) {
    v.score <= w.score && Standing(v.decision) <= Standing(w.decision) && Rank(v.severity) <= Rank(w.severity)
  }

  lemma JudgeIsMonotone(c: Config, points: int, points': int, worst: Severity, worst': Severity)
    requires ConfigOk(c) && points <= points' && Rank(worst) <= Rank(worst')
    ensures NoLower(Judge(c, points, worst), Judge(c, points', worst'))
  {
  }

  /** A blocked payment is at least HIGH and a reviewed one at least MEDIUM. */
  lemma SeverityMatchesDecision(c: Config, rules: seq<Rule>, x: Context)
    requires ConfigOk(c)
    ensures var v := Assess(c, rules, x); Rank(v.severity) >= Standing(v.decision)
  {
    hide Shares, SumMatched, Worst;
  }

  /** Adding a result with a legal score never lowers the verdict. */
  lemma MoreResultsNeverHelp(c: Config, results: seq<Finding>, f: Finding)
    requires ConfigOk(c) && f.score >= 0 && Aggregate(c, results).Done?
    ensures Aggregate(c, results + [f]).Done?
    ensures NoLower(Aggregate(c, results).value, Aggregate(c, results + [f]).value)
  {
    SumSnoc(results, f);
    JudgeIsMonotone(c, SumMatched(results), SumMatched(results + [f]), Worst(results), Worst(results + [f]));
  }

  predicate AtMost(a: Option<real>, b: Option<real>) {
    a.Some? == b.Some? && (a.Some? ==> a.value <= b.value)
  }

  /** The same facts, with the amounts raised. */
  predicate Raised(x: Context, y: Context) {
    AtMost(x.amount, y.amount) && AtMost(x.refundAmount, y.refundAmount)
    && y == x.(amount := y.amount, refundAmount := y.refundAmount)
  }

  ghost predicate NoWeaker(f: Finding, g: Finding) {
    f.matched ==> g.matched && f.score <= g.score && Rank(f.severity) <= Rank(g.severity)
  }

  lemma QuotientGrows(a: real, b: real, d: real)
    requires a <= b && d > 0.0
    ensures a / d <= b / d
  {
  }

  lemma AmountSignalsGrow(c: Config, x: Context, y: Context)
    requires Raised(x, y)
    ensures Absolute(c, x) ==> Absolute(c, y)
    ensures Deviates(c, x) ==> Deviates(c, y)
    ensures NearFull(c, x) ==> NearFull(c, y)
  {
    if x.refundAmount.Some? && x.refundable.Some? && x.refundable.value > 0.0 {
      QuotientGrows(x.refundAmount.value, y.refundAmount.value, x.refundable.value);
    }
  }

  lemma KindIsMonotone(c: Config, k: Kind, x: Context, y: Context)
    requires ConfigOk(c) && Raised(x, y)
    ensures NoWeaker(KindFinding(c, k, x), KindFinding(c, k, y))
  {
    hide Deviates, Absolute, NearFull;
    AmountSignalsGrow(c, x, y);
  }

  lemma {:induction false} SharesAreMonotone(c: Config, rules: seq<Rule>, x: Context, y: Context)
    requires ConfigOk(c) && AllBuiltIn(rules) && Raised(x, y)
    ensures SumMatched(Shares(c, rules, x)) <= SumMatched(Shares(c, rules, y))
    ensures Rank(Worst(Shares(c, rules, x))) <= Rank(Worst(Shares(c, rules, y)))
  {
    hide KindFinding, KindMaximum, KindSupports, ConfigOk;
    if rules != [] {
      var n := |rules| - 1;
      SharesAreMonotone(c, rules[..n], x, y);
      KindIsMonotone(c, rules[n].kind, x, y);
      BuiltInIsSound(c, rules[n].kind, x);
      BuiltInIsSound(c, rules[n].kind, y);
      SumSnoc(Shares(c, rules[..n], x), Share(c, rules[n], x));
      SumSnoc(Shares(c, rules[..n], y), Share(c, rules[n], y));
    }
  }

  /** Raising the amount, with every other fact fixed, never lowers score, decision or severity. */
  lemma RaisingTheAmountNeverHelps(c: Config, rules: seq<Rule>, x: Context, y: Context)
    requires ConfigOk(c) && AllBuiltIn(rules) && Raised(x, y)
    ensures NoLower(Assess(c, rules, x), Assess(c, rules, y))
  {
    SharesAreMonotone(c, rules, x, y);
    JudgeIsMonotone(c, SumMatched(Shares(c, rules, x)), SumMatched(Shares(c, rules, y)),
                    Worst(Shares(c, rules, x)), Worst(Shares(c, rules, y)));
  }

  // ----- order of the rules -----

  function Without(rules: seq<Rule>, i: nat): seq<Rule>
    requires i < |rules|
  {
    rules[..i] + rules[i + 1..]
  }

  lemma AddShare(c: Config, rules: seq<Rule>, r: Rule, x: Context)
    ensures var f := Share(c, r, x);
            && SumMatched(Shares(c, rules + [r], x)) == SumMatched(Shares(c, rules, x)) + (if f.matched then f.score else 0)
            && Worst(Shares(c, rules + [r], x)) == Worse(Worst(Shares(c, rules, x)), if f.matched then f.severity else Low)
  {
    hide Share;
    assert (rules + [r])[..|rules|] == rules;
    SumSnoc(Shares(c, rules, x), Share(c, r, x));
  }

  lemma {:induction false} PullOut(c: Config, rules: seq<Rule>, x: Context, i: nat)
    requires i < |rules|
    ensures var f := Share(c, rules[i], x);
            var rest := Shares(c, Without(rules, i), x);
            && SumMatched(Shares(c, rules, x)) == SumMatched(rest) + (if f.matched then f.score else 0)
            && Worst(Shares(c, rules, x)) == Worse(Worst(rest), if f.matched then f.severity else Low)
    decreases |rules|
  {
    hide Share, Shares, SumMatched, Worst;
    var n := |rules| - 1;
    var front := rules[..n];
    assert rules == front + [rules[n]];
    AddShare(c, front, rules[n], x);
    if i == n {
      assert Without(rules, i) == front;
    } else {
      PullOut(c, front, x, i);
      assert Without(rules, i) == Without(front, i) + [rules[n]];
      AddShare(c, Without(front, i), rules[n], x);
    }
  }

  /** The order of the rules does not matter. */
  lemma {:induction false} OrderDoesNotMatter(c: Config, rules: seq<Rule>, others: seq<Rule>, x: Context)
    requires multiset(rules) == multiset(others)
    ensures SumMatched(Shares(c, rules, x)) == SumMatched(Shares(c, others, x))
    ensures Worst(Shares(c, rules, x)) == Worst(Shares(c, others, x))
    ensures Assess(c, rules, x) == Assess(c, others, x)
    decreases |rules|
  {
    hide Share, Judge, Shares;
    if rules == [] {
      assert |multiset(others)| == |others| == 0;
    } else {
      var n := |rules| - 1;
      assert rules[n] in multiset(others);
      var i :| 0 <= i < |others| && others[i] == rules[n];
      BagWithout(rules, n);
      BagWithout(others, i);
      assert Without(rules, n) == rules[..n];
      OrderDoesNotMatter(c, rules[..n], Without(others, i), x);
      PullOut(c, others, x, i);
      PullOut(c, rules, x, n);
    }
  }

  lemma BagWithout(rules: seq<Rule>, i: nat)
    requires i < |rules|
    ensures multiset(Without(rules, i)) == multiset(rules) - multiset{rules[i]}
  {
    assert rules == rules[..i] + [rules[i]] + rules[i + 1..];
  }

  // ----- what one matched rule forces -----

  predicate IsHit(c: Config, k: Kind, x: Context) {
    x.eventType in KindSupports(k) && KindFinding(c, k, x).matched
  }

  /** One matched rule is a lower bound on the whole verdict, wherever it stands and whatever else runs. */
  lemma HitCounts(c: Config, rules: seq<Rule>, x: Context, k: Kind)
    requires ConfigOk(c) && AllBuiltIn(rules) && BuiltIn(k) in rules && IsHit(c, k, x)
    ensures var f, v := KindFinding(c, k, x), Assess(c, rules, x);
            v.score >= Min(100, f.score) && Rank(v.severity) >= Rank(f.severity)
  {
    hide KindFinding, KindMaximum, KindSupports, Shares, SumMatched, Worst, ConfigOk;
    var i :| 0 <= i < |rules| && rules[i] == BuiltIn(k);
    PullOut(c, rules, x, i);
    BuiltInIsSound(c, k, x);
    assert AllBuiltIn(Without(rules, i));
    BuiltInsAreSound(c, Without(rules, i), x);
  }

  /** Payments that do not reconcile with their order are blocked as critical, whatever else is known. */
  lemma MismatchBlocks(c: Config, rules: seq<Rule>, x: Context)
    requires ConfigOk(c) && AllBuiltIn(rules) && BuiltIn(PaymentAmountMismatch) in rules
    requires !x.amountMatchesOrder && c.amountMismatchScore >= c.blockThreshold
    ensures Assess(c, rules, x).decision == Block && Assess(c, rules, x).severity == Critical
  {
    hide Shares, SumMatched, Worst;
    var t := x.eventType;
    assert t.CheckoutStarted? || t.OrderCreated? || t.PaymentFailed? || t.PaymentCompleted? || t.RefundRequested?;
    HitCounts(c, rules, x, PaymentAmountMismatch);
  }

  /** What a rule adds is nothing, or exactly this score and severity. */
  predicate Adds(f: Finding, hit: bool, score: int, severity: Severity) {
    if hit then f == Finding(true, score, severity) else f == Finding(false, 0, Low)
  }

  predicate OnPayment(t: EventType) { t == PaymentFailed || t == PaymentCompleted }

  predicate OnPurchase(t: EventType) { OnPayment(t) || t == CheckoutStarted || t == OrderCreated }

  /** The rules on counted history: which events they look at, from which count on, and what they add. */
  lemma HistoryRulesAdd(c: Config, x: Context)
    requires ConfigOk(c)
    ensures Adds(Share(c, BuiltIn(PaymentVelocity), x),
                 OnPayment(x.eventType) && x.recentAttempts >= c.velocityMaxAttempts, c.velocityScore, Medium)
    ensures Adds(Share(c, BuiltIn(FailedPaymentBurst), x),
                 OnPayment(x.eventType) && x.recentFailures >= c.failedPaymentThreshold, c.failedPaymentScore, High)
    ensures Adds(Share(c, BuiltIn(NewDevice), x),
                 OnPayment(x.eventType) && x.lifetimeSuccesses >= c.minHistoryForDevice && x.currentDevice.Some?
                 && x.previousDevices != {} && x.currentDevice.value !in x.previousDevices, c.newDeviceScore, Medium)
    ensures Adds(Share(c, BuiltIn(AccountTakeover), x),
                 OnPurchase(x.eventType) && Signals(c, x) >= c.takeoverMinSignals, c.takeoverScore, Critical)
    ensures Adds(Share(c, BuiltIn(BotCheckout), x),
                 OnPurchase(x.eventType) && x.productViews >= c.botViewThreshold && x.checkoutSeconds.Some?
                 && x.checkoutSeconds.value <= c.rapidCheckoutSeconds, c.botCheckoutScore, Medium)
  {
    hide Signals;
  }

  /** A purchase away from home adds its score, several recent countries theirs, up to 100 in all. */
  lemma CountryRuleAdds(c: Config, x: Context)
    requires ConfigOk(c)
    ensures var away, many := x.currentCountry.Some? && x.currentCountry.value != x.homeCountry, x.distinctCountries > 1;
            Adds(Share(c, BuiltIn(CountryMismatch), x),
                 (OnPayment(x.eventType) || x.eventType == OrderCreated) && (away || many),
                 Min(100, (if away then c.countryMismatchScore else 0) + if many then c.multiCountryScore else 0),
                 if many then High else Medium)
  {
  }

  /** The rules on the event itself. */
  lemma EventRulesAdd(c: Config, x: Context)
    requires ConfigOk(c)
    ensures Adds(Share(c, BuiltIn(RapidCheckout), x),
                 OnPurchase(x.eventType) && x.checkoutSeconds.Some? && x.checkoutSeconds.value <= c.rapidCheckoutSeconds,
                 c.rapidCheckoutScore, Medium)
    ensures Adds(Share(c, BuiltIn(PaymentAmountMismatch), x), !x.amountMatchesOrder, c.amountMismatchScore, Critical)
  {
    EveryEventType(x.eventType);
  }

  lemma EveryEventType(t: EventType)
    ensures OnPurchase(t) || t == RefundRequested
  {
  }

  /** An amount adds one score for its size and one for exceeding the average by the configured multiple. */
  lemma AmountRuleAdds(c: Config, x: Context)
    requires ConfigOk(c)
    ensures var large := x.amount.Some? && x.amount.value >= c.highAmountThreshold;
            var unusual := x.amount.Some? && x.average.Some? && x.average.value > 0.0
                           && x.amount.value >= c.amountMultiplier * x.average.value;
            Adds(Share(c, BuiltIn(HighAmount), x), large || unusual,
                 Min(100, (if large then c.highAmountScore else 0) + if unusual then c.deviationScore else 0),
                 if unusual then High else Medium)
  {
    EveryEventType(x.eventType);
  }

  /** Three recent refunds are abuse, and two when a nearly full one follows its payment at once. */
  lemma RefundRuleAdds(c: Config, x: Context)
    requires ConfigOk(c)
    ensures var hasty := x.secondsSincePayment.Some? && x.secondsSincePayment.value <= c.rapidRefundSeconds;
            var full := x.refundAmount.Some? && x.refundable.Some? && x.refundable.value > 0.0
                        && x.refundAmount.value >= 0.9 * x.refundable.value
                        && x.refundAmount.value >= c.refundRateThreshold * x.refundable.value;
            Adds(Share(c, BuiltIn(RefundAbuse), x),
                 x.eventType == RefundRequested && (x.recentRefunds >= 3 || (x.recentRefunds == 2 && hasty && full)),
                 c.refundAbuseScore, High)
  {
    if x.refundAmount.Some? && x.refundable.Some? && x.refundable.value > 0.0 {
      RateAtLeast(x.refundAmount.value, x.refundable.value, 0.9);
      RateAtLeast(x.refundAmount.value, x.refundable.value, c.refundRateThreshold);
    }
  }

  lemma RateAtLeast(a: real, b: real, rate: real)
    requires b > 0.0
    ensures a / b >= rate <==> a >= rate * b
  {
    var q := a / b;
    assert q * b == a;
    assert (q - rate) * b == a - rate * b;
  }

  datatype Signal = Established | OnNewDevice | AwayFromHome | InAHurry | UnusualAmount

  predicate Shows(c: Config, x: Context, s: Signal) {
    match s
    case Established => x.lifetimeSuccesses > 0
    case OnNewDevice => IsNewDevice(x)
    case AwayFromHome => Abroad(x)
    case InAHurry => Rapid(c, x)
    case UnusualAmount => Deviates(c, x)
  }

  function Shown(c: Config, x: Context, signals: seq<Signal>): set<Signal> {
    set s | s in signals && Shows(c, x, s)
  }

  lemma ShownStep(c: Config, x: Context, signals: seq<Signal>, s: Signal)
    requires s !in signals
    ensures |Shown(c, x, signals + [s])| == |Shown(c, x, signals)| + Bit(Shows(c, x, s))
  {
    assert Shown(c, x, signals + [s]) == Shown(c, x, signals) + if Shows(c, x, s) then {s} else {};
  }

  /** The composite rule matches exactly when enough different signals show at once. */
  lemma TakeoverCountsSignals(c: Config, x: Context)
    ensures KindFinding(c, AccountTakeover, x).matched <==>
            |Shown(c, x, [Established, OnNewDevice, AwayFromHome, InAHurry, UnusualAmount])| >= c.takeoverMinSignals
  {
    hide Shown, Shows;
    var none: seq<Signal> := [];
    assert Shown(c, x, none) == {} by { ShownNothing(c, x); }
    ShownStep(c, x, none, Established);
    ShownStep(c, x, none + [Established], OnNewDevice);
    ShownStep(c, x, none + [Established] + [OnNewDevice], AwayFromHome);
    ShownStep(c, x, none + [Established] + [OnNewDevice] + [AwayFromHome], InAHurry);
    ShownStep(c, x, none + [Established] + [OnNewDevice] + [AwayFromHome] + [InAHurry], UnusualAmount);
    assert none + [Established] + [OnNewDevice] + [AwayFromHome] + [InAHurry] + [UnusualAmount] ==
           [Established, OnNewDevice, AwayFromHome, InAHurry, UnusualAmount];
    ShowsEach(c, x);
  }

  lemma ShownNothing(c: Config, x: Context)
    ensures Shown(c, x, []) == {}
  {
  }

  lemma ShowsEach(c: Config, x: Context)
    ensures Signals(c, x) == Bit(Shows(c, x, Established)) + Bit(Shows(c, x, OnNewDevice)) +
                             Bit(Shows(c, x, AwayFromHome)) + Bit(Shows(c, x, InAHurry)) + Bit(Shows(c, x, UnusualAmount))
  {
  }

  /** Enough signals at once block the payment as critical. */
  lemma TakeoverBlocks(c: Config, rules: seq<Rule>, x: Context)
    requires ConfigOk(c) && AllBuiltIn(rules) && BuiltIn(AccountTakeover) in rules && !x.eventType.RefundRequested?
    requires |Shown(c, x, [Established, OnNewDevice, AwayFromHome, InAHurry, UnusualAmount])| >= c.takeoverMinSignals
    requires c.takeoverScore >= c.blockThreshold
    ensures Assess(c, rules, x).decision == Block && Assess(c, rules, x).severity == Critical
  {
    hide Shares, SumMatched, Worst, Signals, Shown;
    TakeoverCountsSignals(c, x);
    var t := x.eventType;
    assert t.CheckoutStarted? || t.OrderCreated? || t.PaymentFailed? || t.PaymentCompleted?;
    HitCounts(c, rules, x, AccountTakeover);
  }

  /** When no rule matches, the payment is approved with score zero and low severity. */
  lemma {:induction false} NoHitApproves(c: Config, rules: seq<Rule>, x: Context)
    requires ConfigOk(c) && AllBuiltIn(rules)
    requires forall i :: 0 <= i < |rules| ==> !IsHit(c, rules[i].kind, x)
    ensures SumMatched(Shares(c, rules, x)) == 0 && Worst(Shares(c, rules, x)) == Low
    ensures c.reviewThreshold > 0 ==> Assess(c, rules, x) == Verdict(0, Approve, Low)
  {
    hide KindFinding, KindMaximum, KindSupports;
    if rules != [] {
      var n := |rules| - 1;
      NoHitApproves(c, rules[..n], x);
      BuiltInIsSound(c, rules[n].kind, x);
      SumSnoc(Shares(c, rules[..n], x), Share(c, rules[n], x));
    }
  }
}
