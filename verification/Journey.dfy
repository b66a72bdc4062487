/**
 The journey generator against the store that persists its events. Prices are in hundredths.
 Random draws are parameters of one journey; identifiers are fresh numbers.
 */
module JourneySpec {
  import opened Prelude
  import opened Commerce

  datatype Persona = Normal | Takeover | Bot | DiscountHunter | Indecisive | Suspicious

  datatype Profile = Profile(discountPercent: nat, actionDelay: nat, returnDelay: nat,
                             retriesPayment: bool, highValue: bool, reusesCart: bool)

  /** Delays in milliseconds. */
  function ProfileOf(p: Persona): Profile {
    match p
    case Normal => Profile(5, 30_000, 21_600_000, false, false, false)
    case Takeover => Profile(0, 500, 60_000, true, true, false)
    case Bot => Profile(0, 50, 5_000, false, false, false)
    case DiscountHunter => Profile(20, 180_000, 64_800_000, false, false, true)
    case Indecisive => Profile(8, 720_000, 86_400_000, false, false, true)
    case Suspicious => Profile(5, 2_000, 300_000, true, true, false)
  }

  /** `PRODUCT_CATALOGUE` by position. */
  const PRICES: seq<Money> := [129990, 24950, 79900, 44990]

  const TRY: Id := 0

  datatype Customer = Customer(persona: Persona, abandoned: Option<Id>, lastActivity: Option<int>, normalHistory: bool)

  datatype Pick = New(persona: Persona) | Returning(id: Id) | Impostor(id: Id)

  /** How the random choices of one journey come out. */
  datatype Draws = Draws(
    pick: Pick, now: int, identity: Id, views: seq<nat>, add: bool, choice: nat, quantity: nat,
    discounted: bool, checkout: bool, paid: seq<bool>, again: seq<bool>, refund: bool)

  predicate DrawsOk(d: Draws, maxAttempts: nat) {
    && d.views != [] && (forall i :: 0 <= i < |d.views| ==> d.views[i] < |PRICES|)
    && d.choice < |d.views| && 1 <= d.quantity <= 3
    && |d.paid| >= maxAttempts && |d.again| >= maxAttempts
  }

  /** The dearest, or cheapest, of the viewed products; the first of equals. */
  function Extreme(views: seq<nat>, dearest: bool): (p: nat)
    requires views != [] && forall i :: 0 <= i < |views| ==> views[i] < |PRICES|
    ensures p in views
    ensures forall i :: 0 <= i < |views| ==> if dearest then PRICES[views[i]] <= PRICES[p] else PRICES[p] <= PRICES[views[i]]
  {
    if |views| == 1 then views[0]
    else
      var n := |views| - 1;
      var best := Extreme(views[..n], dearest);
      if if dearest then PRICES[views[n]] > PRICES[best] else PRICES[views[n]] < PRICES[best] then views[n] else best
  }

  function CartProduct(persona: Persona, d: Draws): nat
    requires d.views != [] && d.choice < |d.views| && forall i :: 0 <= i < |d.views| ==> d.views[i] < |PRICES|
  {
    if ProfileOf(persona).highValue then Extreme(d.views, true)
    else if persona == DiscountHunter then Extreme(d.views, false)
    else d.views[d.choice]
  }

  /** `quantize` to a whole number of hundredths, ties to even. */
  function HalfEven(x: nat, d: nat): nat
    requires d > 0
  {
    var q, r := x / d, x % d;
    if 2 * r < d || (2 * r == d && q % 2 == 0) then q else q + 1
  }

  lemma HalfEvenIsNearest(x: nat, d: nat)
    requires d > 0
    ensures 2 * x - d <= 2 * (d * HalfEven(x, d)) <= 2 * x + d
  {
    var q, r := x / d, x % d;
    assert x == d * q + r;
    assert d * (q + 1) == d * q + d;
  }

  function Discount(subtotal: nat, persona: Persona): nat {
    HalfEven(subtotal * ProfileOf(persona).discountPercent, 100)
  }

  /** The prices leave every discounted total large enough for half of it to be refunded. */
  lemma TotalsAreSound(product: nat, quantity: nat, persona: Persona)
    requires product < |PRICES| && 1 <= quantity <= 3
    ensures var subtotal := PRICES[product] * quantity;
            var total := subtotal - Discount(subtotal, persona);
            && subtotal > 0 && 0 <= Discount(subtotal, persona) <= subtotal && total > 1
            && 0 < HalfEven(total, 2) <= total
  {
    var subtotal := PRICES[product] * quantity;
    assert subtotal >= 24950;
    HalfEvenIsNearest(subtotal * ProfileOf(persona).discountPercent, 100);
    assert subtotal * ProfileOf(persona).discountPercent <= 20 * subtotal;
    var total := subtotal - Discount(subtotal, persona);
    HalfEvenIsNearest(total, 2);
  }

  // ----- the terms of a journey -----

  /** What one journey sells: the product and quantity, and the amounts that follow. */
  datatype Terms = Terms(product: nat, quantity: nat, subtotal: Money, discount: Money, total: Money)

  /** A discount is drawn, or a discount hunter comes back after leaving a cart. */
  predicate Discounted(c: Customer, d: Draws) {
    d.discounted || (c.persona == DiscountHunter && c.abandoned.Some?)
  }

  /**
   The terms a customer's draws lead to. The product is one of the viewed ones, the dearest or the
   cheapest of them where the persona says so; the discount is the persona's percentage to the
   nearest hundredth where one applies, and nothing otherwise.
   */
  ghost predicate TermsFit(t: Terms, c: Customer, d: Draws) {
    && t.product in d.views && t.product < |PRICES| && t.quantity == d.quantity
    && (ProfileOf(c.persona).highValue ==> forall i :: 0 <= i < |d.views| && d.views[i] < |PRICES| ==> PRICES[d.views[i]] <= PRICES[t.product])
    && (c.persona == DiscountHunter ==> forall i :: 0 <= i < |d.views| && d.views[i] < |PRICES| ==> PRICES[t.product] <= PRICES[d.views[i]])
    && (!ProfileOf(c.persona).highValue && c.persona != DiscountHunter ==> d.choice < |d.views| && t.product == d.views[d.choice])
    && t.subtotal == PRICES[t.product] * t.quantity && t.total == t.subtotal - t.discount
    && (if Discounted(c, d) then -50 <= 100 * t.discount - t.subtotal * ProfileOf(c.persona).discountPercent <= 50 else t.discount == 0)
  }

  /** Every amount an event carries is that of the terms; a refund asks half of the total back. */
  predicate OnTerms(t: Terms, p: Payload) {
    match p
    case AddedToCart(_, _, _, product, quantity, unitPrice, currency) =>
      product == t.product && quantity == t.quantity && unitPrice * quantity == t.subtotal && currency == TRY
    case CheckoutStarted(_, _, _, n, subtotal, discount, total, currency) =>
      n == t.quantity && subtotal == t.subtotal && discount == t.discount && total == t.total && currency == TRY
    case OrderCreated(_, _, _, _, n, subtotal, discount, total, currency) =>
      n == t.quantity && subtotal == t.subtotal && discount == t.discount && total == t.total && currency == TRY
    case PaymentCompleted(_, _, _, amount, currency) => amount == t.total && currency == TRY
    case PaymentFailed(_, _, _, amount, currency) => amount == t.total && currency == TRY
    case RefundRequested(_, _, _, _, amount, currency) => t.total - 1 <= 2 * amount <= t.total + 1 && currency == TRY
    case _ => true
  }

  /** The terms as the generator computes them. */
  function TermsOf(c: Customer, d: Draws): Terms
    requires d.views != [] && d.choice < |d.views| && forall i :: 0 <= i < |d.views| ==> d.views[i] < |PRICES|
  {
    var product := CartProduct(c.persona, d);
    var subtotal := PRICES[product] * d.quantity;
    var discount := if Discounted(c, d) then Discount(subtotal, c.persona) else 0;
    Terms(product, d.quantity, subtotal, discount, subtotal - discount)
  }

  lemma TermsOfFit(c: Customer, d: Draws)
    requires d.views != [] && d.choice < |d.views| && forall i :: 0 <= i < |d.views| ==> d.views[i] < |PRICES|
    ensures TermsFit(TermsOf(c, d), c, d)
  {
    hide HalfEven;
    var t := TermsOf(c, d);
    HalfEvenIsNearest(t.subtotal * ProfileOf(c.persona).discountPercent, 100);
  }

  // ----- the time of a journey -----

  /** The time of the last event: registration takes none, every other event one action delay. */
  function TimeAfter(events: seq<Event>, began: int, pace: nat): int {
    if events == [] then began
    else TimeAfter(events[..|events| - 1], began, pace) + if events[|events| - 1].payload.UserRegistered? then 0 else pace
  }

  lemma TimeOneMore(events: seq<Event>, e: Event, began: int, pace: nat)
    ensures TimeAfter(events + [e], began, pace) == TimeAfter(events, began, pace) + if e.payload.UserRegistered? then 0 else pace
  {
    assert (events + [e])[..|events|] == events;
  }

  // ----- the script of a journey -----

  datatype Kind = Registration | Arrival | Viewing | Addition | Checkingout | Ordering | Success | FailedPayment | Refunding

  function KindOf(p: Payload): Kind {
    match p
    case UserRegistered(_, _) => Registration
    case SessionStarted(_, _, _) => Arrival
    case ProductViewed(_, _, _) => Viewing
    case AddedToCart(_, _, _, _, _, _, _) => Addition
    case CheckoutStarted(_, _, _, _, _, _, _, _) => Checkingout
    case OrderCreated(_, _, _, _, _, _, _, _, _) => Ordering
    case PaymentCompleted(_, _, _, _, _) => Success
    case PaymentFailed(_, _, _, _, _) => FailedPayment
    case RefundRequested(_, _, _, _, _, _) => Refunding
  }

  function Kinds(events: seq<Event>): (kinds: seq<Kind>)
    ensures |kinds| == |events|
  {
    if events == [] then [] else Kinds(events[..|events| - 1]) + [KindOf(events[|events| - 1].payload)]
  }

  /** Attempts go on until one succeeds, none is left, or the customer gives up. */
  function PaymentKinds(d: Draws, attempt: nat, maximum: nat): seq<Kind>
    requires |d.paid| >= maximum && |d.again| >= maximum
    decreases maximum - attempt
  {
    if attempt >= maximum then []
    else if d.paid[attempt] then [Success]
    else if d.again[attempt] then [FailedPayment] + PaymentKinds(d, attempt + 1, maximum)
    else [FailedPayment]
  }

  function Maximum(persona: Persona, maxAttempts: nat): nat {
    if ProfileOf(persona).retriesPayment then maxAttempts else 1
  }

  function PurchaseKinds(d: Draws, persona: Persona, maxAttempts: nat): seq<Kind>
    requires DrawsOk(d, maxAttempts) && maxAttempts > 0
  {
    var attempts := PaymentKinds(d, 0, Maximum(persona, maxAttempts));
    [Checkingout, Ordering] + attempts + if Success in attempts && d.refund then [Refunding] else []
  }

  function Views(n: nat): (views: seq<Kind>)
    ensures |views| == n
  {
    if n == 0 then [] else Views(n - 1) + [Viewing]
  }

  function Script(d: Draws, persona: Persona, isNew: bool, maxAttempts: nat): seq<Kind>
    requires DrawsOk(d, maxAttempts) && maxAttempts > 0
  {
    (if isNew then [Registration] else []) + [Arrival] + Views(|d.views|) + BasketKinds(d, persona, maxAttempts)
  }

  function BasketKinds(d: Draws, persona: Persona, maxAttempts: nat): seq<Kind>
    requires DrawsOk(d, maxAttempts) && maxAttempts > 0
  {
    if !d.add then [] else [Addition] + if d.checkout then PurchaseKinds(d, persona, maxAttempts) else []
  }

  lemma KindsOneMore(events: seq<Event>, e: Event)
    ensures Kinds(events + [e]) == Kinds(events) + [KindOf(e.payload)]
  {
    assert (events + [e])[..|events|] == events;
  }

  /** Only the last attempt can succeed, so a journey pays at most once. */
  lemma {:induction false} OnlyTheLastPays(d: Draws, attempt: nat, maximum: nat)
    requires |d.paid| >= maximum && |d.again| >= maximum
    ensures var ks := PaymentKinds(d, attempt, maximum);
            && |ks| <= Max(0, maximum - attempt)
            && (attempt < maximum ==> ks != [])
            && forall i :: 0 <= i < |ks| - 1 ==> ks[i] == FailedPayment
    decreases maximum - attempt
  {
    if attempt < maximum && !d.paid[attempt] && d.again[attempt] {
      OnlyTheLastPays(d, attempt + 1, maximum);
    }
  }

  /** The attempt that pays: all before it failed and were tried again. */
  predicate PaysAt(d: Draws, maximum: nat, a: nat)
    requires |d.paid| >= maximum && |d.again| >= maximum
  {
    a < maximum && d.paid[a] && forall b :: 0 <= b < a ==> !d.paid[b] && d.again[b]
  }

  lemma {:induction false} PaymentsMean(d: Draws, attempt: nat, maximum: nat)
    requires |d.paid| >= maximum && |d.again| >= maximum && attempt <= maximum
    requires forall b :: 0 <= b < attempt ==> !d.paid[b] && d.again[b]
    ensures Success in PaymentKinds(d, attempt, maximum) <==> exists a: nat :: PaysAt(d, maximum, a)
    ensures forall k :: k in PaymentKinds(d, attempt, maximum) ==> k == Success || k == FailedPayment
    decreases maximum - attempt
  {
    if attempt < maximum {
      if d.paid[attempt] {
        assert PaysAt(d, maximum, attempt);
      } else if d.again[attempt] {
        PaymentsMean(d, attempt + 1, maximum);
      } else {
        assert forall a: nat :: PaysAt(d, maximum, a) ==> a <= attempt;
      }
    }
  }

  lemma {:induction false} ManyViews(n: nat)
    ensures multiset(Views(n)) == multiset{}[Viewing := n]
  {
    if n > 0 { ManyViews(n - 1); }
  }

  /** What a basket contains: nothing, an addition, or a purchase with its payments and perhaps a refund. */
  ghost predicate BasketHolds(d: Draws, maximum: nat, kinds: multiset<Kind>, pays: bool) {
    var buys := d.add && d.checkout;
    && kinds[Registration] == 0 && kinds[Arrival] == 0 && kinds[Viewing] == 0
    && kinds[Addition] == (if d.add then 1 else 0)
    && kinds[Checkingout] == kinds[Ordering] == (if buys then 1 else 0)
    && kinds[Success] == (if buys && pays then 1 else 0)
    && kinds[Refunding] == (if buys && pays && d.refund then 1 else 0)
    && (if buys then 1 <= kinds[FailedPayment] + kinds[Success] <= maximum else kinds[FailedPayment] == 0)
  }

  lemma BasketMeans(d: Draws, persona: Persona, maxAttempts: nat)
    requires DrawsOk(d, maxAttempts) && maxAttempts > 0
    ensures |d.paid| >= Maximum(persona, maxAttempts) && |d.again| >= Maximum(persona, maxAttempts)
    ensures BasketHolds(d, Maximum(persona, maxAttempts), multiset(BasketKinds(d, persona, maxAttempts)),
                        exists a: nat :: PaysAt(d, Maximum(persona, maxAttempts), a))
  {
    hide ProfileOf, PaymentKinds, DrawsOk, BasketKinds, PurchaseKinds, PaysAt, Maximum;
    var maximum := Maximum(persona, maxAttempts);
    EnoughDraws(d, persona, maxAttempts);
    PaymentsMean(d, 0, maximum);
    OnlyTheLastPays(d, 0, maximum);
    PaymentsCount(PaymentKinds(d, 0, maximum));
    if d.add && d.checkout { PurchaseCounts(d, persona, maxAttempts); }
    BasketCounts(d, persona, maxAttempts);
  }

  /** What a script contains: each kind of event exactly as often as the draws say. */
  lemma ScriptMeans(d: Draws, persona: Persona, isNew: bool, maxAttempts: nat)
    requires DrawsOk(d, maxAttempts) && maxAttempts > 0
    ensures var script := multiset(Script(d, persona, isNew, maxAttempts));
            && script[Registration] == (if isNew then 1 else 0) && script[Arrival] == 1 && script[Viewing] == |d.views|
            && |d.paid| >= Maximum(persona, maxAttempts) && |d.again| >= Maximum(persona, maxAttempts)
            && BasketHolds(d, Maximum(persona, maxAttempts), script[Registration := 0][Arrival := 0][Viewing := 0],
                           exists a: nat :: PaysAt(d, Maximum(persona, maxAttempts), a))
  {
    hide Views, DrawsOk, BasketKinds, PaysAt, Maximum;
    BasketMeans(d, persona, maxAttempts);
    ManyViews(|d.views|);
    var front: seq<Kind> := (if isNew then [Registration] else []) + [Arrival];
    var basket := BasketKinds(d, persona, maxAttempts);
    assert Script(d, persona, isNew, maxAttempts) == front + Views(|d.views|) + basket;
    assert multiset(front) == (if isNew then multiset{Registration} else multiset{}) + multiset{Arrival};
    hide Script;
    assert multiset(Script(d, persona, isNew, maxAttempts))[Registration := 0][Arrival := 0][Viewing := 0] == multiset(basket);
  }

  lemma EnoughDraws(d: Draws, persona: Persona, maxAttempts: nat)
    requires DrawsOk(d, maxAttempts) && maxAttempts > 0
    ensures 0 < Maximum(persona, maxAttempts) <= |d.paid| && Maximum(persona, maxAttempts) <= |d.again|
  {
  }

  lemma {:induction false} PaymentsCount(ks: seq<Kind>)
    requires forall k :: k in ks ==> k == Success || k == FailedPayment
    requires forall i :: 0 <= i < |ks| - 1 ==> ks[i] == FailedPayment
    ensures multiset(ks)[Success] == (if Success in ks then 1 else 0) && multiset(ks)[Success] + multiset(ks)[FailedPayment] == |ks|
    ensures forall k :: k != Success && k != FailedPayment ==> multiset(ks)[k] == 0
  {
    if ks != [] {
      var n := |ks| - 1;
      assert ks == ks[..n] + [ks[n]];
      assert forall i :: 0 <= i < n ==> ks[..n][i] == FailedPayment;
      PaymentsCount(ks[..n]);
      forall k | k in ks[..n] ensures k == FailedPayment {
        var i :| 0 <= i < n && ks[..n][i] == k;
      }
      assert Success !in ks[..n] && (Success in ks <==> ks[n] == Success);
      assert ks[n] in ks && multiset(ks[..n])[FailedPayment] == n;
      assert multiset(ks) == multiset(ks[..n]) + multiset{ks[n]};
    }
  }

  lemma PurchaseCounts(d: Draws, persona: Persona, maxAttempts: nat)
    requires DrawsOk(d, maxAttempts) && maxAttempts > 0
    ensures var ks := PaymentKinds(d, 0, Maximum(persona, maxAttempts));
            var refund: seq<Kind> := if Success in ks && d.refund then [Refunding] else [];
            multiset(PurchaseKinds(d, persona, maxAttempts)) == multiset{Checkingout, Ordering} + multiset(ks) + multiset(refund)
  {
    hide PaymentKinds;
  }

  lemma BasketCounts(d: Draws, persona: Persona, maxAttempts: nat)
    requires DrawsOk(d, maxAttempts) && maxAttempts > 0
    ensures multiset(BasketKinds(d, persona, maxAttempts)) ==
            if !d.add then multiset{}
            else if d.checkout then multiset{Addition} + multiset(PurchaseKinds(d, persona, maxAttempts))
            else multiset{Addition}
  {
    hide PurchaseKinds;
    if d.add && !d.checkout { assert [Addition] + [] == [Addition]; }
  }

  // ----- offering events to the store -----

  /** Validated and accepted by the repositories. */
  predicate Welcome(s: Store, e: Event) {
    Schema(e.payload) && Apply(s, e).Accepted?
  }

  /** A refused event leaves the tables as they were. */
  function Offer(s: Store, e: Event): Store {
    if Welcome(s, e) then Apply(s, e).store else s
  }

  function OfferAll(s: Store, events: seq<Event>): Store {
    if events == [] then s
    else Offer(OfferAll(s, events[..|events| - 1]), events[|events| - 1])
  }

  ghost predicate AllWelcome(s: Store, events: seq<Event>) {
    events == [] ||
    (AllWelcome(s, events[..|events| - 1]) && Welcome(OfferAll(s, events[..|events| - 1]), events[|events| - 1]))
  }

  lemma OfferOneMore(s: Store, events: seq<Event>, e: Event)
    ensures OfferAll(s, events + [e]) == Offer(OfferAll(s, events), e)
    ensures AllWelcome(s, events + [e]) <==> AllWelcome(s, events) && Welcome(OfferAll(s, events), e)
  {
    assert (events + [e])[..|events|] == events;
  }

  // ----- identifiers -----

  ghost predicate IdsBelow(n: Id, s: Store) {
    && (forall x :: x in s.customers ==> x < n)
    && (forall x :: x in s.sessions ==> x < n)
    && (forall x :: x in s.carts ==> x < n && s.carts[x].session < n)
    && (forall x :: x in s.orders ==> x < n)
    && (forall x :: x in s.payments ==> x < n)
    && (forall i :: 0 <= i < |s.refunds| ==> s.refunds[i].id < n && s.refunds[i].payment < n)
  }

  predicate PayloadBelow(n: Id, p: Payload) {
    match p
    case UserRegistered(customer, _) => customer < n
    case SessionStarted(session, _, _) => session < n
    case ProductViewed(_, _, _) => true
    case AddedToCart(session, _, cart, _, _, _, _) => session < n && cart < n
    case CheckoutStarted(_, _, _, _, _, _, _, _) => true
    case OrderCreated(order, _, _, _, _, _, _, _, _) => order < n
    case PaymentCompleted(payment, _, _, _, _) => payment < n
    case PaymentFailed(payment, _, _, _, _) => payment < n
    case RefundRequested(refund, payment, _, _, _, _) => refund < n && payment < n
  }

  /** Rows stay, and no cart changes its session. */
  ghost predicate Grows(s: Store, s': Store) {
    && s.customers.Keys <= s'.customers.Keys && s.sessions.Keys <= s'.sessions.Keys
    && (forall c :: c in s.carts ==> c in s'.carts && s'.carts[c].session == s.carts[c].session)
  }

  ghost predicate Settled(n: Id, s: Store, r: Outcome) {
    r.Accepted? ==> IdsBelow(n, r.store) && Grows(s, r.store)
  }

  lemma CartSettles(n: Id, s: Store, p: Payload)
    requires IdsBelow(n, s) && PayloadBelow(n, p)
    ensures p.AddedToCart? ==> Settled(n, s, AddItem(s, p))
    ensures p.CheckoutStarted? ==> Settled(n, s, Checkout(s, p))
    ensures p.OrderCreated? ==> Settled(n, s, PlaceOrder(s, p))
  {
    hide SumLines, SumQuantities, Upsert;
  }

  lemma PaymentSettles(n: Id, s: Store, payment: Id, order: Id, customer: Id, amount: Money, currency: Id, completed: bool)
    requires IdsBelow(n, s) && payment < n
    ensures Settled(n, s, RecordPayment(s, payment, order, customer, amount, currency, completed))
  {
  }

  lemma RefundSettles(n: Id, s: Store, p: Payload)
    requires IdsBelow(n, s) && PayloadBelow(n, p) && p.RefundRequested?
    ensures Settled(n, s, RecordRefund(s, p))
  {
    hide RefundedFor, KnownRefund;
  }

  lemma PeopleSettle(n: Id, s: Store, p: Payload, event: Id)
    requires IdsBelow(n, s) && PayloadBelow(n, p)
    ensures p.UserRegistered? ==> Settled(n, s, Register(s, p.customer, p.identity))
    ensures p.SessionStarted? ==> Settled(n, s, StartSession(s, p.session, p.customer, p.identity))
    ensures p.ProductViewed? ==> Settled(n, s, RecordView(s, event, p.session, p.customer, p.product))
  {
  }

  lemma OfferGrows(n: Id, s: Store, e: Event)
    requires IdsBelow(n, s) && PayloadBelow(n, e.payload)
    ensures IdsBelow(n, Offer(s, e)) && Grows(s, Offer(s, e))
  {
    hide Schema, AddItem, Checkout, PlaceOrder, RecordPayment, RecordRefund, Register, StartSession, RecordView, IdsBelow, Grows;
    CartSettles(n, s, e.payload);
    PeopleSettle(n, s, e.payload, e.id);
    GrowsRefl(s);
    match e.payload
    case PaymentCompleted(payment, order, customer, amount, currency) =>
      PaymentSettles(n, s, payment, order, customer, amount, currency, true);
    case PaymentFailed(payment, order, customer, amount, currency) =>
      PaymentSettles(n, s, payment, order, customer, amount, currency, false);
    case RefundRequested(_, _, _, _, _, _) => RefundSettles(n, s, e.payload);
    case _ =>
  }

  lemma GrowsRefl(s: Store)
    ensures Grows(s, s)
  {
  }

  lemma {:induction false} NothingRefunded(n: Id, refunds: seq<Refund>, payment: Id)
    requires forall i :: 0 <= i < |refunds| ==> refunds[i].payment < n
    requires n <= payment
    ensures RefundedFor(refunds, payment) == 0
  {
    if refunds != [] { NothingRefunded(n, refunds[..|refunds| - 1], payment); }
  }

  // ----- what the store says to each kind of event -----

  ghost predicate Present(s: Store, customer: Id, session: Id) {
    customer in s.customers && session in s.sessions
  }

  /** An identifier no table mentions. */
  ghost predicate Unused(s: Store, x: Id) {
    && x !in s.customers && x !in s.sessions && x !in s.carts && x !in s.orders && x !in s.payments
    && (forall c :: c in s.carts ==> s.carts[c].session != x)
    && !KnownRefund(s.refunds, x) && RefundedFor(s.refunds, x) == 0
  }

  lemma FreshIsUnused(n: Id, s: Store)
    requires IdsBelow(n, s)
    ensures Unused(s, n)
  {
    NothingRefunded(n, s.refunds, n);
  }

  lemma PeopleWelcome(s: Store, e: Event)
    ensures e.payload.UserRegistered? && Unused(s, e.payload.customer) ==>
              Welcome(s, e) && e.payload.customer in Offer(s, e).customers
    ensures e.payload.SessionStarted? && Unused(s, e.payload.session) && e.payload.customer in s.customers ==>
              Welcome(s, e) && Present(Offer(s, e), e.payload.customer, e.payload.session)
    ensures e.payload.ProductViewed? && Present(s, e.payload.customer, e.payload.session) ==> Welcome(s, e)
  {
  }

  /** The cart holds one line and agrees with the journey so far. */
  ghost predicate Filled(s: Store, cart: Id, customer: Id, session: Id, subtotal: Money, discount: Money, quantity: int) {
    && cart in s.carts
    && s.carts[cart].customer == customer && s.carts[cart].session == session && s.carts[cart].currency == TRY
    && s.carts[cart].subtotal == subtotal && s.carts[cart].itemCount == quantity
    && s.carts[cart].discount == discount && s.carts[cart].total == subtotal - discount
  }

  /** The cart belongs to another session. */
  ghost predicate Foreign(s: Store, cart: Id, session: Id) {
    cart in s.carts && s.carts[cart].session != session
  }

  lemma AddFresh(s: Store, e: Event)
    requires e.payload.AddedToCart? && Unused(s, e.payload.cart) && Schema(e.payload)
    requires Present(s, e.payload.customer, e.payload.session) && e.payload.currency == TRY
    ensures Welcome(s, e)
    ensures Filled(Offer(s, e), e.payload.cart, e.payload.customer, e.payload.session,
                   e.payload.unitPrice * e.payload.quantity, 0, e.payload.quantity)
  {
  }

  lemma ForeignRefused(s: Store, e: Event)
    requires e.payload.AddedToCart? || e.payload.CheckoutStarted? || e.payload.OrderCreated?
    requires Foreign(s, e.payload.cart, e.payload.session)
    ensures !Welcome(s, e) && Offer(s, e) == s
  {
    hide Upsert, SumLines, SumQuantities;
  }

  lemma CheckoutWelcome(s: Store, e: Event)
    requires e.payload.CheckoutStarted? && Schema(e.payload) && e.payload.currency == TRY
    requires Filled(s, e.payload.cart, e.payload.customer, e.payload.session, e.payload.subtotal, 0, e.payload.itemCount)
    ensures Welcome(s, e)
    ensures Filled(Offer(s, e), e.payload.cart, e.payload.customer, e.payload.session,
                   e.payload.subtotal, e.payload.discount, e.payload.itemCount)
  {
  }

  ghost predicate Placed(s: Store, order: Id, customer: Id, total: Money) {
    order in s.orders && s.orders[order].customer == customer && s.orders[order].total == total && s.orders[order].currency == TRY
  }

  lemma OrderWelcome(s: Store, e: Event)
    requires e.payload.OrderCreated? && Schema(e.payload) && e.payload.currency == TRY && Unused(s, e.payload.order)
    requires Filled(s, e.payload.cart, e.payload.customer, e.payload.session, e.payload.subtotal, e.payload.discount, e.payload.itemCount)
    ensures Welcome(s, e) && Placed(Offer(s, e), e.payload.order, e.payload.customer, e.payload.total)
  {
  }

  ghost predicate Refundable(s: Store, payment: Id, order: Id, customer: Id, total: Money) {
    && payment in s.payments && RefundedFor(s.refunds, payment) == 0
    && s.payments[payment] == Payment(order, customer, Completed, total, TRY)
  }

  lemma PaymentWelcome(s: Store, e: Event)
    requires e.payload.PaymentCompleted? || e.payload.PaymentFailed?
    requires Schema(e.payload) && e.payload.currency == TRY && Unused(s, e.payload.payment)
    requires Placed(s, e.payload.order, e.payload.customer, e.payload.amount)
    ensures Welcome(s, e) && Placed(Offer(s, e), e.payload.order, e.payload.customer, e.payload.amount)
    ensures e.payload.PaymentCompleted? ==>
              Refundable(Offer(s, e), e.payload.payment, e.payload.order, e.payload.customer, e.payload.amount)
  {
    hide KnownRefund;
  }

  lemma PaymentRefused(s: Store, e: Event)
    requires e.payload.PaymentCompleted? || e.payload.PaymentFailed?
    requires e.payload.order !in s.orders
    ensures !Welcome(s, e) && Offer(s, e) == s
  {
  }

  lemma RefundWelcome(s: Store, e: Event, total: Money)
    requires e.payload.RefundRequested? && Schema(e.payload) && e.payload.currency == TRY && Unused(s, e.payload.refund)
    requires Refundable(s, e.payload.payment, e.payload.order, e.payload.customer, total) && e.payload.amount <= total
    ensures Welcome(s, e)
  {
    hide RefundedFor, KnownRefund;
  }

  lemma RefundRefused(s: Store, e: Event)
    requires e.payload.RefundRequested? && e.payload.payment !in s.payments
    ensures !Welcome(s, e) && Offer(s, e) == s
  {
  }

  /**
   A discount hunter abandons cart 3 in session 1 and comes back in session 2: the cart's identity
   no longer matches, so the addition is refused although every earlier event was accepted.
   */
  lemma ReturningToACartIsRefused()
    ensures var s1 := Offer(EMPTY, Event(10, UserRegistered(0, 0), 9));
            var s2 := Offer(s1, Event(11, SessionStarted(1, 0, 5), 9));
            var s3 := Offer(s2, Event(12, AddedToCart(1, 0, 3, 1, 1, PRICES[1], TRY), 9));
            var s4 := Offer(s3, Event(13, SessionStarted(2, 0, 6), 8));
            && 3 in s3.carts && Present(s4, 0, 2)
            && !Welcome(s4, Event(14, AddedToCart(2, 0, 3, 1, 1, PRICES[1], TRY), 8))
  {
    var s1 := Offer(EMPTY, Event(10, UserRegistered(0, 0), 9));
    var s2 := Offer(s1, Event(11, SessionStarted(1, 0, 5), 9));
    assert Present(s2, 0, 1);
    var s3 := Offer(s2, Event(12, AddedToCart(1, 0, 3, 1, 1, PRICES[1], TRY), 9));
    assert Foreign(s3, 3, 2);
  }
}

module Journey {
  import opened Prelude
  import opened Commerce
  import opened JourneySpec

  predicate PickOk(customers: map<Id, Customer>, pick: Pick) {
    match pick
    case New(_) => true
    case Returning(id) => id in customers
    case Impostor(id) => id in customers && customers[id].normalHistory
  }

  function Chosen(customers: map<Id, Customer>, pick: Pick): Customer
    requires PickOk(customers, pick)
  {
    match pick
    case New(persona) => Customer(persona, None, None, false)
    case Returning(id) => customers[id]
    case Impostor(id) => customers[id].(persona := Takeover)
  }

  /** The journey adds to a cart the customer abandoned in an earlier session. */
  predicate ReusesCart(customers: map<Id, Customer>, d: Draws)
    requires PickOk(customers, d.pick)
  {
    d.add && ProfileOf(Chosen(customers, d.pick).persona).reusesCart && Chosen(customers, d.pick).abandoned.Some?
  }

  /** The journey's payments succeed in the end. */
  predicate Bought(d: Draws, persona: Persona, maxAttempts: nat)
    requires |d.paid| >= maxAttempts && |d.again| >= maxAttempts && maxAttempts > 0
  {
    d.add && d.checkout && Success in PaymentKinds(d, 0, Maximum(persona, maxAttempts))
  }

  predicate AddsTo(p: Payload, cart: Id) {
    p.AddedToCart? && p.cart == cart
  }

  /**
   What a customer remembers of a journey: when it ended, the cart it left without checking out,
   no cart after a checkout, and a purchase by a normal customer as normal history.
   */
  ghost predicate Remembered(c: Customer, after: Customer, d: Draws, events: seq<Event>, bought: bool) {
    && after.persona == c.persona
    && (!d.add ==> after.abandoned == c.abandoned)
    && (d.add && d.checkout ==> after.abandoned == None)
    && (d.add && !d.checkout ==>
          after.abandoned.Some? && exists i :: 0 <= i < |events| && AddsTo(events[i].payload, after.abandoned.value))
    && after.normalHistory == (c.normalHistory || (c.persona == Normal && bought))
  }

  /** One customer is replaced: the chosen one, or a new one, by what it remembers. */
  ghost predicate Remembers(
    was: map<Id, Customer>, now: map<Id, Customer>, id: Id, d: Draws, events: seq<Event>, maxAttempts: nat, cursor: int)
    requires PickOk(was, d.pick) && DrawsOk(d, maxAttempts) && maxAttempts > 0
  {
    && id in now && now == was[id := now[id]]
    && (if d.pick.New? then id !in was else id == d.pick.id)
    && now[id].lastActivity == Some(cursor)
    && Remembered(Chosen(was, d.pick), now[id], d, events, Bought(d, Chosen(was, d.pick).persona, maxAttempts))
  }

  /** A journey starts now, or once the customer's return delay has passed since its last activity. */
  predicate StartsAt(c: Customer, now: int, start: int) {
    && start >= now
    && (c.lastActivity.None? ==> start == now)
    && (c.lastActivity.Some? ==>
          var back := c.lastActivity.value + ProfileOf(c.persona).returnDelay; start >= back && (start == now || start == back))
  }

  class JourneyBuilder {
    const poolSize: nat
    const maxAttempts: nat
    var uuids: Id
    var customers: map<Id, Customer>
    var events: seq<Event>
    var cursor: int
    ghost var base: Store    // the tables when the journey began
    ghost var tables: Store  // the tables once every event so far has been offered in order
    ghost var terms: Terms   // what this journey sells, if it sells anything
    ghost var began: int     // when it began, and the delay before each of its events
    ghost var pace: nat

    ghost predicate Valid()
      reads this
    {
      && maxAttempts > 0 && IdsBelow(uuids, tables)
      && tables == OfferAll(base, events) && cursor == TimeAfter(events, began, pace)
      && (forall i :: 0 <= i < |events| ==> Schema(events[i].payload) && OnTerms(terms, events[i].payload))
      && (forall c :: c in customers ==> Kept(tables, c, customers[c]))
    }

    ghost predicate Clean()
      reads this
    {
      AllWelcome(base, events)
    }

    constructor (poolSize: nat, maxAttempts: nat)
      requires maxAttempts > 0
      ensures Valid() && tables == EMPTY && customers == map[]
      ensures this.poolSize == poolSize && this.maxAttempts == maxAttempts
    {
      this.poolSize, this.maxAttempts := poolSize, maxAttempts;
      uuids, customers, events, cursor, base, tables, terms := 0, map[], [], 0, EMPTY, EMPTY, Terms(0, 0, 0, 0, 0);
      began, pace := 0, 0;
    }

    method Fresh() returns (id: Id)
      requires Valid()
      modifies this`uuids
      ensures Valid() && id == old(uuids) && uuids == id + 1 && Unused(tables, id)
    {
      FreshIsUnused(uuids, tables);
      BelowNext(uuids, tables);
      id := uuids;
      uuids := uuids + 1;
    }

    /** `_append`, after `_next_timestamp`. */
    method Append(payload: Payload, correlation: Id, delay: nat) returns (ghost e: Event)
      requires Valid() && PayloadBelow(uuids, payload) && Schema(payload) && OnTerms(terms, payload)
      requires delay == if payload.UserRegistered? then 0 else pace
      modifies this`uuids, this`events, this`cursor, this`tables
      ensures Valid() && uuids == old(uuids) + 1 && cursor == old(cursor) + delay
      ensures e.payload == payload && events == old(events) + [e]
      ensures tables == Offer(old(tables), e) && Grows(old(tables), tables)
      ensures Clean() <==> old(Clean()) && Welcome(old(tables), e)
      ensures Kinds(events) == old(Kinds(events)) + [KindOf(payload)]
    {
      hide Offer, Welcome, Schema, Grows, IdsBelow, Kinds, KindOf, OnTerms, TimeAfter;
      KindsOneMore(events, Event(uuids, payload, correlation));
      TimeOneMore(events, Event(uuids, payload, correlation), began, pace);
      cursor := cursor + delay;
      var event := Event(uuids, payload, correlation);
      OfferOneMore(base, events, event);
      OfferGrows(uuids, tables, event);
      KeptGrows(customers, tables, Offer(tables, event));
      BelowNext(uuids, Offer(tables, event));
      uuids := uuids + 1;
      events := events + [event];
      tables := Offer(tables, event);
      e := event;
    }

    /** Registration of a new customer, and the session. */
    method OpenSession(correlation: Id, id: Id, persona: Persona, isNew: bool, d: Draws) returns (session: Id)
      requires Valid() && Clean() && id < uuids
      requires if isNew then Unused(tables, id) else id in tables.customers
      requires pace == ProfileOf(persona).actionDelay
      modifies this`uuids, this`events, this`cursor, this`tables
      ensures Valid() && Clean() && Present(tables, id, session) && session < uuids
      ensures forall c :: c in old(tables).carts ==> Foreign(tables, c, session)
      ensures Grows(old(tables), tables) && cursor >= old(cursor) && uuids >= old(uuids)
      ensures Kinds(events) == old(Kinds(events)) + (if isNew then [Registration] else []) + [Arrival]
    {
      hide Kinds, Offer, Welcome, Grows, Unused, Present, Foreign, IdsBelow, ProfileOf;
      ghost var before := tables;
      GrowsRefl(before);
      if isNew {
        ghost var e := Append(UserRegistered(id, id), correlation, 0);
        PeopleWelcome(before, e);
      }
      session := Fresh();
      ghost var s := tables;
      ghost var e := Append(SessionStarted(session, id, d.identity), correlation, ProfileOf(persona).actionDelay);
      PeopleWelcome(s, e);
      GrowsTrans(before, s, tables);
      NewSessionIsForeign(before, s, tables, session);
    }

    method ViewProducts(correlation: Id, id: Id, persona: Persona, session: Id, d: Draws)
      requires Valid() && Clean() && Present(tables, id, session)
      requires pace == ProfileOf(persona).actionDelay
      modifies this`uuids, this`events, this`cursor, this`tables
      ensures Valid() && Clean() && Grows(old(tables), tables)
      ensures cursor >= old(cursor) && uuids >= old(uuids)
      ensures Kinds(events) == old(Kinds(events)) + Views(|d.views|)
    {
      hide Kinds, Offer, Welcome, Grows, Present, IdsBelow, ProfileOf;
      ghost var before, kinds := tables, Kinds(events);
      GrowsRefl(before);
      for i := 0 to |d.views|
        invariant Valid() && Clean() && Present(tables, id, session)
        invariant Grows(before, tables) && cursor >= old(cursor) && uuids >= old(uuids)
        invariant Kinds(events) == kinds + Views(i)
      {
        ghost var s := tables;
        ghost var e := Append(ProductViewed(session, id, d.views[i]), correlation, ProfileOf(persona).actionDelay);
        PeopleWelcome(s, e);
        PresentStays(s, tables, id, session);
        GrowsTrans(before, s, tables);
      }
    }

    method Arrive(correlation: Id, id: Id, persona: Persona, isNew: bool, d: Draws) returns (session: Id)
      requires Valid() && Clean() && id < uuids
      requires if isNew then Unused(tables, id) else id in tables.customers
      requires pace == ProfileOf(persona).actionDelay
      modifies this`uuids, this`events, this`cursor, this`tables
      ensures Valid() && Clean() && Present(tables, id, session) && session < uuids
      ensures forall c :: c in old(tables).carts ==> Foreign(tables, c, session)
      ensures Grows(old(tables), tables) && cursor >= old(cursor) && uuids >= old(uuids)
      ensures Kinds(events) == old(Kinds(events)) + ((if isNew then [Registration] else []) + [Arrival] + Views(|d.views|))
    {
      hide Kinds, Views, Valid, Clean, Grows, Present, Foreign;
      ghost var before := tables;
      session := OpenSession(correlation, id, persona, isNew, d);
      ghost var s := tables;
      ViewProducts(correlation, id, persona, session, d);
      GrowsTrans(before, s, tables);
      PresentStays(s, tables, id, session);
      ForeignStays(before, s, tables, session);
    }

    method Attempt(correlation: Id, customer: Id, persona: Persona, order: Id, total: Money, success: bool)
      returns (payment: Id)
      requires Valid() && total > 0 && total == terms.total
      requires if Clean() then Placed(tables, order, customer, total) else order !in tables.orders && order < uuids
      requires pace == ProfileOf(persona).actionDelay
      modifies this`uuids, this`events, this`cursor, this`tables
      ensures Valid() && Clean() == old(Clean()) && Grows(old(tables), tables) && cursor >= old(cursor)
      ensures Kinds(events) == old(Kinds(events)) + [if success then Success else FailedPayment]
      ensures payment < uuids && uuids > old(uuids)
      ensures if Clean() then Placed(tables, order, customer, total) else tables == old(tables)
      ensures Clean() && success ==> Refundable(tables, payment, order, customer, total)
      ensures !Clean() ==> payment !in tables.payments
    {
      hide Kinds, Offer, Welcome, Grows, Unused, Placed, Refundable, IdsBelow, ProfileOf;
      ghost var clean, before := Clean(), tables;
      payment := Fresh();
      UnusedPayment(tables, payment);
      ghost var e := Append(
        if success then PaymentCompleted(payment, order, customer, total, TRY)
        else PaymentFailed(payment, order, customer, total, TRY), correlation, ProfileOf(persona).actionDelay);
      if clean { PaymentWelcome(before, e); } else { PaymentRefused(before, e); }
    }

    /** `_payments`; the order was placed exactly when every event so far was accepted. */
    method Pay(correlation: Id, customer: Id, persona: Persona, order: Id, total: Money, d: Draws)
      returns (attempts: nat, successful: Option<Id>)
      requires maxAttempts > 0 && Valid() && |d.paid| >= maxAttempts && |d.again| >= maxAttempts && total > 0 && total == terms.total
      requires if Clean() then Placed(tables, order, customer, total) else order !in tables.orders && order < uuids
      requires pace == ProfileOf(persona).actionDelay
      modifies this`uuids, this`events, this`cursor, this`tables
      ensures Valid() && Clean() == old(Clean()) && Grows(old(tables), tables) && cursor >= old(cursor)
      ensures 1 <= attempts <= maxAttempts && (!ProfileOf(persona).retriesPayment ==> attempts == 1)
      ensures successful.Some? ==> successful.value < uuids
      ensures successful.Some? && Clean() ==> Refundable(tables, successful.value, order, customer, total)
      ensures successful.Some? && !Clean() ==> successful.value !in tables.payments
      ensures var ks := PaymentKinds(d, 0, Maximum(persona, maxAttempts));
              Kinds(events) == old(Kinds(events)) + ks && (successful.Some? <==> Success in ks)
    {
      hide Kinds, KindOf, Valid, Clean, ProfileOf, Grows, Placed, Refundable, PaymentKinds;
      ghost var clean, before := Clean(), tables;
      attempts, successful := 0, None;
      GrowsRefl(before);
      var maximum := Maximum(persona, maxAttempts);
      ghost var kinds, all := Kinds(events), PaymentKinds(d, 0, maximum);
      ghost var left := all;
      var going := true;
      while attempts < maximum && going
        invariant 0 <= attempts <= maximum && (going ==> successful == None) && (attempts == 0 ==> going)
        invariant Valid() && Clean() == clean && Grows(before, tables) && cursor >= old(cursor)
        invariant if clean then Placed(tables, order, customer, total) else tables == before && order < uuids
        invariant successful.Some? ==> successful.value < uuids && PaymentStands(clean, tables, successful.value, order, customer, total)
        invariant left == if going then PaymentKinds(d, attempts, maximum) else []
        invariant Kinds(events) + left == kinds + all
        invariant successful.Some? || Success in left <==> Success in all
        decreases maximum - attempts
      {
        ghost var s, so_far := tables, Kinds(events);
        var success, again := d.paid[attempts], d.again[attempts];
        ghost var rest := if success || !again then [] else PaymentKinds(d, attempts + 1, maximum);
        PaymentKindsStep(d, attempts, maximum, so_far, rest);
        attempts := attempts + 1;
        var payment := Attempt(correlation, customer, persona, order, total, success);
        GrowsTrans(before, s, tables);
        if success {
          successful := Some(payment);
        }
        going := !success && again;
        left := rest;
      }
      NoneLeft(d, attempts, maximum);
      assert Kinds(events) + [] == Kinds(events);
    }

    method PlaceTheOrder(correlation: Id, customer: Id, persona: Persona, session: Id, cart: Id, subtotal: Money, discount: Money, n: nat)
      returns (order: Id)
      requires Valid() && n > 0 && 0 <= discount <= subtotal
      requires n == terms.quantity && subtotal == terms.subtotal && discount == terms.discount && subtotal - discount == terms.total
      requires if Clean() then Filled(tables, cart, customer, session, subtotal, 0, n) else Foreign(tables, cart, session)
      requires pace == ProfileOf(persona).actionDelay
      modifies this`uuids, this`events, this`cursor, this`tables
      ensures Valid() && Clean() == old(Clean()) && Grows(old(tables), tables) && cursor >= old(cursor) && order < uuids
      ensures if Clean() then Placed(tables, order, customer, subtotal - discount) else order !in tables.orders
      ensures Kinds(events) == old(Kinds(events)) + [Checkingout, Ordering]
    {
      hide Kinds, Offer, Welcome, Grows, Unused, Placed, IdsBelow, Filled, Foreign, ProfileOf;
      ghost var clean, before := Clean(), tables;
      var delay := ProfileOf(persona).actionDelay;
      var total := subtotal - discount;
      ghost var e := Append(CheckoutStarted(session, customer, cart, n, subtotal, discount, total, TRY), correlation, delay);
      if clean { CheckoutWelcome(before, e); } else { ForeignRefused(before, e); }
      order := Fresh();
      UnusedPayment(tables, order);
      ghost var s := tables;
      e := Append(OrderCreated(order, customer, session, cart, n, subtotal, discount, total, TRY), correlation, delay);
      if clean { OrderWelcome(s, e); } else { ForeignRefused(s, e); }
      GrowsTrans(before, s, tables);
    }

    /** Half of the total is asked back. */
    method AskRefund(correlation: Id, customer: Id, persona: Persona, order: Id, payment: Id, total: Money)
      requires Valid() && payment < uuids && total > 1 && total == terms.total
      requires if Clean() then Refundable(tables, payment, order, customer, total) else payment !in tables.payments
      requires pace == ProfileOf(persona).actionDelay
      modifies this`uuids, this`events, this`cursor, this`tables
      ensures Valid() && Clean() == old(Clean()) && Grows(old(tables), tables) && cursor >= old(cursor)
      ensures Kinds(events) == old(Kinds(events)) + [Refunding]
    {
      hide Kinds, Offer, Welcome, Grows, Unused, Refundable, IdsBelow, ProfileOf, HalfEven;
      ghost var clean, before := Clean(), tables;
      HalfIsSound(total);
      var refund := Fresh();
      ghost var e := Append(RefundRequested(refund, payment, order, customer, HalfEven(total, 2), TRY),
                            correlation, ProfileOf(persona).actionDelay);
      if clean { RefundWelcome(before, e, total); } else { RefundRefused(before, e); }
    }

    /** Checkout, order, payments and perhaps a refund. */
    method Buy(correlation: Id, customer: Id, persona: Persona, session: Id, cart: Id, subtotal: Money, discount: Money, d: Draws)
      returns (paid: bool)
      requires Valid() && DrawsOk(d, maxAttempts) && 0 <= discount <= subtotal && subtotal - discount > 1
      requires d.quantity == terms.quantity && subtotal == terms.subtotal && discount == terms.discount && subtotal - discount == terms.total
      requires if Clean() then Filled(tables, cart, customer, session, subtotal, 0, d.quantity) else Foreign(tables, cart, session)
      requires pace == ProfileOf(persona).actionDelay
      modifies this`uuids, this`events, this`cursor, this`tables
      ensures Valid() && Clean() == old(Clean()) && Grows(old(tables), tables) && cursor >= old(cursor)
      ensures Kinds(events) == old(Kinds(events)) + PurchaseKinds(d, persona, maxAttempts)
      ensures paid <==> Success in PaymentKinds(d, 0, Maximum(persona, maxAttempts))
    {
      hide Kinds, PaymentKinds, Clean, Grows, Placed, Refundable, Filled, Foreign, IdsBelow, OfferAll;
      ghost var before := tables;
      var order := PlaceTheOrder(correlation, customer, persona, session, cart, subtotal, discount, d.quantity);
      ghost var s := tables;
      var attempts, successful := Pay(correlation, customer, persona, order, subtotal - discount, d);
      GrowsTrans(before, s, tables);
      paid := successful.Some?;
      if paid && d.refund {
        s := tables;
        AskRefund(correlation, customer, persona, order, successful.value, subtotal - discount);
        GrowsTrans(before, s, tables);
      }
    }

    /** What follows the product views once the customer adds to a cart. */
    method Shop(correlation: Id, id: Id, customer: Customer, session: Id, d: Draws)
      returns (abandoned: Option<Id>, paid: bool)
      requires Valid() && Clean() && DrawsOk(d, maxAttempts) && session < uuids && Present(tables, id, session)
      requires customer.abandoned.Some? ==> customer.abandoned.value < uuids && Foreign(tables, customer.abandoned.value, session)
      requires terms == TermsOf(customer, d)
      requires pace == ProfileOf(customer.persona).actionDelay
      modifies this`uuids, this`events, this`cursor, this`tables
      ensures Valid() && Grows(old(tables), tables) && cursor >= old(cursor)
      ensures Clean() <==> !(ProfileOf(customer.persona).reusesCart && customer.abandoned.Some?)
      ensures abandoned.Some? ==> abandoned.value in tables.carts
      ensures abandoned.Some? <==> !d.checkout
      ensures abandoned.Some? ==> exists i :: 0 <= i < |events| && AddsTo(events[i].payload, abandoned.value)
      ensures paid <==> d.checkout && Success in PaymentKinds(d, 0, Maximum(customer.persona, maxAttempts))
      ensures Kinds(events) == old(Kinds(events)) + [Addition] +
                               if d.checkout then PurchaseKinds(d, customer.persona, maxAttempts) else []
    {
      hide Kinds, PurchaseKinds, Grows, Unused, IdsBelow, HalfEven, Offer, Welcome, Discount, Extreme;
      ghost var before := tables;
      var product := CartProduct(customer.persona, d);
      var subtotal := PRICES[product] * d.quantity;
      TotalsAreSound(product, d.quantity, customer.persona);
      var reuses := ProfileOf(customer.persona).reusesCart && customer.abandoned.Some?;
      var cart: Id;
      if reuses {
        cart := customer.abandoned.value;
      } else {
        cart := Fresh();
      }
      ghost var e := Append(AddedToCart(session, id, cart, product, d.quantity, PRICES[product], TRY),
                            correlation, ProfileOf(customer.persona).actionDelay);
      if reuses { ForeignRefused(before, e); } else { AddFresh(before, e); }
      var applies := d.discounted || (customer.persona == DiscountHunter && customer.abandoned.Some?);
      var discount := if applies then Discount(subtotal, customer.persona) else 0;
      if !d.checkout {
        assert AddsTo(events[|events| - 1].payload, cart);
        return Some(cart), false;
      }
      ghost var s := tables;
      paid := Buy(correlation, id, customer.persona, session, cart, subtotal, discount, d);
      GrowsTrans(before, s, tables);
      abandoned := None;
    }

    /** `commit`; true stands for the exception that refuses a full pool or time running backwards. */
    method Commit(id: Id, c: Customer) returns (raised: bool)
      requires Valid() && Kept(tables, id, c)
      modifies this`customers
      ensures Valid()
      ensures raised <==>
              || (id !in old(customers) && |old(customers)| >= poolSize)
              || (id in old(customers) && Backwards(old(customers)[id], c))
      ensures customers == if raised then old(customers) else old(customers)[id := c]
    {
      if id !in customers && |customers| >= poolSize {
        return true;
      }
      if id in customers && Backwards(customers[id], c) {
        return true;
      }
      customers := customers[id := c];
      raised := false;
    }

    /** `_select_customer` and `_start_logical_time`; none when the pool has no room for a new customer. */
    method Begin(d: Draws) returns (chosen: Option<Id>)
      requires Valid() && PickOk(customers, d.pick)
      modifies this`uuids, this`events, this`cursor, this`base, this`began, this`pace
      ensures Valid() && uuids >= old(uuids)
      ensures chosen.None? <==> d.pick.New? && |customers| >= poolSize
      ensures chosen.Some? ==> base == tables && Clean() && Kinds(events) == [] && Ready(chosen.value, d.pick)
      ensures chosen.Some? && Chosen(customers, d.pick).lastActivity.Some? ==>
                cursor >= Chosen(customers, d.pick).lastActivity.value + ProfileOf(Chosen(customers, d.pick).persona).returnDelay
      ensures chosen.Some? ==> StartsAt(Chosen(customers, d.pick), d.now, cursor) && cursor == began
      ensures chosen.Some? ==> pace == ProfileOf(Chosen(customers, d.pick).persona).actionDelay
    {
      hide Unused, IdsBelow, ProfileOf;
      if d.pick.New? && |customers| >= poolSize {
        return None;
      }
      var customer := Chosen(customers, d.pick);
      base, events, began := tables, [], cursor;
      NothingOffered(tables);
      var id: Id;
      if d.pick.New? {
        id := Fresh();
      } else {
        id := d.pick.id;
        assert Kept(tables, id, customers[id]);
        BelowKept(uuids, tables, id, customers[id]);
      }
      cursor := if !d.pick.New? && customer.lastActivity.Some?
                then Max(d.now, customer.lastActivity.value + ProfileOf(customer.persona).returnDelay) else d.now;
      began, pace := cursor, ProfileOf(customer.persona).actionDelay;
      chosen := Some(id);
    }

    /** The chosen customer is either new to every table or known with all it remembers. */
    ghost predicate Ready(id: Id, pick: Pick)
      reads this
      requires PickOk(customers, pick)
    {
      var c := Chosen(customers, pick);
      && id < uuids && (c.abandoned.Some? ==> c.abandoned.value < uuids && c.abandoned.value in tables.carts)
      && if pick.New? then id !in customers && Unused(tables, id) else id == pick.id && id in tables.customers
    }

    /** What follows the product views, and what the customer remembers of it. */
    method Proceed(correlation: Id, id: Id, customer: Customer, session: Id, d: Draws) returns (after: Customer)
      requires Valid() && Clean() && DrawsOk(d, maxAttempts) && session < uuids
      requires Present(tables, id, session) && Kept(tables, id, customer)
      requires customer.abandoned.Some? ==> customer.abandoned.value < uuids && Foreign(tables, customer.abandoned.value, session)
      requires terms == TermsOf(customer, d)
      requires pace == ProfileOf(customer.persona).actionDelay
      modifies this`uuids, this`events, this`cursor, this`tables
      ensures Valid() && Kept(tables, id, after) && cursor >= old(cursor)
      ensures Clean() <==> !(d.add && ProfileOf(customer.persona).reusesCart && customer.abandoned.Some?)
      ensures Kinds(events) == old(Kinds(events)) + BasketKinds(d, customer.persona, maxAttempts)
      ensures Remembered(customer, after, d, events, Bought(d, customer.persona, maxAttempts))
    {
      hide Kinds, PurchaseKinds, Grows, Foreign, IdsBelow, ProfileOf;
      after := customer;
      if d.add {
        ghost var s := tables;
        var abandoned, paid := Shop(correlation, id, customer, session, d);
        PresentStays(s, tables, id, session);
        after := customer.(abandoned := abandoned,
                           normalHistory := customer.normalHistory || (customer.persona == Normal && paid));
      }
    }

    /** The visit itself, from the session to what the customer remembers of it. */
    method Visit(id: Id, customer: Customer, isNew: bool, d: Draws) returns (after: Customer)
      requires Valid() && Clean() && DrawsOk(d, maxAttempts) && id < uuids && terms == TermsOf(customer, d)
      requires if isNew then Unused(tables, id) else id in tables.customers
      requires customer.abandoned.Some? ==> customer.abandoned.value < uuids && customer.abandoned.value in tables.carts
      requires pace == ProfileOf(customer.persona).actionDelay
      modifies this`uuids, this`events, this`cursor, this`tables
      ensures Valid() && Kept(tables, id, after) && cursor >= old(cursor)
      ensures Clean() <==> !(d.add && ProfileOf(customer.persona).reusesCart && customer.abandoned.Some?)
      ensures Kinds(events) == old(Kinds(events)) + Script(d, customer.persona, isNew, maxAttempts)
      ensures Remembered(customer, after, d, events, Bought(d, customer.persona, maxAttempts))
    {
      hide Kinds, BasketKinds, Views, Grows, Unused, IdsBelow, AllWelcome, OfferAll, ProfileOf, Schema, PurchaseKinds;
      hide TermsOf, OnTerms, Bought, PaymentKinds, AddsTo, Remembered;
      ghost var before := tables;
      var correlation := Fresh();
      var session := Arrive(correlation, id, customer.persona, isNew, d);
      KeptStays(before, tables, id, customer);
      after := Proceed(correlation, id, customer, session, d);
    }

    /**
     One journey, after any number of earlier ones whose events the store has seen in order. It
     fails only when a new customer does not fit in the pool, and then changes nothing. Otherwise
     its events follow the script and carry the amounts of its terms, every event meets its schema,
     all of them are accepted by the store exactly when the journey does not reuse an abandoned
     cart, and the customer is replaced by what it remembers.
     */
    method Build(d: Draws) returns (built: bool)
      requires Valid() && DrawsOk(d, maxAttempts) && PickOk(customers, d.pick)
      modifies this
      ensures Valid()
      ensures built <==> !(d.pick.New? && |old(customers)| >= poolSize)
      ensures !built ==> customers == old(customers) && tables == old(tables)
      ensures built ==> base == old(tables) && (AllWelcome(base, events) <==> !ReusesCart(old(customers), d))
      ensures built ==> Kinds(events) == Script(d, Chosen(old(customers), d.pick).persona, d.pick.New?, maxAttempts)
      ensures built ==> exists id :: Remembers(old(customers), customers, id, d, events, maxAttempts, cursor)
      ensures built ==> cursor == TimeAfter(events, began, pace) && StartsAt(Chosen(old(customers), d.pick), d.now, began)
                        && pace == ProfileOf(Chosen(old(customers), d.pick).persona).actionDelay
      ensures built ==> TermsFit(terms, Chosen(old(customers), d.pick), d) && forall i :: 0 <= i < |events| ==> OnTerms(terms, events[i].payload)
    {
      hide Kinds, Script, Grows, Unused, IdsBelow, AllWelcome, OfferAll, ProfileOf, Schema;
      hide TermsOf, TermsFit, OnTerms, Bought, Remembered, Remembers, StartsAt;
      var chosen := Begin(d);
      if chosen == None {
        return false;
      }
      var id := chosen.value;
      var customer := Chosen(customers, d.pick);
      TermsOfFit(customer, d);
      NoEvents(events);
      terms := TermsOf(customer, d);
      var after := Visit(id, customer, d.pick.New?, d);
      RemembersThis(customers, id, d, after, events, maxAttempts, cursor);
      var raised := Commit(id, after.(lastActivity := Some(cursor)));
      assert !raised;
      assert Remembers(old(customers), customers, id, d, events, maxAttempts, cursor);
      built := true;
    }
  }

  lemma RemembersThis(
    was: map<Id, Customer>, id: Id, d: Draws, after: Customer, events: seq<Event>, maxAttempts: nat, cursor: int)
    requires PickOk(was, d.pick) && DrawsOk(d, maxAttempts) && maxAttempts > 0
    requires if d.pick.New? then id !in was else id == d.pick.id
    requires Remembered(Chosen(was, d.pick), after, d, events, Bought(d, Chosen(was, d.pick).persona, maxAttempts))
    ensures Remembers(was, was[id := after.(lastActivity := Some(cursor))], id, d, events, maxAttempts, cursor)
  {
    hide Bought, AddsTo;
  }

  lemma NoEvents(events: seq<Event>)
    requires Kinds(events) == []
    ensures events == []
  {
  }

  lemma NothingOffered(s: Store)
    ensures OfferAll(s, []) == s && AllWelcome(s, []) && Kinds([]) == []
  {
  }

  lemma BelowKept(n: Id, s: Store, id: Id, c: Customer)
    requires IdsBelow(n, s) && Kept(s, id, c)
    ensures id < n && (c.abandoned.Some? ==> c.abandoned.value < n)
  {
  }

  lemma KeptStays(before: Store, s: Store, id: Id, c: Customer)
    requires Grows(before, s) && id in s.customers && (c.abandoned.Some? ==> c.abandoned.value in before.carts)
    ensures Kept(s, id, c)
  {
  }

  lemma HalfIsSound(total: nat)
    requires total > 1
    ensures 0 < HalfEven(total, 2) <= total && total - 1 <= 2 * HalfEven(total, 2) <= total + 1
  {
    HalfEvenIsNearest(total, 2);
  }

  /** A successful payment is refundable if the journey was accepted so far, and unknown otherwise. */
  ghost predicate PaymentStands(clean: bool, s: Store, payment: Id, order: Id, customer: Id, total: Money) {
    if clean then Refundable(s, payment, order, customer, total) else payment !in s.payments
  }

  lemma NoneLeft(d: Draws, attempt: nat, maximum: nat)
    requires |d.paid| >= maximum && |d.again| >= maximum
    ensures attempt >= maximum ==> PaymentKinds(d, attempt, maximum) == []
  {
  }

  lemma PaymentKindsStep(d: Draws, attempt: nat, maximum: nat, before: seq<Kind>, rest: seq<Kind>)
    requires |d.paid| >= maximum && |d.again| >= maximum && attempt < maximum
    requires rest == if d.paid[attempt] || !d.again[attempt] then [] else PaymentKinds(d, attempt + 1, maximum)
    ensures var k := if d.paid[attempt] then Success else FailedPayment;
            && before + PaymentKinds(d, attempt, maximum) == before + [k] + rest
            && (Success in PaymentKinds(d, attempt, maximum) <==> d.paid[attempt] || Success in rest)
  {
  }

  predicate Backwards(was: Customer, c: Customer) {
    was.lastActivity.Some? && c.lastActivity.Some? && c.lastActivity.value < was.lastActivity.value
  }

  lemma UnusedPayment(s: Store, x: Id)
    requires Unused(s, x)
    ensures x !in s.payments && x !in s.orders
  {
  }

  lemma GrowsTrans(a: Store, b: Store, c: Store)
    requires Grows(a, b) && Grows(b, c)
    ensures Grows(a, c)
  {
  }

  lemma NewSessionIsForeign(before: Store, s: Store, s': Store, session: Id)
    requires Grows(before, s) && Grows(s, s') && Unused(s, session)
    ensures forall c :: c in before.carts ==> Foreign(s', c, session)
  {
  }

  lemma ForeignStays(before: Store, s: Store, s': Store, session: Id)
    requires Grows(s, s') && forall c :: c in before.carts ==> Foreign(s, c, session)
    ensures forall c :: c in before.carts ==> Foreign(s', c, session)
  {
  }

  lemma PresentStays(s: Store, s': Store, customer: Id, session: Id)
    requires Grows(s, s') && Present(s, customer, session)
    ensures Present(s', customer, session)
  {
  }

  ghost predicate Kept(s: Store, id: Id, c: Customer) {
    id in s.customers && (c.abandoned.Some? ==> c.abandoned.value in s.carts)
  }

  lemma KeptGrows(customers: map<Id, Customer>, s: Store, s': Store)
    requires Grows(s, s') && forall c :: c in customers ==> Kept(s, c, customers[c])
    ensures forall c :: c in customers ==> Kept(s', c, customers[c])
  {
  }

  lemma BelowNext(n: Id, s: Store)
    requires IdsBelow(n, s)
    ensures IdsBelow(n + 1, s)
  {
  }
}
