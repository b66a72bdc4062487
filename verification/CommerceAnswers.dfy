/**
 What the repositories answer to an event, on the terms of the tables and of the history before
 it: which events are accepted, why the others are refused, and what an accepted one changes.
 */
module CommerceAnswers {
  import opened Prelude
  import opened Commerce
  import opened CommerceInvariants

  // ----- one event -----

  /** The event needs a row that is not there yet. */
  predicate LacksParent(s: Store, p: Payload) {
    match p
    case UserRegistered(_, _) => false
    case SessionStarted(_, customer, _) => customer !in s.customers
    case ProductViewed(session, customer, _) => !(customer in s.customers && session in s.sessions)
    case AddedToCart(session, customer, _, _, _, _, _) => !(customer in s.customers && session in s.sessions)
    case CheckoutStarted(_, _, cart, _, _, _, _, _) => cart !in s.carts
    case OrderCreated(_, _, _, cart, _, _, _, _, _) => cart !in s.carts
    case PaymentCompleted(_, order, _, _, _) => order !in s.orders
    case PaymentFailed(_, order, _, _, _) => order !in s.orders
    case RefundRequested(_, payment, _, _, _, _) => payment !in s.payments
  }

  /** The subtotal of a cart once this line has replaced the product's old one. */
  function SubtotalWith(cart: Cart, product: Id, lineTotal: Money): Money {
    var was := LineFor(cart.items, product);
    SumLines(cart.items) + lineTotal - if was.Some? then was.value.lineTotal else 0
  }

  /** The event agrees with the rows it refers to, and does not reuse an identity. */
  predicate Agrees(s: Store, p: Payload)
    requires !LacksParent(s, p)
  {
    match p
    case UserRegistered(customer, identity) => customer in s.customers ==> s.customers[customer] == identity
    case SessionStarted(session, customer, identity) =>
      session in s.sessions ==> s.sessions[session].customer == customer && s.sessions[session].identity == identity
    case ProductViewed(_, _, _) => true
    case AddedToCart(session, customer, cart, product, quantity, unitPrice, currency) =>
      cart in s.carts ==>
        && s.carts[cart].customer == customer && s.carts[cart].session == session && s.carts[cart].currency == currency
        && SubtotalWith(s.carts[cart], product, unitPrice * quantity) >= s.carts[cart].discount
    case CheckoutStarted(session, customer, cart, n, subtotal, _, _, currency) =>
      && s.carts[cart].customer == customer && s.carts[cart].session == session && s.carts[cart].currency == currency
      && s.carts[cart].subtotal == subtotal && s.carts[cart].itemCount == n
    case OrderCreated(order, customer, session, cart, n, subtotal, discount, total, currency) =>
      && order !in s.orders
      && s.carts[cart].customer == customer && s.carts[cart].session == session && s.carts[cart].currency == currency
      && s.carts[cart].subtotal == subtotal && s.carts[cart].discount == discount
      && s.carts[cart].total == total && s.carts[cart].itemCount == n
    case PaymentCompleted(payment, order, customer, amount, currency) => PaymentAgrees(s, payment, order, customer, amount, currency)
    case PaymentFailed(payment, order, customer, amount, currency) => PaymentAgrees(s, payment, order, customer, amount, currency)
    case RefundRequested(refund, payment, order, customer, amount, currency) =>
      && s.payments[payment].status != Failed
      && s.payments[payment].order == order && s.payments[payment].customer == customer && s.payments[payment].currency == currency
      && RefundedFor(s.refunds, payment) + amount <= s.payments[payment].amount
      && forall i :: 0 <= i < |s.refunds| ==> s.refunds[i].id != refund
  }

  predicate PaymentAgrees(s: Store, payment: Id, order: Id, customer: Id, amount: Money, currency: Id) {
    && payment !in s.payments && order in s.orders
    && s.orders[order].customer == customer && s.orders[order].total == amount && s.orders[order].currency == currency
  }

  lemma {:induction false} UpsertSum(items: seq<CartItem>, item: CartItem)
    ensures SumLines(Upsert(items, item)) ==
            SumLines(items) + item.lineTotal - (var was := LineFor(items, item.product); if was.Some? then was.value.lineTotal else 0)
  {
    if items != [] && items[0].product != item.product {
      UpsertSum(items[1..], item);
    }
  }

  /** An event is accepted, refused for now, or refused for good, exactly on these terms. */
  lemma AnswerOf(s: Store, e: Event)
    requires e.payload.AddedToCart? && e.payload.cart in s.carts ==> CartOk(s.carts[e.payload.cart])
    ensures Apply(s, e) == Rejected(MissingDependency) <==> LacksParent(s, e.payload)
    ensures Apply(s, e).Accepted? <==> !LacksParent(s, e.payload) && Agrees(s, e.payload)
  {
    hide RefundedFor, SumLines, SumQuantities, Upsert, LineFor, CartOk;
    if e.payload.AddedToCart? && e.payload.cart in s.carts {
      var p := e.payload;
      UpsertSum(s.carts[p.cart].items, CartItem(p.product, p.quantity, p.unitPrice, p.unitPrice * p.quantity));
    }
  }

  /** `m'` differs from `m` at `k` at most. */
  ghost predicate OnlyAt<T>(m: map<Id, T>, m': map<Id, T>, k: Id) {
    k in m' && m' - {k} == m - {k}
  }

  ghost predicate SamePeople(s: Store, s': Store) {
    s'.customers == s.customers && s'.sessions == s.sessions && s'.views == s.views
  }

  ghost predicate SameMoney(s: Store, s': Store) {
    s'.orders == s.orders && s'.payments == s.payments && s'.refunds == s.refunds
  }

  /** An accepted registration, session or view keeps an existing row and otherwise adds its own. */
  lemma PeopleChange(s: Store, e: Event)
    requires Apply(s, e).Accepted?
    ensures var p, s' := e.payload, Apply(s, e).store;
            && (p.UserRegistered? ==>
                  s' == s.(customers := s'.customers) && OnlyAt(s.customers, s'.customers, p.customer) && s'.customers[p.customer] == p.identity)
            && (p.SessionStarted? ==>
                  && s' == s.(sessions := s'.sessions) && OnlyAt(s.sessions, s'.sessions, p.session)
                  && s'.sessions[p.session].customer == p.customer && s'.sessions[p.session].identity == p.identity)
            && (p.ProductViewed? ==>
                  && s' == s.(views := s'.views) && OnlyAt(s.views, s'.views, e.id)
                  && s'.views[e.id] == if e.id in s.views then s.views[e.id] else View(p.session, p.customer, p.product))
  {
    hide AddItem, Checkout, PlaceOrder, RecordPayment, RecordRefund;
  }

  /**
   An accepted addition changes one cart: its product's line alone, the totals with it, and
   neither owner, discount nor status. A first addition opens the cart.
   */
  lemma AdditionChanges(s: Store, e: Event, product: Id)
    requires e.payload.AddedToCart? && Apply(s, e).Accepted?
    ensures var p, s' := e.payload, Apply(s, e).store;
            && SamePeople(s, s') && SameMoney(s, s') && OnlyAt(s.carts, s'.carts, p.cart)
            && (var cart := s'.carts[p.cart];
                && cart.customer == p.customer && cart.session == p.session && cart.currency == p.currency
                && cart.subtotal == SumLines(cart.items) && cart.itemCount == SumQuantities(cart.items)
                && cart.total == cart.subtotal - cart.discount
                && LineFor(cart.items, p.product) == Some(CartItem(p.product, p.quantity, p.unitPrice, p.unitPrice * p.quantity))
                && (p.cart !in s.carts ==> cart.status == Active && cart.discount == 0 && |cart.items| == 1)
                && (p.cart in s.carts ==>
                      && cart.discount == s.carts[p.cart].discount && cart.status == s.carts[p.cart].status
                      && (product != p.product ==> LineFor(cart.items, product) == LineFor(s.carts[p.cart].items, product))))
  {
    var p := e.payload;
    var line := CartItem(p.product, p.quantity, p.unitPrice, p.unitPrice * p.quantity);
    if p.cart in s.carts {
      UpsertLookup(s.carts[p.cart].items, line, p.product);
      UpsertLookup(s.carts[p.cart].items, line, product);
    } else {
      assert [line][1..] == [];
    }
  }

  /** Checkout fixes discount and total of one cart; an order converts one cart and repeats its terms. */
  lemma CheckoutChanges(s: Store, e: Event)
    requires Apply(s, e).Accepted?
    ensures var p, s' := e.payload, Apply(s, e).store;
            && (p.CheckoutStarted? ==>
                  && SamePeople(s, s') && SameMoney(s, s') && OnlyAt(s.carts, s'.carts, p.cart)
                  && s'.carts[p.cart] == s.carts[p.cart].(status := CheckedOut, discount := p.discount, total := p.total))
            && (p.OrderCreated? ==>
                  && SamePeople(s, s') && s'.payments == s.payments && s'.refunds == s.refunds
                  && OnlyAt(s.carts, s'.carts, p.cart) && s'.carts[p.cart] == s.carts[p.cart].(status := Ordered)
                  && p.order !in s.orders && OnlyAt(s.orders, s'.orders, p.order)
                  && (var cart := s.carts[p.cart];
                      s'.orders[p.order] == Order(cart.customer, cart.session, p.cart, Created, cart.subtotal, cart.discount,
                                                  cart.total, cart.currency, cart.itemCount)))
  {
    hide AddItem, RecordPayment, RecordRefund, Register, StartSession, RecordView;
  }

  /** A payment adds one row with the order's own terms; only a completed one marks the order, and it as paid. */
  lemma PaymentChanges(s: Store, e: Event)
    requires (e.payload.PaymentCompleted? || e.payload.PaymentFailed?) && Apply(s, e).Accepted?
    ensures var p, s' := e.payload, Apply(s, e).store;
            && SamePeople(s, s') && s'.carts == s.carts && s'.refunds == s.refunds
            && p.payment !in s.payments && OnlyAt(s.payments, s'.payments, p.payment)
            && (var o := s.orders[p.order];
                && s'.payments[p.payment] == Payment(p.order, o.customer, if p.PaymentCompleted? then Completed else Failed, o.total, o.currency)
                && s'.orders == if p.PaymentCompleted? then s.orders[p.order := o.(status := Paid)] else s.orders)
  {
    hide AddItem, Checkout, PlaceOrder, RecordRefund, Register, StartSession, RecordView;
  }

  /** A refund adds one row; payment and order show whether anything is left to refund. */
  lemma RefundChanges(s: Store, e: Event)
    requires e.payload.RefundRequested? && Apply(s, e).Accepted?
    ensures var p, s' := e.payload, Apply(s, e).store;
            && SamePeople(s, s') && s'.carts == s.carts
            && s'.refunds == s.refunds + [Refund(p.refund, p.payment, p.order, p.customer, p.amount, p.currency)]
            && OnlyAt(s.payments, s'.payments, p.payment) && s'.orders.Keys == s.orders.Keys
            && (var payment, left := s.payments[p.payment], s.payments[p.payment].amount - RefundedFor(s'.refunds, p.payment);
                && left >= 0
                && s'.payments[p.payment] == payment.(status := if left == 0 then Refunded else PartiallyRefunded)
                && (forall o :: o in s.orders && o != p.order ==> s'.orders[o] == s.orders[o])
                && (p.order in s.orders ==>
                      s'.orders[p.order] == s.orders[p.order].(status := if left == 0 then OrderRefunded else OrderPartlyRefunded)))
  {
    hide AddItem, Checkout, PlaceOrder, RecordPayment, Register, StartSession, RecordView, RefundedFor;
    var p := e.payload;
    RefundedForSnoc(s.refunds, Refund(p.refund, p.payment, p.order, p.customer, p.amount, p.currency), p.payment);
  }

  // ----- whole histories -----

  /** Some event of the history introduces the row. */
  ghost predicate Registers(history: seq<Event>, customer: Id) {
    exists i :: 0 <= i < |history| && history[i].payload.UserRegistered? && history[i].payload.customer == customer
  }

  ghost predicate Opens(history: seq<Event>, session: Id) {
    exists i :: 0 <= i < |history| && history[i].payload.SessionStarted? && history[i].payload.session == session
  }

  ghost predicate Fills(history: seq<Event>, cart: Id) {
    exists i :: 0 <= i < |history| && history[i].payload.AddedToCart? && history[i].payload.cart == cart
  }

  ghost predicate Places(history: seq<Event>, order: Id) {
    exists i :: 0 <= i < |history| && history[i].payload.OrderCreated? && history[i].payload.order == order
  }

  ghost predicate Pays(history: seq<Event>, payment: Id) {
    exists i :: 0 <= i < |history| && (history[i].payload.PaymentCompleted? || history[i].payload.PaymentFailed?)
                && history[i].payload.payment == payment
  }

  /** The tables have a row exactly for what the history introduced. */
  ghost predicate KeysAgree(s: Store, history: seq<Event>, id: Id) {
    && (id in s.customers <==> Registers(history, id))
    && (id in s.sessions <==> Opens(history, id))
    && (id in s.carts <==> Fills(history, id))
    && (id in s.orders <==> Places(history, id))
    && (id in s.payments <==> Pays(history, id))
  }

  lemma IntroducedSnoc(history: seq<Event>, e: Event, id: Id)
    ensures Registers(history + [e], id) <==> Registers(history, id) || (e.payload.UserRegistered? && e.payload.customer == id)
    ensures Opens(history + [e], id) <==> Opens(history, id) || (e.payload.SessionStarted? && e.payload.session == id)
    ensures Fills(history + [e], id) <==> Fills(history, id) || (e.payload.AddedToCart? && e.payload.cart == id)
    ensures Places(history + [e], id) <==> Places(history, id) || (e.payload.OrderCreated? && e.payload.order == id)
    ensures Pays(history + [e], id) <==>
            Pays(history, id) || ((e.payload.PaymentCompleted? || e.payload.PaymentFailed?) && e.payload.payment == id)
  {
    var all := history + [e];
    assert all[|history|] == e;
    assert forall i :: 0 <= i < |history| ==> all[i] == history[i];
  }

  /** An order keeps its terms for ever; only its status moves. */
  ghost predicate OrderStands(s: Store, s': Store, order: Id) {
    order in s.orders ==> order in s'.orders && s'.orders[order].(status := Created) == s.orders[order].(status := Created)
  }

  /** What an accepted event does to the rows that exist. */
  ghost predicate Advances(s: Store, s': Store, p: Payload, id: Id) {
    && (id in s'.customers <==> id in s.customers || (p.UserRegistered? && p.customer == id))
    && (id in s'.sessions <==> id in s.sessions || (p.SessionStarted? && p.session == id))
    && (id in s'.carts <==> id in s.carts || (p.AddedToCart? && p.cart == id))
    && (id in s'.orders <==> id in s.orders || (p.OrderCreated? && p.order == id))
    && (id in s'.payments <==> id in s.payments || ((p.PaymentCompleted? || p.PaymentFailed?) && p.payment == id))
    && OrderStands(s, s', id)
  }

  lemma KeysAdvance(s: Store, e: Event, id: Id)
    requires Apply(s, e).Accepted?
    ensures Advances(s, Apply(s, e).store, e.payload, id)
  {
    hide Apply, Advances;
    match e.payload
    case AddedToCart(_, _, _, _, _, _, _) => AdditionAdvances(s, e, id);
    case CheckoutStarted(_, _, _, _, _, _, _, _) => ConversionAdvances(s, e, id);
    case OrderCreated(_, _, _, _, _, _, _, _, _) => ConversionAdvances(s, e, id);
    case PaymentCompleted(_, _, _, _, _) => PaymentAdvances(s, e, id);
    case PaymentFailed(_, _, _, _, _) => PaymentAdvances(s, e, id);
    case RefundRequested(_, _, _, _, _, _) => RefundAdvances(s, e, id);
    case UserRegistered(_, _) => PeopleAdvance(s, e, id);
    case SessionStarted(_, _, _) => PeopleAdvance(s, e, id);
    case ProductViewed(_, _, _) => PeopleAdvance(s, e, id);
  }

  lemma PeopleAdvance(s: Store, e: Event, id: Id)
    requires (e.payload.UserRegistered? || e.payload.SessionStarted? || e.payload.ProductViewed?) && Apply(s, e).Accepted?
    ensures Advances(s, Apply(s, e).store, e.payload, id)
  {
    hide Apply;
    PeopleChange(s, e);
    if e.payload.UserRegistered? { OneKey(s.customers, Apply(s, e).store.customers, e.payload.customer, id); }
    if e.payload.SessionStarted? { OneKey(s.sessions, Apply(s, e).store.sessions, e.payload.session, id); }
  }

  lemma AdditionAdvances(s: Store, e: Event, id: Id)
    requires e.payload.AddedToCart? && Apply(s, e).Accepted?
    ensures Advances(s, Apply(s, e).store, e.payload, id)
  {
    hide Apply, SumLines, SumQuantities, LineFor;
    AdditionChanges(s, e, 0);
    OneKey(s.carts, Apply(s, e).store.carts, e.payload.cart, id);
  }

  lemma ConversionAdvances(s: Store, e: Event, id: Id)
    requires (e.payload.CheckoutStarted? || e.payload.OrderCreated?) && Apply(s, e).Accepted?
    ensures Advances(s, Apply(s, e).store, e.payload, id)
  {
    hide Apply;
    CheckoutChanges(s, e);
    ParentsThere(s, e);
    OneKey(s.carts, Apply(s, e).store.carts, e.payload.cart, id);
    if e.payload.OrderCreated? { OneKey(s.orders, Apply(s, e).store.orders, e.payload.order, id); }
  }

  lemma PaymentAdvances(s: Store, e: Event, id: Id)
    requires (e.payload.PaymentCompleted? || e.payload.PaymentFailed?) && Apply(s, e).Accepted?
    ensures Advances(s, Apply(s, e).store, e.payload, id)
  {
    hide Apply;
    PaymentChanges(s, e);
    ParentsThere(s, e);
    OneKey(s.payments, Apply(s, e).store.payments, e.payload.payment, id);
  }

  lemma RefundAdvances(s: Store, e: Event, id: Id)
    requires e.payload.RefundRequested? && Apply(s, e).Accepted?
    ensures Advances(s, Apply(s, e).store, e.payload, id)
  {
    hide Apply, RefundedFor;
    RefundChanges(s, e);
    ParentsThere(s, e);
    OneKey(s.payments, Apply(s, e).store.payments, e.payload.payment, id);
  }

  lemma ParentsThere(s: Store, e: Event)
    requires Apply(s, e).Accepted? && !e.payload.AddedToCart?
    ensures !LacksParent(s, e.payload)
  {
    hide Agrees, Apply;
    AnswerOf(s, e);
  }

  lemma OneKey<T>(m: map<Id, T>, m': map<Id, T>, k: Id, id: Id)
    requires OnlyAt(m, m', k)
    ensures id in m' <==> id in m || id == k
    ensures id in m && id != k ==> m'[id] == m[id]
  {
    assert id != k ==> (id in m' - {k} <==> id in m - {k});
    if id in m && id != k { assert (m' - {k})[id] == (m - {k})[id]; }
  }

  lemma {:induction false} KeysFollowHistory(history: seq<Event>, id: Id)
    requires Replay(history).Accepted?
    ensures KeysAgree(Replay(history).store, history, id)
  {
    hide Apply, Registers, Opens, Fills, Places, Pays;
    if history == [] {
      NothingIntroduced(id);
    } else {
      var n := |history| - 1;
      KeysFollowHistory(history[..n], id);
      KeysAdvance(Replay(history[..n]).store, history[n], id);
      IntroducedSnoc(history[..n], history[n], id);
      assert history == history[..n] + [history[n]];
    }
  }

  lemma NothingIntroduced(id: Id)
    ensures KeysAgree(EMPTY, [], id)
  {
  }

  /** What an event has to wait for, read from the events before it alone. */
  ghost predicate Waits(history: seq<Event>, p: Payload) {
    match p
    case UserRegistered(_, _) => false
    case SessionStarted(_, customer, _) => !Registers(history, customer)
    case ProductViewed(session, customer, _) => !Registers(history, customer) || !Opens(history, session)
    case AddedToCart(session, customer, _, _, _, _, _) => !Registers(history, customer) || !Opens(history, session)
    case CheckoutStarted(_, _, cart, _, _, _, _, _) => !Fills(history, cart)
    case OrderCreated(_, _, _, cart, _, _, _, _, _) => !Fills(history, cart)
    case PaymentCompleted(_, order, _, _, _) => !Places(history, order)
    case PaymentFailed(_, order, _, _, _) => !Places(history, order)
    case RefundRequested(_, payment, _, _, _, _) => !Pays(history, payment)
  }

  /** A dependency is missing exactly when no earlier event of the history introduces it. */
  lemma MissingMeansNotYet(history: seq<Event>, e: Event)
    requires Replay(history).Accepted? && AllSchema(history)
    ensures Apply(Replay(history).store, e) == Rejected(MissingDependency) <==> Waits(history, e.payload)
  {
    hide Apply, Replay, Agrees, Registers, Opens, Fills, Places, Pays;
    var s, p := Replay(history).store, e.payload;
    ReplayIsGood(history);
    AnswerOf(s, e);
    match p
    case UserRegistered(_, _) =>
    case SessionStarted(_, customer, _) => KeysFollowHistory(history, customer);
    case ProductViewed(session, customer, _) => KeysFollowHistory(history, customer); KeysFollowHistory(history, session);
    case AddedToCart(session, customer, _, _, _, _, _) => KeysFollowHistory(history, customer); KeysFollowHistory(history, session);
    case CheckoutStarted(_, _, cart, _, _, _, _, _) => KeysFollowHistory(history, cart);
    case OrderCreated(_, _, _, cart, _, _, _, _, _) => KeysFollowHistory(history, cart);
    case PaymentCompleted(_, order, _, _, _) => KeysFollowHistory(history, order);
    case PaymentFailed(_, order, _, _, _) => KeysFollowHistory(history, order);
    case RefundRequested(_, payment, _, _, _, _) => KeysFollowHistory(history, payment);
  }

  lemma {:induction false} PrefixAccepted(history: seq<Event>, i: nat)
    requires i <= |history| && Replay(history).Accepted?
    ensures Replay(history[..i]).Accepted?
    decreases |history|
  {
    if i < |history| {
      var n := |history| - 1;
      assert history[..n][..i] == history[..i];
      PrefixAccepted(history[..n], i);
    } else {
      assert history[..i] == history;
    }
  }

  lemma {:induction false} OrdersStand(history: seq<Event>, i: nat, order: Id)
    requires i <= |history| && Replay(history).Accepted?
    ensures Replay(history[..i]).Accepted? && OrderStands(Replay(history[..i]).store, Replay(history).store, order)
    decreases |history|
  {
    hide Apply;
    PrefixAccepted(history, i);
    if i < |history| {
      var n := |history| - 1;
      assert history[..n][..i] == history[..i];
      OrdersStand(history[..n], i, order);
      KeysAdvance(Replay(history[..n]).store, history[n], order);
    } else {
      assert history[..i] == history;
    }
  }

  /**
   An order's terms, in every accepted history and for ever after: when it was placed, its cart
   belonged to its customer and session, its subtotal and item count were the sums of the cart's
   lines, and its total was that subtotal less the discount of the checkout.
   */
  lemma OrdersRepeatTheirCarts(history: seq<Event>, i: nat)
    requires Replay(history).Accepted? && AllSchema(history) && i < |history| && history[i].payload.OrderCreated?
    ensures var p := history[i].payload;
            && Replay(history[..i]).Accepted? && p.cart in Replay(history[..i]).store.carts && p.order in Replay(history).store.orders
            && (var cart, o := Replay(history[..i]).store.carts[p.cart], Replay(history).store.orders[p.order];
                && o.cart == p.cart && o.customer == cart.customer && o.session == cart.session && o.currency == cart.currency
                && o.subtotal == SumLines(cart.items) && o.itemCount == SumQuantities(cart.items)
                && o.discount == cart.discount && o.total == SumLines(cart.items) - cart.discount)
  {
    hide Apply, Replay, SumLines, SumQuantities;
    var p := history[i].payload;
    PrefixAccepted(history, i);
    PrefixAccepted(history, i + 1);
    ReplayIsGood(history[..i]);
    ReplayOneMore(history, i);
    var s := Replay(history[..i]).store;
    AnswerOf(s, history[i]);
    CheckoutChanges(s, history[i]);
    OrdersStand(history, i + 1, p.order);
    assert CartOk(s.carts[p.cart]);
  }

  lemma ReplayOneMore(history: seq<Event>, i: nat)
    requires i < |history| && Replay(history[..i]).Accepted?
    ensures Replay(history[..i + 1]) == Apply(Replay(history[..i]).store, history[i])
  {
    assert history[..i + 1][..i] == history[..i];
  }
}
