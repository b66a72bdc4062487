/**
 The commerce tables and what each accepted event does to them.

 Money is an exact integer number of the smallest stored unit. Identifiers are numbers. The
 fields of a customer or session that are only ever compared as a whole (e-mail hash, persona,
 country, device, address, start time) are one `identity` number.
 */
module Commerce {
  import opened Prelude

  type Id = nat
  type Money = int

  datatype Payload =
    | UserRegistered(customer: Id, identity: Id)
    | SessionStarted(session: Id, customer: Id, identity: Id)
    | ProductViewed(session: Id, customer: Id, product: Id)
    | AddedToCart(session: Id, customer: Id, cart: Id, product: Id, quantity: int, unitPrice: Money, currency: Id)
    | CheckoutStarted(session: Id, customer: Id, cart: Id, itemCount: int,
                      subtotal: Money, discount: Money, total: Money, currency: Id)
    | OrderCreated(order: Id, customer: Id, session: Id, cart: Id, itemCount: int,
                   subtotal: Money, discount: Money, total: Money, currency: Id)
    | PaymentCompleted(payment: Id, order: Id, customer: Id, amount: Money, currency: Id)
    | PaymentFailed(payment: Id, order: Id, customer: Id, amount: Money, currency: Id)
    | RefundRequested(refund: Id, payment: Id, order: Id, customer: Id, amount: Money, currency: Id)

  /** `envelope` stands for every other envelope field; equal events have equal digests. */
  datatype Event = Event(id: Id, payload: Payload, envelope: Id)

  /** What the shared payload schemas accept. */
  predicate Schema(p: Payload) {
    match p
    case AddedToCart(_, _, _, _, quantity, unitPrice, _) => quantity > 0 && unitPrice >= 0
    case CheckoutStarted(_, _, _, n, subtotal, discount, total, _) =>
      n > 0 && 0 <= discount <= subtotal && total == subtotal - discount
    case OrderCreated(_, _, _, _, n, subtotal, discount, total, _) =>
      n > 0 && 0 <= discount <= subtotal && total == subtotal - discount
    case PaymentCompleted(_, _, _, amount, _) => amount > 0
    case PaymentFailed(_, _, _, amount, _) => amount > 0
    case RefundRequested(_, _, _, _, amount, _) => amount > 0
    case _ => true
  }

  datatype Session = Session(customer: Id, identity: Id)
  datatype View = View(session: Id, customer: Id, product: Id)
  datatype CartItem = CartItem(product: Id, quantity: int, unitPrice: Money, lineTotal: Money)
  datatype CartStatus = Active | CheckedOut | Ordered
  datatype Cart = Cart(customer: Id, session: Id, status: CartStatus, subtotal: Money, discount: Money,
                       total: Money, currency: Id, itemCount: int, items: seq<CartItem>)
  datatype OrderStatus = Created | Paid | OrderPartlyRefunded | OrderRefunded
  datatype Order = Order(customer: Id, session: Id, cart: Id, status: OrderStatus, subtotal: Money,
                         discount: Money, total: Money, currency: Id, itemCount: int)
  datatype PaymentStatus = Completed | Failed | PartiallyRefunded | Refunded
  datatype Payment = Payment(order: Id, customer: Id, status: PaymentStatus, amount: Money, currency: Id)
  datatype Refund = Refund(id: Id, payment: Id, order: Id, customer: Id, amount: Money, currency: Id)

  datatype Store = Store(
    customers: map<Id, Id>,
    sessions: map<Id, Session>,
    views: map<Id, View>,
    carts: map<Id, Cart>,
    orders: map<Id, Order>,
    payments: map<Id, Payment>,
    refunds: seq<Refund>)

  const EMPTY := Store(map[], map[], map[], map[], map[], map[], [])

  /** A missing parent may arrive later; an integrity failure is final. */
  datatype Failure = MissingDependency | IntegrityFailure

  datatype Outcome = Accepted(store: Store) | Rejected(why: Failure)

  // ----- cart lines -----

  function SumLines(items: seq<CartItem>): Money {
    if items == [] then 0 else items[0].lineTotal + SumLines(items[1..])
  }

  function SumQuantities(items: seq<CartItem>): int {
    if items == [] then 0 else items[0].quantity + SumQuantities(items[1..])
  }

  function LineFor(items: seq<CartItem>, product: Id): Option<CartItem> {
    if items == [] then None
    else if items[0].product == product then Some(items[0])
    else LineFor(items[1..], product)
  }

  /** `INSERT ... ON CONFLICT (cart_id, product_id) DO UPDATE` */
  function Upsert(items: seq<CartItem>, item: CartItem): seq<CartItem> {
    if items == [] then [item]
    else if items[0].product == item.product then [item] + items[1..]
    else [items[0]] + Upsert(items[1..], item)
  }

  predicate LineOk(item: CartItem) {
    item.quantity > 0 && item.unitPrice >= 0 && item.lineTotal == item.unitPrice * item.quantity
  }

  /** Every line is priced right and no product has two lines. */
  ghost predicate LinesOk(items: seq<CartItem>) {
    && (forall i :: 0 <= i < |items| ==> LineOk(items[i]))
    && (forall i, j :: 0 <= i < j < |items| ==> items[i].product != items[j].product)
  }

  // ----- refunds -----

  function RefundedFor(refunds: seq<Refund>, payment: Id): Money {
    if refunds == [] then 0
    else
      var n := |refunds| - 1;
      RefundedFor(refunds[..n], payment) + (if refunds[n].payment == payment then refunds[n].amount else 0)
  }

  // ----- the repositories, one event each -----

  function Register(s: Store, customer: Id, identity: Id): Outcome {
    if customer in s.customers then
      if s.customers[customer] != identity then Rejected(IntegrityFailure) else Accepted(s)
    else Accepted(s.(customers := s.customers[customer := identity]))
  }

  function StartSession(s: Store, session: Id, customer: Id, identity: Id): Outcome {
    if customer !in s.customers then Rejected(MissingDependency)
    else if session in s.sessions then
      if s.sessions[session] != Session(customer, identity) then Rejected(IntegrityFailure) else Accepted(s)
    else Accepted(s.(sessions := s.sessions[session := Session(customer, identity)]))
  }

  function RecordView(s: Store, event: Id, session: Id, customer: Id, product: Id): Outcome {
    if customer !in s.customers || session !in s.sessions then Rejected(MissingDependency)
    else if event in s.views then Accepted(s)
    else Accepted(s.(views := s.views[event := View(session, customer, product)]))
  }

  function AddItem(s: Store, p: Payload): Outcome
    requires p.AddedToCart?
  {
    if p.customer !in s.customers || p.session !in s.sessions then Rejected(MissingDependency)
    else
      var line := CartItem(p.product, p.quantity, p.unitPrice, p.unitPrice * p.quantity);
      if p.cart !in s.carts then
        Accepted(s.(carts := s.carts[p.cart := Cart(
          p.customer, p.session, Active, line.lineTotal, 0, line.lineTotal, p.currency, p.quantity, [line])]))
      else
        var cart := s.carts[p.cart];
        if cart.customer != p.customer || cart.session != p.session || cart.currency != p.currency then
          Rejected(IntegrityFailure)
        else
          var items := Upsert(cart.items, line);
          var subtotal := SumLines(items);
          if subtotal - cart.discount < 0 then Rejected(IntegrityFailure)  // CHECK (total >= 0)
          else Accepted(s.(carts := s.carts[p.cart := cart.(
            items := items, subtotal := subtotal, total := subtotal - cart.discount,
            itemCount := SumQuantities(items))]))
  }

  function Checkout(s: Store, p: Payload): Outcome
    requires p.CheckoutStarted?
  {
    if p.cart !in s.carts then Rejected(MissingDependency)
    else
      var cart := s.carts[p.cart];
      if cart.customer != p.customer || cart.session != p.session || cart.subtotal != p.subtotal
         || cart.currency != p.currency || cart.itemCount != p.itemCount then Rejected(IntegrityFailure)
      else Accepted(s.(carts := s.carts[p.cart := cart.(
        status := CheckedOut, discount := p.discount, total := p.total)]))
  }

  function PlaceOrder(s: Store, p: Payload): Outcome
    requires p.OrderCreated?
  {
    if p.cart !in s.carts then Rejected(MissingDependency)
    else
      var cart := s.carts[p.cart];
      if cart.customer != p.customer || cart.session != p.session || cart.subtotal != p.subtotal
         || cart.discount != p.discount || cart.total != p.total
         || cart.currency != p.currency || cart.itemCount != p.itemCount then Rejected(IntegrityFailure)
      else if p.order in s.orders then Rejected(IntegrityFailure)
      else Accepted(s.(
        orders := s.orders[p.order := Order(p.customer, p.session, p.cart, Created, p.subtotal, p.discount,
                                            p.total, p.currency, p.itemCount)],
        carts := s.carts[p.cart := cart.(status := Ordered)]))
  }

  function RecordPayment(s: Store, payment: Id, order: Id, customer: Id, amount: Money, currency: Id, completed: bool): Outcome
  {
    if order !in s.orders then Rejected(MissingDependency)
    else
      var o := s.orders[order];
      if o.customer != customer || o.total != amount || o.currency != currency then Rejected(IntegrityFailure)
      else if payment in s.payments then Rejected(IntegrityFailure)
      else
        var status := if completed then Completed else Failed;
        Accepted(s.(
          payments := s.payments[payment := Payment(order, customer, status, amount, currency)],
          orders := if completed then s.orders[order := o.(status := Paid)] else s.orders))
  }

  predicate KnownRefund(refunds: seq<Refund>, id: Id) {
    exists i :: 0 <= i < |refunds| && refunds[i].id == id
  }

  function RecordRefund(s: Store, p: Payload): Outcome
    requires p.RefundRequested?
  {
    if p.payment !in s.payments then Rejected(MissingDependency)
    else
      var payment := s.payments[p.payment];
      if payment.status == Failed then Rejected(IntegrityFailure)
      else if payment.order != p.order || payment.customer != p.customer || payment.currency != p.currency then
        Rejected(IntegrityFailure)
      else
        var refunded := RefundedFor(s.refunds, p.payment);
        if refunded + p.amount > payment.amount then Rejected(IntegrityFailure)
        else if KnownRefund(s.refunds, p.refund) then Rejected(IntegrityFailure)
        else
          var full := refunded + p.amount == payment.amount;
          Accepted(s.(
            refunds := s.refunds + [Refund(p.refund, p.payment, p.order, p.customer, p.amount, p.currency)],
            payments := s.payments[p.payment := payment.(status := if full then Refunded else PartiallyRefunded)],
            orders := if p.order !in s.orders then s.orders
                      else s.orders[p.order := s.orders[p.order].(status := if full then OrderRefunded else OrderPartlyRefunded)]))
  }

  function Apply(s: Store, e: Event): Outcome {
    match e.payload
    case UserRegistered(customer, identity) => Register(s, customer, identity)
    case SessionStarted(session, customer, identity) => StartSession(s, session, customer, identity)
    case ProductViewed(session, customer, product) => RecordView(s, e.id, session, customer, product)
    case AddedToCart(_, _, _, _, _, _, _) => AddItem(s, e.payload)
    case CheckoutStarted(_, _, _, _, _, _, _, _) => Checkout(s, e.payload)
    case OrderCreated(_, _, _, _, _, _, _, _, _) => PlaceOrder(s, e.payload)
    case PaymentCompleted(payment, order, customer, amount, currency) =>
      RecordPayment(s, payment, order, customer, amount, currency, true)
    case PaymentFailed(payment, order, customer, amount, currency) =>
      RecordPayment(s, payment, order, customer, amount, currency, false)
    case RefundRequested(_, _, _, _, _, _) => RecordRefund(s, e.payload)
  }

  /** Persisting a history from empty tables; rejected as soon as one event is. */
  function Replay(history: seq<Event>): Outcome {
    if history == [] then Accepted(EMPTY)
    else
      var n := |history| - 1;
      match Replay(history[..n])
      case Rejected(why) => Rejected(why)
      case Accepted(s) => Apply(s, history[n])
  }
}

/** What every accepted history keeps true of the tables. */
module CommerceInvariants {
  import opened Prelude
  import opened Commerce

  // ----- statements -----

  /** Totals agree with the lines, the total equation holds and nothing is negative. */
  ghost predicate CartOk(c: Cart) {
    && LinesOk(c.items)
    && c.subtotal == SumLines(c.items)
    && c.itemCount == SumQuantities(c.items)
    && c.total == c.subtotal - c.discount
    && c.total >= 0 && c.discount >= 0
  }

  ghost predicate CartsOk(s: Store) {
    forall c :: c in s.carts ==> CartOk(s.carts[c])
  }

  /** Customer, session and currency agree with the cart; the total equation holds. */
  ghost predicate OrderOk(s: Store, o: Order) {
    && o.cart in s.carts
    && o.customer == s.carts[o.cart].customer
    && o.session == s.carts[o.cart].session
    && o.currency == s.carts[o.cart].currency
    && o.total == o.subtotal - o.discount && o.total >= 0
  }

  ghost predicate OrdersOk(s: Store) {
    forall o :: o in s.orders ==> OrderOk(s, s.orders[o])
  }

  /** The status of a payment read off the sum of its refunds. */
  ghost predicate StatusAgrees(status: PaymentStatus, refunded: Money, amount: Money) {
    match status
    case Failed => refunded == 0
    case Completed => refunded == 0
    case PartiallyRefunded => 0 < refunded < amount
    case Refunded => refunded == amount
  }

  ghost predicate PaymentOk(s: Store, id: Id, p: Payment) {
    && p.order in s.orders
    && p.customer == s.orders[p.order].customer
    && p.currency == s.orders[p.order].currency
    && p.amount == s.orders[p.order].total > 0
    && StatusAgrees(p.status, RefundedFor(s.refunds, id), p.amount)
  }

  ghost predicate PaymentsOk(s: Store) {
    forall p :: p in s.payments ==> PaymentOk(s, p, s.payments[p])
  }

  ghost predicate RefundOk(s: Store, r: Refund) {
    && r.payment in s.payments
    && r.order == s.payments[r.payment].order
    && r.customer == s.payments[r.payment].customer
    && r.currency == s.payments[r.payment].currency
    && s.payments[r.payment].status != Failed
    && r.amount > 0
  }

  ghost predicate RefundsOk(s: Store) {
    && (forall i :: 0 <= i < |s.refunds| ==> RefundOk(s, s.refunds[i]))
    && (forall i, j :: 0 <= i < j < |s.refunds| ==> s.refunds[i].id != s.refunds[j].id)
  }

  ghost predicate Good(s: Store) {
    CartsOk(s) && OrdersOk(s) && PaymentsOk(s) && RefundsOk(s)
  }

  // ----- cart lines -----

  lemma {:induction false} UpsertLookup(items: seq<CartItem>, item: CartItem, product: Id)
    ensures LineFor(Upsert(items, item), product) ==
            (if product == item.product then Some(item) else LineFor(items, product))
  {
    if items != [] && items[0].product != item.product {
      UpsertLookup(items[1..], item, product);
    } else if items != [] {
      assert ([item] + items[1..])[1..] == items[1..];
    }
  }

  lemma {:induction false} UpsertMember(items: seq<CartItem>, item: CartItem, i: int)
    requires 0 <= i < |Upsert(items, item)|
    ensures Upsert(items, item)[i] == item || Upsert(items, item)[i] in items
  {
    if items != [] && items[0].product != item.product && i > 0 {
      UpsertMember(items[1..], item, i - 1);
    }
  }

  lemma {:induction false} UpsertOk(items: seq<CartItem>, item: CartItem)
    requires LinesOk(items) && LineOk(item)
    ensures LinesOk(Upsert(items, item))
  {
    if items != [] && items[0].product != item.product {
      var rest := items[1..];
      UpsertOk(rest, item);
      var tail := Upsert(rest, item);
      forall i | 0 <= i < |tail| ensures tail[i].product != items[0].product {
        UpsertMember(rest, item, i);
      }
    }
  }

  // ----- one event at a time -----

  predicate SameOwner(c: Cart, c': Cart) {
    c'.customer == c.customer && c'.session == c.session && c'.currency == c.currency
  }

  predicate SameTerms(o: Order, o': Order) {
    o'.customer == o.customer && o'.currency == o.currency && o'.total == o.total
  }

  /** Carts may change totals, lines and status, never owner, session or currency. */
  lemma CartsMayChange(s: Store, s': Store)
    requires Good(s) && CartsOk(s')
    requires s'.orders == s.orders && s'.payments == s.payments && s'.refunds == s.refunds
    requires forall c :: c in s.carts ==> c in s'.carts && SameOwner(s.carts[c], s'.carts[c])
    ensures Good(s')
  {
    forall o | o in s.orders ensures OrderOk(s', s.orders[o]) { assert OrderOk(s, s.orders[o]); }
    forall q | q in s.payments ensures PaymentOk(s', q, s.payments[q]) { assert PaymentOk(s, q, s.payments[q]); }
    forall i | 0 <= i < |s.refunds| ensures RefundOk(s', s.refunds[i]) { assert RefundOk(s, s.refunds[i]); }
  }

  lemma AddItemKeeps(s: Store, p: Payload)
    requires Good(s) && p.AddedToCart? && Schema(p)
    ensures AddItem(s, p).Accepted? ==> Good(AddItem(s, p).store)
  {
    hide OrdersOk, PaymentsOk, RefundsOk;
    var line := CartItem(p.product, p.quantity, p.unitPrice, p.unitPrice * p.quantity);
    if p.cart in s.carts {
      UpsertOk(s.carts[p.cart].items, line);
    } else {
      assert SumLines([line]) == line.lineTotal + SumLines([]);
      assert SumQuantities([line]) == line.quantity + SumQuantities([]);
      assert line.lineTotal >= 0;
    }
    if AddItem(s, p).Accepted? {
      CartsMayChange(s, AddItem(s, p).store);
    }
  }

  lemma CheckoutKeeps(s: Store, p: Payload)
    requires Good(s) && p.CheckoutStarted? && Schema(p)
    ensures Checkout(s, p).Accepted? ==> Good(Checkout(s, p).store)
  {
    hide OrdersOk, PaymentsOk, RefundsOk;
    if Checkout(s, p).Accepted? {
      assert CartOk(s.carts[p.cart]);
      CartsMayChange(s, Checkout(s, p).store);
    }
  }

  /** Orders may appear and change status. */
  lemma OrdersMayChange(s: Store, s': Store)
    requires Good(s) && OrdersOk(s')
    requires s'.carts == s.carts && s'.payments == s.payments && s'.refunds == s.refunds
    requires forall o :: o in s.orders ==> o in s'.orders && SameTerms(s.orders[o], s'.orders[o])
    ensures Good(s')
  {
    forall q | q in s.payments ensures PaymentOk(s', q, s.payments[q]) { assert PaymentOk(s, q, s.payments[q]); }
    forall i | 0 <= i < |s.refunds| ensures RefundOk(s', s.refunds[i]) { assert RefundOk(s, s.refunds[i]); }
  }

  lemma PlaceOrderKeeps(s: Store, p: Payload)
    requires Good(s) && p.OrderCreated? && Schema(p)
    ensures PlaceOrder(s, p).Accepted? ==> Good(PlaceOrder(s, p).store)
  {
    hide PaymentsOk, RefundsOk;
    if PlaceOrder(s, p).Accepted? {
      var s' := PlaceOrder(s, p).store;
      var mid := s.(carts := s'.carts);
      assert CartOk(s.carts[p.cart]);
      CartsMayChange(s, mid);
      assert forall o :: o in s.orders ==> OrderOk(mid, s.orders[o]);
      OrdersMayChange(mid, s');
    }
  }

  lemma {:induction false} NoRefundsYet(refunds: seq<Refund>, payment: Id)
    requires forall i :: 0 <= i < |refunds| ==> refunds[i].payment != payment
    ensures RefundedFor(refunds, payment) == 0
  {
    if refunds != [] { NoRefundsYet(refunds[..|refunds| - 1], payment); }
  }

  /** A change of one order's status keeps everything. */
  lemma SetOrderStatus(s: Store, order: Id, status: OrderStatus)
    requires Good(s) && order in s.orders
    ensures Good(s.(orders := s.orders[order := s.orders[order].(status := status)]))
  {
    hide PaymentsOk, RefundsOk;
    assert OrderOk(s, s.orders[order]);
    OrdersMayChange(s, s.(orders := s.orders[order := s.orders[order].(status := status)]));
  }

  lemma NewPaymentKeeps(s: Store, id: Id, p: Payment)
    requires Good(s) && id !in s.payments && p.order in s.orders
    requires p.customer == s.orders[p.order].customer && p.currency == s.orders[p.order].currency
    requires p.amount == s.orders[p.order].total > 0 && (p.status == Completed || p.status == Failed)
    ensures Good(s.(payments := s.payments[id := p]))
  {
    var s' := s.(payments := s.payments[id := p]);
    forall i | 0 <= i < |s.refunds| ensures s.refunds[i].payment != id && RefundOk(s', s.refunds[i]) {
      assert RefundOk(s, s.refunds[i]);
    }
    NoRefundsYet(s.refunds, id);
    forall q | q in s'.payments ensures PaymentOk(s', q, s'.payments[q]) {
      if q != id { assert PaymentOk(s, q, s.payments[q]); }
    }
    forall o | o in s.orders ensures OrderOk(s', s.orders[o]) { assert OrderOk(s, s.orders[o]); }
  }

  lemma RecordPaymentKeeps(s: Store, payment: Id, order: Id, customer: Id, amount: Money, currency: Id, completed: bool)
    requires Good(s) && amount > 0
    ensures var r := RecordPayment(s, payment, order, customer, amount, currency, completed);
            r.Accepted? ==> Good(r.store)
  {
    hide Good;
    var r := RecordPayment(s, payment, order, customer, amount, currency, completed);
    if r.Accepted? {
      var p := Payment(order, customer, if completed then Completed else Failed, amount, currency);
      NewPaymentKeeps(s, payment, p);
      if completed {
        SetOrderStatus(s.(payments := s.payments[payment := p]), order, Paid);
      }
    }
  }

  lemma RefundedForSnoc(refunds: seq<Refund>, r: Refund, payment: Id)
    ensures RefundedFor(refunds + [r], payment) ==
            RefundedFor(refunds, payment) + (if r.payment == payment then r.amount else 0)
  {
    assert (refunds + [r])[..|refunds|] == refunds;
  }

  /** A refund within the balance, with the status that its new sum calls for. */
  lemma NewRefundKeeps(s: Store, r: Refund, status: PaymentStatus)
    requires Good(s) && r.payment in s.payments && r.amount > 0 && !KnownRefund(s.refunds, r.id)
    requires var p := s.payments[r.payment];
             && p.status != Failed && status != Failed
             && r.order == p.order && r.customer == p.customer && r.currency == p.currency
             && StatusAgrees(status, RefundedFor(s.refunds, r.payment) + r.amount, p.amount)
    ensures Good(s.(refunds := s.refunds + [r],
                    payments := s.payments[r.payment := s.payments[r.payment].(status := status)]))
  {
    var s' := s.(refunds := s.refunds + [r],
                 payments := s.payments[r.payment := s.payments[r.payment].(status := status)]);
    forall q | q in s'.payments ensures PaymentOk(s', q, s'.payments[q]) {
      assert PaymentOk(s, q, s.payments[q]);
      RefundedForSnoc(s.refunds, r, q);
    }
    forall i | 0 <= i < |s'.refunds| ensures RefundOk(s', s'.refunds[i]) {
      if i < |s.refunds| { assert RefundOk(s, s.refunds[i]); }
    }
    forall o | o in s.orders ensures OrderOk(s', s.orders[o]) { assert OrderOk(s, s.orders[o]); }
  }

  lemma RecordRefundKeeps(s: Store, p: Payload)
    requires Good(s) && p.RefundRequested? && Schema(p)
    ensures RecordRefund(s, p).Accepted? ==> Good(RecordRefund(s, p).store)
  {
    if RecordRefund(s, p).Accepted? {
      var s' := RecordRefund(s, p).store;
      var r := Refund(p.refund, p.payment, p.order, p.customer, p.amount, p.currency);
      assert PaymentOk(s, p.payment, s.payments[p.payment]);
      var status := s'.payments[p.payment].status;
      var mid := s.(refunds := s'.refunds, payments := s'.payments);
      hide Good;
      NewRefundKeeps(s, r, status);
      if p.order in s.orders {
        SetOrderStatus(mid, p.order, s'.orders[p.order].status);
      }
    }
  }

  lemma ApplyKeeps(s: Store, e: Event)
    requires Good(s) && Schema(e.payload)
    ensures Apply(s, e).Accepted? ==> Good(Apply(s, e).store)
  {
    match e.payload
    case UserRegistered(customer, identity) => KeepsMoneyTables(s, Apply(s, e));
    case SessionStarted(session, customer, identity) => KeepsMoneyTables(s, Apply(s, e));
    case ProductViewed(session, customer, product) => KeepsMoneyTables(s, Apply(s, e));
    case AddedToCart(_, _, _, _, _, _, _) => AddItemKeeps(s, e.payload);
    case CheckoutStarted(_, _, _, _, _, _, _, _) => CheckoutKeeps(s, e.payload);
    case OrderCreated(_, _, _, _, _, _, _, _, _) => PlaceOrderKeeps(s, e.payload);
    case PaymentCompleted(payment, order, customer, amount, currency) =>
      RecordPaymentKeeps(s, payment, order, customer, amount, currency, true);
    case PaymentFailed(payment, order, customer, amount, currency) =>
      RecordPaymentKeeps(s, payment, order, customer, amount, currency, false);
    case RefundRequested(_, _, _, _, _, _) => RecordRefundKeeps(s, e.payload);
  }

  lemma KeepsMoneyTables(s: Store, r: Outcome)
    requires Good(s)
    requires r.Accepted? ==> r.store.carts == s.carts && r.store.orders == s.orders
                             && r.store.payments == s.payments && r.store.refunds == s.refunds
    ensures r.Accepted? ==> Good(r.store)
  {
    if r.Accepted? {
      assert forall o :: o in s.orders ==> OrderOk(s, s.orders[o]) && OrderOk(r.store, s.orders[o]);
      assert forall q :: q in s.payments ==> PaymentOk(s, q, s.payments[q]) && PaymentOk(r.store, q, s.payments[q]);
      assert forall i :: 0 <= i < |s.refunds| ==> RefundOk(s, s.refunds[i]) && RefundOk(r.store, s.refunds[i]);
    }
  }

  // ----- whole histories -----

  ghost predicate AllSchema(history: seq<Event>) {
    forall i :: 0 <= i < |history| ==> Schema(history[i].payload)
  }

  /** Every table invariant after every accepted history. */
  lemma {:induction false} ReplayIsGood(history: seq<Event>)
    requires AllSchema(history)
    ensures Replay(history).Accepted? ==> Good(Replay(history).store)
  {
    if history != [] {
      var n := |history| - 1;
      ReplayIsGood(history[..n]);
      if Replay(history[..n]).Accepted? {
        ApplyKeeps(Replay(history[..n]).store, history[n]);
      }
    }
  }

  /** Refunds a history grants on a payment, read from the events alone. */
  function RefundsGranted(history: seq<Event>, payment: Id): Money {
    if history == [] then 0
    else
      var n := |history| - 1;
      var p := history[n].payload;
      RefundsGranted(history[..n], payment) + (if p.RefundRequested? && p.payment == payment then p.amount else 0)
  }

  /** What a history took in on a payment, read from the events alone. */
  function AmountPaid(history: seq<Event>, payment: Id): Money {
    if history == [] then 0
    else
      var n := |history| - 1;
      var p := history[n].payload;
      AmountPaid(history[..n], payment) + (if p.PaymentCompleted? && p.payment == payment then p.amount else 0)
  }

  /** The line a cart should hold: the last addition of the product, if any. */
  function LastAdded(history: seq<Event>, cart: Id, product: Id): Option<CartItem> {
    if history == [] then None
    else
      var n := |history| - 1;
      var p := history[n].payload;
      if p.AddedToCart? && p.cart == cart && p.product == product
      then Some(CartItem(product, p.quantity, p.unitPrice, p.unitPrice * p.quantity))
      else LastAdded(history[..n], cart, product)
  }

  function Line(s: Store, cart: Id, product: Id): Option<CartItem> {
    if cart in s.carts then LineFor(s.carts[cart].items, product) else None
  }

  ghost predicate BooksAgree(s: Store, history: seq<Event>, payment: Id) {
    && RefundedFor(s.refunds, payment) == RefundsGranted(history, payment)
    && AmountPaid(history, payment) ==
       (if payment in s.payments && s.payments[payment].status != Failed then s.payments[payment].amount else 0)
  }

  lemma MoneyFrame(s: Store, e: Event)
    requires !e.payload.RefundRequested? && !e.payload.PaymentCompleted? && !e.payload.PaymentFailed?
    ensures Apply(s, e).Accepted? ==> Apply(s, e).store.refunds == s.refunds && Apply(s, e).store.payments == s.payments
  {
  }

  lemma RefundKeepsBooks(s: Store, history: seq<Event>, e: Event, payment: Id)
    requires BooksAgree(s, history, payment) && e.payload.RefundRequested?
    ensures Apply(s, e).Accepted? ==> BooksAgree(Apply(s, e).store, history + [e], payment)
  {
    assert (history + [e])[..|history|] == history;
    var p := e.payload;
    RefundedForSnoc(s.refunds, Refund(p.refund, p.payment, p.order, p.customer, p.amount, p.currency), payment);
  }

  lemma ApplyKeepsBooks(s: Store, history: seq<Event>, e: Event, payment: Id)
    requires BooksAgree(s, history, payment)
    ensures Apply(s, e).Accepted? ==> BooksAgree(Apply(s, e).store, history + [e], payment)
  {
    assert (history + [e])[..|history|] == history;
    var p := e.payload;
    if p.RefundRequested? {
      RefundKeepsBooks(s, history, e, payment);
    } else if !p.PaymentCompleted? && !p.PaymentFailed? {
      hide Apply;
      MoneyFrame(s, e);
    } else {
      hide RecordRefund;
    }
  }

  lemma {:induction false} TablesMatchBooks(history: seq<Event>, payment: Id)
    ensures Replay(history).Accepted? ==> BooksAgree(Replay(history).store, history, payment)
  {
    if history != [] {
      var n := |history| - 1;
      TablesMatchBooks(history[..n], payment);
      if Replay(history[..n]).Accepted? {
        ApplyKeepsBooks(Replay(history[..n]).store, history[..n], history[n], payment);
        assert history[..n] + [history[n]] == history;
      }
    }
  }

  /**
   Refund conservation, read from the ledger alone: in every accepted history the refunds of
   a payment never exceed what that payment took in, and a payment has at most one amount.
   */
  lemma RefundConservation(history: seq<Event>, payment: Id)
    requires AllSchema(history) && Replay(history).Accepted?
    ensures 0 <= RefundsGranted(history, payment) <= AmountPaid(history, payment)
  {
    var s := Replay(history).store;
    ReplayIsGood(history);
    TablesMatchBooks(history, payment);
    if payment in s.payments {
      assert PaymentOk(s, payment, s.payments[payment]);
    } else {
      forall i | 0 <= i < |s.refunds| ensures s.refunds[i].payment != payment {
        assert RefundOk(s, s.refunds[i]);
      }
      NoRefundsYet(s.refunds, payment);
    }
  }

  /** The status column is determined by the refunds in the ledger. */
  lemma StatusFollowsRefunds(history: seq<Event>, payment: Id)
    requires AllSchema(history) && Replay(history).Accepted? && payment in Replay(history).store.payments
    ensures var p, granted := Replay(history).store.payments[payment], RefundsGranted(history, payment);
            p.status != Failed ==>
              && (p.status == Completed <==> granted == 0)
              && (p.status == PartiallyRefunded <==> 0 < granted < p.amount)
              && (p.status == Refunded <==> granted == p.amount)
  {
    ReplayIsGood(history);
    TablesMatchBooks(history, payment);
    var s := Replay(history).store;
    assert PaymentOk(s, payment, s.payments[payment]);
  }

  lemma AddItemLine(s: Store, p: Payload, cart: Id, product: Id)
    requires p.AddedToCart?
    ensures AddItem(s, p).Accepted? ==>
              Line(AddItem(s, p).store, cart, product) ==
              (if p.cart == cart && p.product == product
               then Some(CartItem(product, p.quantity, p.unitPrice, p.unitPrice * p.quantity))
               else Line(s, cart, product))
  {
    var line := CartItem(p.product, p.quantity, p.unitPrice, p.unitPrice * p.quantity);
    UpsertLookup(if p.cart in s.carts then s.carts[p.cart].items else [], line, product);
  }

  /** The same carts with the same lines. */
  ghost predicate SameItems(s: Store, s': Store) {
    s'.carts.Keys == s.carts.Keys && forall c :: c in s.carts ==> s'.carts[c].items == s.carts[c].items
  }

  lemma CheckoutKeepsItems(s: Store, p: Payload)
    requires p.CheckoutStarted?
    ensures Checkout(s, p).Accepted? ==> SameItems(s, Checkout(s, p).store)
  {
  }

  lemma OrderKeepsItems(s: Store, p: Payload)
    requires p.OrderCreated?
    ensures PlaceOrder(s, p).Accepted? ==> SameItems(s, PlaceOrder(s, p).store)
  {
  }

  lemma CartsUntouched(s: Store, e: Event)
    requires !e.payload.AddedToCart? && !e.payload.CheckoutStarted? && !e.payload.OrderCreated?
    ensures Apply(s, e).Accepted? ==> Apply(s, e).store.carts == s.carts
  {
    hide AddItem, Checkout, PlaceOrder, RefundedFor, KnownRefund;
  }

  lemma LineFrame(s: Store, e: Event, cart: Id, product: Id)
    requires !e.payload.AddedToCart?
    ensures Apply(s, e).Accepted? ==> Line(Apply(s, e).store, cart, product) == Line(s, cart, product)
  {
    hide LineFor, AddItem, Checkout, PlaceOrder, RecordPayment, RecordRefund, Register, StartSession, RecordView;
    if e.payload.CheckoutStarted? {
      CheckoutKeepsItems(s, e.payload);
    } else if e.payload.OrderCreated? {
      OrderKeepsItems(s, e.payload);
    } else {
      hide Apply;
      CartsUntouched(s, e);
    }
  }

  /** A cart holds, for each product, exactly the last accepted addition of it. */
  lemma {:induction false} CartHoldsLastAdditions(history: seq<Event>, cart: Id, product: Id)
    ensures Replay(history).Accepted? ==>
              Line(Replay(history).store, cart, product) == LastAdded(history, cart, product)
  {
    if history != [] {
      var n := |history| - 1;
      CartHoldsLastAdditions(history[..n], cart, product);
      if Replay(history[..n]).Accepted? {
        hide AddItem;
        if history[n].payload.AddedToCart? {
          AddItemLine(Replay(history[..n]).store, history[n].payload, cart, product);
        } else {
          hide Apply;
          LineFrame(Replay(history[..n]).store, history[n], cart, product);
        }
      }
    }
  }
}
