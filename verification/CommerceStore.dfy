/**
 The repositories and the unit of work as they run: tables updated row by row inside one
 transaction that is rolled back on any error. Every method is proved to do what the
 corresponding function of the store does as a whole.
 */
module CommerceStore {
  import opened Prelude
  import opened Commerce
  import opened Ledger

  /** An attempt that raised `err`, or left the tables as `now`, did what `outcome` says. */
  predicate Did(outcome: Outcome, err: Option<Failure>, now: Store) {
    match err
    case None => outcome == Accepted(now)
    case Some(why) => outcome == Rejected(why)
  }

  lemma NewCartTotals(line: CartItem)
    ensures Upsert([], line) == [line]
    ensures SumLines([line]) == line.lineTotal && SumQuantities([line]) == line.quantity
  {
    assert [line][1..] == [];
  }

  ghost predicate DistinctIds(ledger: seq<Entry>) {
    forall i, j :: 0 <= i < j < |ledger| ==> ledger[i].event.id != ledger[j].event.id
  }

  lemma AttemptAnswers(db: Database, event: Event, source: Coordinate)
    ensures DistinctIds(db.ledger) ==> Answers(db, event, source, Persist(db, event, source).0, Persist(db, event, source).1)
  {
    hide Answers, Persist;
    if DistinctIds(db.ledger) { PersistAnswers(db, event, source); }
  }

  class Tables {
    var customers: map<Id, Id>
    var sessions: map<Id, Session>
    var views: map<Id, View>
    var carts: map<Id, Cart>
    var orders: map<Id, Order>
    var payments: map<Id, Payment>
    var refunds: seq<Refund>
    var processedEvents: seq<Entry>

    function Snapshot(): Store
      reads this
    {
      Store(customers, sessions, views, carts, orders, payments, refunds)
    }

    function Contents(): Database
      reads this
    {
      Database(processedEvents, Snapshot())
    }

    constructor ()
      ensures Contents() == Database([], EMPTY)
    {
      customers, sessions, views, carts, orders, payments := map[], map[], map[], map[], map[], map[];
      refunds, processedEvents := [], [];
    }

    method RegisterCustomer(customer: Id, identity: Id) returns (err: Option<Failure>)
      modifies this`customers
      ensures Did(Register(old(Snapshot()), customer, identity), err, Snapshot())
    {
      if customer in customers {
        return if customers[customer] != identity then Some(IntegrityFailure) else None;
      }
      customers := customers[customer := identity];
      err := None;
    }

    method InsertSession(session: Id, customer: Id, identity: Id) returns (err: Option<Failure>)
      modifies this`sessions
      ensures Did(StartSession(old(Snapshot()), session, customer, identity), err, Snapshot())
    {
      if customer !in customers {
        return Some(MissingDependency);
      }
      if session in sessions {
        return if sessions[session] != Session(customer, identity) then Some(IntegrityFailure) else None;
      }
      sessions := sessions[session := Session(customer, identity)];
      err := None;
    }

    method InsertView(event: Id, session: Id, customer: Id, product: Id) returns (err: Option<Failure>)
      modifies this`views
      ensures Did(RecordView(old(Snapshot()), event, session, customer, product), err, Snapshot())
    {
      if customer !in customers {
        return Some(MissingDependency);
      }
      if session !in sessions {
        return Some(MissingDependency);
      }
      if event !in views {
        views := views[event := View(session, customer, product)];
      }
      err := None;
    }

    /** Header first, then the line, then the totals recomputed over all lines. */
    method AddCartItem(p: Payload) returns (err: Option<Failure>)
      requires p.AddedToCart?
      modifies this`carts
      ensures p.unitPrice * p.quantity >= 0 ==> Did(AddItem(old(Snapshot()), p), err, Snapshot())
    {
      if p.customer !in customers || p.session !in sessions {
        return Some(MissingDependency);
      }
      var lineTotal := p.unitPrice * p.quantity;
      if p.cart !in carts {
        carts := carts[p.cart := Cart(p.customer, p.session, Active, lineTotal, 0, lineTotal, p.currency, p.quantity, [])];
      } else {
        var known := carts[p.cart];
        if known.customer != p.customer || known.session != p.session || known.currency != p.currency {
          return Some(IntegrityFailure);
        }
      }
      var cart := carts[p.cart];
      cart := cart.(items := Upsert(cart.items, CartItem(p.product, p.quantity, p.unitPrice, lineTotal)));
      carts := carts[p.cart := cart];
      NewCartTotals(CartItem(p.product, p.quantity, p.unitPrice, lineTotal));
      var subtotal := SumLines(cart.items);
      if subtotal - cart.discount < 0 {
        return Some(IntegrityFailure);
      }
      carts := carts[p.cart := cart.(subtotal := subtotal, total := subtotal - cart.discount,
                                     itemCount := SumQuantities(cart.items))];
      assert carts == old(carts)[p.cart := carts[p.cart]];
      err := None;
    }

    method CheckoutCart(p: Payload) returns (err: Option<Failure>)
      requires p.CheckoutStarted?
      modifies this`carts
      ensures Did(Checkout(old(Snapshot()), p), err, Snapshot())
    {
      if p.cart !in carts {
        return Some(MissingDependency);
      }
      var cart := carts[p.cart];
      if cart.customer != p.customer || cart.session != p.session || cart.subtotal != p.subtotal
         || cart.currency != p.currency || cart.itemCount != p.itemCount {
        return Some(IntegrityFailure);
      }
      carts := carts[p.cart := cart.(status := CheckedOut, discount := p.discount, total := p.total)];
      err := None;
    }

    method InsertOrder(p: Payload) returns (err: Option<Failure>)
      requires p.OrderCreated?
      modifies this`orders, this`carts
      ensures Did(PlaceOrder(old(Snapshot()), p), err, Snapshot())
    {
      if p.cart !in carts {
        return Some(MissingDependency);
      }
      var cart := carts[p.cart];
      if cart.customer != p.customer || cart.session != p.session || cart.subtotal != p.subtotal
         || cart.discount != p.discount || cart.total != p.total
         || cart.currency != p.currency || cart.itemCount != p.itemCount {
        return Some(IntegrityFailure);
      }
      if p.order in orders {
        return Some(IntegrityFailure);
      }
      orders := orders[p.order := Order(p.customer, p.session, p.cart, Created, p.subtotal, p.discount,
                                        p.total, p.currency, p.itemCount)];
      carts := carts[p.cart := cart.(status := Ordered)];
      err := None;
    }

    method InsertPayment(payment: Id, order: Id, customer: Id, amount: Money, currency: Id, completed: bool)
      returns (err: Option<Failure>)
      modifies this`payments, this`orders
      ensures Did(RecordPayment(old(Snapshot()), payment, order, customer, amount, currency, completed), err, Snapshot())
    {
      if order !in orders {
        return Some(MissingDependency);
      }
      var row := orders[order];
      if row.customer != customer || row.total != amount || row.currency != currency {
        return Some(IntegrityFailure);
      }
      if payment in payments {
        return Some(IntegrityFailure);
      }
      payments := payments[payment := Payment(order, customer, if completed then Completed else Failed, amount, currency)];
      if completed {
        orders := orders[order := row.(status := Paid)];
      }
      err := None;
    }

    method InsertRefund(p: Payload) returns (err: Option<Failure>)
      requires p.RefundRequested?
      modifies this`refunds, this`payments, this`orders
      ensures Did(RecordRefund(old(Snapshot()), p), err, Snapshot())
    {
      if p.payment !in payments {
        return Some(MissingDependency);
      }
      var payment := payments[p.payment];
      if payment.status == Failed {
        return Some(IntegrityFailure);
      }
      if payment.order != p.order || payment.customer != p.customer || payment.currency != p.currency {
        return Some(IntegrityFailure);
      }
      var refunded := RefundedFor(refunds, p.payment);
      if refunded + p.amount > payment.amount {
        return Some(IntegrityFailure);
      }
      if KnownRefund(refunds, p.refund) {
        return Some(IntegrityFailure);
      }
      refunds := refunds + [Refund(p.refund, p.payment, p.order, p.customer, p.amount, p.currency)];
      var full := refunded + p.amount == payment.amount;
      payments := payments[p.payment := payment.(status := if full then Refunded else PartiallyRefunded)];
      if p.order in orders {
        orders := orders[p.order := orders[p.order].(status := if full then OrderRefunded else OrderPartlyRefunded)];
      }
      err := None;
    }

    /** `insert_identity`: the two look-ups, then the ledger row. */
    method InsertIdentity(event: Event, source: Coordinate) returns (verdict: PersistResult)
      modifies this`processedEvents
      ensures verdict == Identity(old(processedEvents), event, source)
      ensures processedEvents ==
              if verdict == Committed then old(processedEvents) + [Entry(event, source)] else old(processedEvents)
    {
      var known := FindEvent(processedEvents, event.id);
      if known.Some? {
        return if known.value == event then AlreadyPersisted else Refused(IntegrityFailure);
      }
      if SourceUsed(processedEvents, source) {
        return Refused(IntegrityFailure);
      }
      processedEvents := processedEvents + [Entry(event, source)];
      verdict := Committed;
    }

    /** The handler the event's type selects. */
    method Handle(event: Event) returns (err: Option<Failure>)
      requires Schema(event.payload)
      modifies this`customers, this`sessions, this`views, this`carts, this`orders, this`payments, this`refunds
      ensures Did(Apply(old(Snapshot()), event), err, Snapshot())
    {
      match event.payload {
        case UserRegistered(customer, identity) => err := RegisterCustomer(customer, identity);
        case SessionStarted(session, customer, identity) => err := InsertSession(session, customer, identity);
        case ProductViewed(session, customer, product) => err := InsertView(event.id, session, customer, product);
        case AddedToCart(_, _, _, _, quantity, unitPrice, _) =>
          assert unitPrice * quantity >= 0;
          err := AddCartItem(event.payload);
        case CheckoutStarted(_, _, _, _, _, _, _, _) => err := CheckoutCart(event.payload);
        case OrderCreated(_, _, _, _, _, _, _, _, _) => err := InsertOrder(event.payload);
        case PaymentCompleted(payment, order, customer, amount, currency) =>
          err := InsertPayment(payment, order, customer, amount, currency, true);
        case PaymentFailed(payment, order, customer, amount, currency) =>
          err := InsertPayment(payment, order, customer, amount, currency, false);
        case RefundRequested(_, _, _, _, _, _) => err := InsertRefund(event.payload);
      }
    }

    /** ROLLBACK: every table gets the contents it had when the transaction began. */
    method Rollback(ghost was: Database, ledger: seq<Entry>, s: Store)
      requires was == Database(ledger, s)
      modifies this
      ensures Contents() == was
    {
      customers, sessions, views, carts := s.customers, s.sessions, s.views, s.carts;
      orders, payments, refunds, processedEvents := s.orders, s.payments, s.refunds, ledger;
    }

    /**
     The transaction: the tables and the result are those of `Ledger.Persist`, and an attempt
     that does not commit leaves every table as it was, rows written before the failure included.
     */
    method PersistEvent(event: Event, source: Coordinate) returns (result: PersistResult)
      requires Schema(event.payload)
      modifies this
      ensures (Contents(), result) == Persist(old(Contents()), event, source)
      ensures DistinctIds(old(processedEvents)) ==> Answers(old(Contents()), event, source, Contents(), result)
      ensures result != Committed ==> Contents() == old(Contents())
    {
      hide Answers, Apply;
      var ledger, store := processedEvents, Snapshot();
      AttemptAnswers(Contents(), event, source);
      result := InsertIdentity(event, source);
      if result == Committed {
        var err := Handle(event);
        if err.Some? {
          Rollback(old(Contents()), ledger, store);
          result := Refused(err.value);
        }
      }
    }
  }
}
