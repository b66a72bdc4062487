/**
 The durable event ledger and the one transaction that writes it together with the commerce
 tables. A transaction is one atomic step: it either commits all of its rows or none.
 */
module Ledger {
  import opened Prelude
  import opened Commerce
  import opened CommerceInvariants
  import opened TrackerSpec

  /** A record's place in Kafka. */
  datatype Coordinate = Coordinate(key: PartitionKey, offset: int)

  /** The stored digest is taken to be injective, so the row remembers the event itself. */
  datatype Entry = Entry(event: Event, source: Coordinate)

  datatype Database = Database(ledger: seq<Entry>, store: Store)

  datatype PersistResult = Committed | AlreadyPersisted | Refused(why: Failure)

  function FindEvent(ledger: seq<Entry>, id: Id): (r: Option<Event>)
    ensures r.Some? ==> r.value.id == id && exists i :: 0 <= i < |ledger| && ledger[i].event == r.value
    ensures r.None? ==> forall i :: 0 <= i < |ledger| ==> ledger[i].event.id != id
  {
    if ledger == [] then None
    else if ledger[|ledger| - 1].event.id == id then Some(ledger[|ledger| - 1].event)
    else FindEvent(ledger[..|ledger| - 1], id)
  }

  predicate SourceUsed(ledger: seq<Entry>, source: Coordinate) {
    exists i :: 0 <= i < |ledger| && ledger[i].source == source
  }

  /** `insert_identity`: the ledger's own verdict before any business row is touched. */
  function Identity(ledger: seq<Entry>, event: Event, source: Coordinate): PersistResult {
    match FindEvent(ledger, event.id)
    case Some(known) => if known == event then AlreadyPersisted else Refused(IntegrityFailure)
    case None => if SourceUsed(ledger, source) then Refused(IntegrityFailure) else Committed
  }

  function Persist(db: Database, event: Event, source: Coordinate): (Database, PersistResult) {
    match Identity(db.ledger, event, source)
    case AlreadyPersisted => (db, AlreadyPersisted)
    case Refused(why) => (db, Refused(why))
    case Committed =>
      match Apply(db.store, event)
      case Rejected(why) => (db, Refused(why))
      case Accepted(store) => (Database(db.ledger + [Entry(event, source)], store), Committed)
  }

  function Events(ledger: seq<Entry>): seq<Event> {
    seq(|ledger|, i requires 0 <= i < |ledger| => ledger[i].event)
  }

  /** Exactly-once effect, as a property of the tables. */
  ghost predicate ExactlyOnce(db: Database) {
    && Replay(Events(db.ledger)) == Accepted(db.store)
    && (forall i, j :: 0 <= i < j < |db.ledger| ==> db.ledger[i].event.id != db.ledger[j].event.id)
    && (forall i, j :: 0 <= i < j < |db.ledger| ==> db.ledger[i].source != db.ledger[j].source)
  }

  predicate Recorded(db: Database, event: Event) {
    FindEvent(db.ledger, event.id) == Some(event)
  }

  lemma FindAfter(ledger: seq<Entry>, e: Entry, id: Id)
    ensures FindEvent(ledger + [e], id) == (if e.event.id == id then Some(e.event) else FindEvent(ledger, id))
  {
    assert (ledger + [e])[..|ledger|] == ledger;
  }

  /** What one transaction attempt does, whatever it reports. */
  lemma PersistEffect(db: Database, event: Event, source: Coordinate)
    requires ExactlyOnce(db)
    ensures var (db', r) := Persist(db, event, source);
            && ExactlyOnce(db')
            && db.ledger <= db'.ledger
            && (r != Committed ==> db' == db)
            && (r == Committed ==> db'.ledger == db.ledger + [Entry(event, source)])
            && (r == Committed || r == AlreadyPersisted ==> Recorded(db', event))
  {
    var (db', r) := Persist(db, event, source);
    if r == Committed {
      assert Events(db'.ledger)[..|db.ledger|] == Events(db.ledger);
      FindAfter(db.ledger, Entry(event, source), event.id);
    }
  }

  /** The ledger holds no row with this id, and none from this coordinate. */
  ghost predicate Fresh(ledger: seq<Entry>, event: Event, source: Coordinate) {
    forall i :: 0 <= i < |ledger| ==> ledger[i].event.id != event.id && ledger[i].source != source
  }

  ghost predicate HoldsEvent(ledger: seq<Entry>, event: Event) {
    exists i :: 0 <= i < |ledger| && ledger[i].event == event
  }

  ghost predicate HoldsId(ledger: seq<Entry>, id: Id) {
    exists i :: 0 <= i < |ledger| && ledger[i].event.id == id
  }

  /**
   When an attempt answers what, and what it writes: it commits exactly a fresh event that the
   handler accepts, and writes that handler's tables and one row; it finds the event already
   persisted exactly when the ledger holds it; a fresh event is refused for the handler's reason,
   and one that collides with another row's id or coordinate is an integrity failure.
   */
  ghost predicate Answers(db: Database, event: Event, source: Coordinate, db': Database, r: PersistResult) {
    && (r == Committed <==> Fresh(db.ledger, event, source) && Apply(db.store, event).Accepted?)
    && (r == Committed ==> db' == Database(db.ledger + [Entry(event, source)], Apply(db.store, event).store))
    && (r != Committed ==> db' == db)
    && (r == AlreadyPersisted <==> HoldsEvent(db.ledger, event))
    && (r == Refused(MissingDependency) <==> Fresh(db.ledger, event, source) && Apply(db.store, event) == Rejected(MissingDependency))
    && (r == Refused(IntegrityFailure) <==>
          || (HoldsId(db.ledger, event.id) && !HoldsEvent(db.ledger, event))
          || (!HoldsId(db.ledger, event.id) && !Fresh(db.ledger, event, source))
          || (Fresh(db.ledger, event, source) && Apply(db.store, event) == Rejected(IntegrityFailure)))
  }

  lemma PersistAnswers(db: Database, event: Event, source: Coordinate)
    requires forall i, j :: 0 <= i < j < |db.ledger| ==> db.ledger[i].event.id != db.ledger[j].event.id
    ensures Answers(db, event, source, Persist(db, event, source).0, Persist(db, event, source).1)
  {
    hide Apply;
    var known := FindEvent(db.ledger, event.id);
    if known.Some? {
      var i :| 0 <= i < |db.ledger| && db.ledger[i].event == known.value;
      assert HoldsId(db.ledger, event.id);
      if HoldsEvent(db.ledger, event) {
        var j :| 0 <= j < |db.ledger| && db.ledger[j].event == event;
        assert i == j;
      }
    } else {
      assert !HoldsId(db.ledger, event.id) && !HoldsEvent(db.ledger, event);
      assert Fresh(db.ledger, event, source) <==> !SourceUsed(db.ledger, source);
    }
  }

  /** A recorded event is never applied again, wherever it is redelivered. */
  lemma RedeliveryIsHarmless(db: Database, event: Event, source: Coordinate)
    requires Recorded(db, event)
    ensures Persist(db, event, source) == (db, AlreadyPersisted)
  {
  }

  /** An event id the ledger knows cannot cause a new row, even with different content. */
  lemma KnownIdWritesNothing(db: Database, event: Event, source: Coordinate)
    requires FindEvent(db.ledger, event.id).Some?
    ensures Persist(db, event, source).0 == db && Persist(db, event, source).1 != Committed
  {
  }

  lemma {:induction false} RecordedStays(ledger: seq<Entry>, more: seq<Entry>, id: Id)
    requires ledger <= more
    requires forall i, j :: 0 <= i < j < |more| ==> more[i].event.id != more[j].event.id
    ensures FindEvent(ledger, id).Some? ==> FindEvent(more, id) == FindEvent(ledger, id)
    decreases |more|
  {
    if |ledger| < |more| {
      var n := |more| - 1;
      RecordedStays(ledger, more[..n], id);
      assert more == more[..n] + [more[n]];
      FindAfter(more[..n], more[n], id);
      if FindEvent(ledger, id).Some? {
        var i :| 0 <= i < |ledger| && ledger[i].event == FindEvent(ledger, id).value;
        assert more[i] == ledger[i];
      }
    } else {
      assert more == ledger;
    }
  }

  /** Every table invariant of the commerce store holds of any database kept exactly-once. */
  lemma ExactlyOnceIsGood(db: Database)
    requires ExactlyOnce(db)
    requires forall i :: 0 <= i < |db.ledger| ==> Schema(db.ledger[i].event.payload)
    ensures Good(db.store)
    ensures forall p :: 0 <= RefundsGranted(Events(db.ledger), p) <= AmountPaid(Events(db.ledger), p)
  {
    ReplayIsGood(Events(db.ledger));
    forall p ensures 0 <= RefundsGranted(Events(db.ledger), p) <= AmountPaid(Events(db.ledger), p) {
      RefundConservation(Events(db.ledger), p);
    }
  }
}
