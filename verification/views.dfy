/**
 * The older blueprint of app/views.py, which the application does not
 * register. Its signup, verify and login behave as the handlers of module
 * Controllers do (the hash check is a parameter there), so they are not
 * repeated here. What differs is modelled below: the city listing, the two
 * unfiltered listings, and seat booking, which works on the per-bus,
 * per-date booking table of app/models.py rather than on routes.
 */
module Views {
  import opened Common
  import opened Tables
  import opened Controllers

  // ---------------------------------------------------------------------------
  // Cities

  /** The cities the comprehensions of `cities` go over: all of them, or those matching q. */
  function LegacyCities(cities: seq<City>, q: string): seq<City> {
    if q != [] then MatchingCities(cities, q) else cities
  }

  /** `cities`: the names of the cities, or of those whose name contains q ignoring case. */
  function LegacyCityNames(cities: seq<City>, q: string): seq<string> {
    var cs := LegacyCities(cities, q);
    seq(|cs|, k requires 0 <= k < |cs| => cs[k].name)
  }

  /**
   * Every city whose name matches (every city, without a query) has its name
   * listed, and the k-th name listed is that of a matching city; without a
   * query the listing has one name per city.
   */
  lemma LegacyCityNamesMeaning(cities: seq<City>, q: string, c: City, k: nat)
    ensures q == [] ==> |LegacyCityNames(cities, q)| == |cities|
    ensures c in cities && (q == [] || ContainsIgnoreCase(c.name, q)) ==> c.name in LegacyCityNames(cities, q)
    ensures k < |LegacyCityNames(cities, q)| ==>
      var city := LegacyCities(cities, q)[k];
      city in cities && city.name == LegacyCityNames(cities, q)[k] && (q == [] || ContainsIgnoreCase(city.name, q))
  {
    var cs := LegacyCities(cities, q);
    if c in cities && (q == [] || ContainsIgnoreCase(c.name, q)) {
      var j :| 0 <= j < |cs| && cs[j] == c;
      assert LegacyCityNames(cities, q)[j] == c.name;
    }
    if k < |cs| {
      assert cs[k] in cs;
    }
  }

  /**
   * The registered `cities` lists exactly the cities this one lists that are
   * the origin of some route; its names are therefore among these.
   */
  lemma ControllerListsServedSubset(t: Tables, q: string, c: City)
    ensures c in ListedCities(t, q) <==> c in LegacyCities(t.cities, q) && FirstRouteFrom(t.routes, c.id).Some?
    ensures forall k :: 0 <= k < |CityListing(t, q)| ==> CityListing(t, q)[k].name in LegacyCityNames(t.cities, q)
  {
    var listed := ListedCities(t, q);
    forall k | 0 <= k < |CityListing(t, q)|
      ensures CityListing(t, q)[k].name in LegacyCityNames(t.cities, q)
    {
      assert listed[k] in listed;
      LegacyCityNamesMeaning(t.cities, q, listed[k], 0);
    }
  }

  // ---------------------------------------------------------------------------
  // Unfiltered listings

  /** The fields `buses_in_city` reports for a bus (timestamps left out). */
  datatype BusRecord = BusRecord(id: int, name: string, capacity: int, cityId: int)
  /** The fields `get_bookings` reports for a booking. */
  datatype BookingRecord = BookingRecord(id: int, customerId: int, busId: int, bookingDate: int, seats: int)

  function BookingRecordOf(b: BusBooking): BookingRecord {
    BookingRecord(b.id, b.customerId, b.busId, b.bookingDate, b.seatsBooked)
  }

  /** `buses_in_city`: every bus, in key order. */
  method AllBuses(db: Db) returns (r: seq<BusRecord>)
    ensures |r| == |db.buses|
    ensures forall k :: 0 <= k < |r| ==>
      r[k] == BusRecord(db.buses[k].id, db.buses[k].name, db.buses[k].capacity, db.buses[k].cityId)
  {
    r := [];
    var i := 0;
    while i < |db.buses|
      invariant 0 <= i <= |db.buses|
      invariant |r| == i
      invariant forall k :: 0 <= k < i ==>
        r[k] == BusRecord(db.buses[k].id, db.buses[k].name, db.buses[k].capacity, db.buses[k].cityId)
    {
      var bus := db.buses[i];
      r := r + [BusRecord(bus.id, bus.name, bus.capacity, bus.cityId)];
      i := i + 1;
    }
  }

  /**
   * `get_bookings`: every booking of every customer, whoever is signed in,
   * in key order.
   */
  method AllBookings(db: Db) returns (r: seq<BookingRecord>)
    ensures |r| == |db.busBookings|
    ensures forall k :: 0 <= k < |r| ==> r[k] == BookingRecordOf(db.busBookings[k])
    ensures forall b :: b in db.busBookings ==> BookingRecordOf(b) in r
  {
    r := [];
    var i := 0;
    while i < |db.busBookings|
      invariant 0 <= i <= |db.busBookings|
      invariant |r| == i
      invariant forall k :: 0 <= k < i ==> r[k] == BookingRecordOf(db.busBookings[k])
    {
      var booking := db.busBookings[i];
      r := r + [BookingRecordOf(booking)];
      i := i + 1;
    }
    forall b | b in db.busBookings
      ensures BookingRecordOf(b) in r
    {
      var k :| 0 <= k < |db.busBookings| && db.busBookings[k] == b;
      assert r[k] == BookingRecordOf(b);
    }
  }

  // ---------------------------------------------------------------------------
  // Booking seats on a bus for a date

  /** `not all([...])`: a field is missing when absent or falsy (0, "" or no date). */
  predicate MissingField(userId: int, sessionToken: string, busId: int, bookingDate: Option<int>, seats: int) {
    userId == 0 || sessionToken == [] || busId == 0 || bookingDate.None? || seats == 0
  }

  /** The tables after customer `user` books `seats` seats on bus busId for day `date`. */
  function BusBooked(t: Tables, user: int, busId: int, date: int, seats: int): Tables {
    t.(busBookings := t.busBookings + [BusBooking(|t.busBookings| + 1, user, busId, date, seats)])
  }

  /**
   * A booking takes its seats from its own bus and day only: that day's
   * total grows by the seats booked, and every other (bus, day) total stays.
   */
  lemma BusBookingConsumesSeats(t: Tables, user: int, busId: int, date: int, seats: int,
                                otherBus: int, otherDate: int)
    ensures BusDateTotal(BusBooked(t, user, busId, date, seats).busBookings, busId, date) ==
      BusDateTotal(t.busBookings, busId, date) + seats
    ensures otherBus != busId || otherDate != date ==>
      BusDateTotal(BusBooked(t, user, busId, date, seats).busBookings, otherBus, otherDate) ==
      BusDateTotal(t.busBookings, otherBus, otherDate)
  {
    var b := BusBooking(|t.busBookings| + 1, user, busId, date, seats);
    BusDateTotalAppend(t.busBookings, b, busId, date);
    BusDateTotalAppend(t.busBookings, b, otherBus, otherDate);
  }

  /**
   * The per-day capacity invariant: when no bus is overbooked on any day, a
   * booking that passes the availability check leaves none overbooked.
   */
  lemma BusBookingKeepsCapacity(t: Tables, user: int, busId: int, date: int, seats: int)
    requires CatalogWF(t.cities, t.buses, t.routes) && IsKey(busId, |t.buses|)
    requires seats <= t.buses[busId - 1].capacity - BusDateTotal(t.busBookings, busId, date)
    requires WithinBusCapacity(t)
    ensures WithinBusCapacity(BusBooked(t, user, busId, date, seats))
  {
    var t' := BusBooked(t, user, busId, date, seats);
    forall id, d | IsKey(id, |t'.buses|)
      ensures BusDateTotal(t'.busBookings, id, d) <= t'.buses[id - 1].capacity
    {
      BusBookingConsumesSeats(t, user, busId, date, seats, id, d);
    }
  }

  /**
   * `book_bus`: missing fields are refused; so is a request without an
   * active session of the named user with that token; an unknown bus is not
   * found; a request for more seats than the bus carries, or than it has left
   * on that day, is refused. Otherwise one booking for the session's user is
   * appended. Nothing else changes.
   */
  method BookBus(db: Db, userId: int, sessionToken: string, busId: int, bookingDate: Option<int>, seats: int)
    returns (r: Outcome)
    requires db.Valid()
    modifies db
    ensures db.Valid()
    ensures MissingField(userId, sessionToken, busId, bookingDate, seats) ==>
      r == Fail(MissingFields) && db.Snapshot() == old(db.Snapshot())
    ensures !MissingField(userId, sessionToken, busId, bookingDate, seats) ==>
      match ActiveSessionOfUser(old(db.sessions), userId, sessionToken)
      case None => r == Fail(InvalidSession) && db.Snapshot() == old(db.Snapshot())
      case Some(_) =>
        && (!IsKey(busId, |old(db.buses)|) ==> r == Fail(BusNotFound) && db.Snapshot() == old(db.Snapshot()))
        && (IsKey(busId, |old(db.buses)|) && seats > old(db.buses[busId - 1].capacity) ==>
              r == Fail(SeatsExceedCapacity) && db.Snapshot() == old(db.Snapshot()))
        && (IsKey(busId, |old(db.buses)|) && seats <= old(db.buses[busId - 1].capacity) &&
            seats > old(db.buses[busId - 1].capacity) - BusDateTotal(old(db.busBookings), busId, bookingDate.value) ==>
              r == Fail(NotEnoughSeats) && db.Snapshot() == old(db.Snapshot()))
        && (IsKey(busId, |old(db.buses)|) && seats <= old(db.buses[busId - 1].capacity) &&
            seats <= old(db.buses[busId - 1].capacity) - BusDateTotal(old(db.busBookings), busId, bookingDate.value) ==>
              r == Pass && db.Snapshot() == BusBooked(old(db.Snapshot()), userId, busId, bookingDate.value, seats))
    ensures old(WithinBusCapacity(db.Snapshot())) ==> WithinBusCapacity(db.Snapshot())
  {
    if MissingField(userId, sessionToken, busId, bookingDate, seats) {
      return Fail(MissingFields);
    }
    var session := ActiveSessionOfUser(db.sessions, userId, sessionToken);
    if session.None? {
      return Fail(InvalidSession);
    }
    if !IsKey(busId, |db.buses|) {
      return Fail(BusNotFound);
    }
    var bus := db.buses[busId - 1];
    if seats > bus.capacity {
      return Fail(SeatsExceedCapacity);
    }
    var date := bookingDate.value;
    var totalBooked := BusDateTotal(db.busBookings, busId, date);
    var available := bus.capacity - totalBooked;
    if seats > available {
      return Fail(NotEnoughSeats);
    }
    ghost var before := db.Snapshot();
    var owner := db.sessions[session.value].userId;
    db.busBookings := db.busBookings + [BusBooking(|db.busBookings| + 1, owner, busId, date, seats)];
    if WithinBusCapacity(before) {
      BusBookingKeepsCapacity(before, owner, busId, date, seats);
    }
    r := Pass;
  }

  // ---------------------------------------------------------------------------
  // The seat sum as written

  /**
   * `book_bus` as app/views.py:189 is written: the query object has no `sum`
   * method, so every request that gets past the capacity check raises, the
   * reply is a server error, and no booking is written. The refusals before
   * that line are those of BookBus.
   */
  function BookBusAsWritten(t: Tables, userId: int, sessionToken: string, busId: int,
                            bookingDate: Option<int>, seats: int): (r: Outcome)
    ensures r != Pass
    ensures r == Fail(ServerError) <==>
      && !MissingField(userId, sessionToken, busId, bookingDate, seats)
      && ActiveSessionOfUser(t.sessions, userId, sessionToken).Some?
      && IsKey(busId, |t.buses|)
      && seats <= t.buses[busId - 1].capacity
  {
    if MissingField(userId, sessionToken, busId, bookingDate, seats) then Fail(MissingFields)
    else if ActiveSessionOfUser(t.sessions, userId, sessionToken).None? then Fail(InvalidSession)
    else if !IsKey(busId, |t.buses|) then Fail(BusNotFound)
    else if seats > t.buses[busId - 1].capacity then Fail(SeatsExceedCapacity)
    else Fail(ServerError)
  }

  /**
   * A request BookBus accepts, on an empty bus with a live session, which the
   * code as written answers with a server error instead of a booking.
   */
  lemma AsWrittenRefusesBookingWithRoom()
    ensures var t := Tables([Customer(1, "Ada", "", "ada@example.com", "h", Verified)],
                            [Session(1, 1, "tok", Active, 100)], [City(1, "Pune")],
                            [Bus(1, 1, "Express", "", 10)], [], [], [], []);
      && !MissingField(1, "tok", 1, Some(5), 2)
      && ActiveSessionOfUser(t.sessions, 1, "tok") == Some(0)
      && IsKey(1, |t.buses|) && 2 <= t.buses[0].capacity
      && 2 <= t.buses[0].capacity - BusDateTotal(t.busBookings, 1, 5)
      && BookBusAsWritten(t, 1, "tok", 1, Some(5), 2) == Fail(ServerError)
  {
    var t := Tables([Customer(1, "Ada", "", "ada@example.com", "h", Verified)],
                    [Session(1, 1, "tok", Active, 100)], [City(1, "Pune")],
                    [Bus(1, 1, "Express", "", 10)], [], [], [], []);
    assert (t.sessions[0].userId == 1 && t.sessions[0].token == "tok" && t.sessions[0].status == Active);
  }
}
