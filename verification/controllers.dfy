/**
 * The request handlers of app/controllers.py, the ones the application
 * registers: account signup, email verification and login; the catalog
 * listings; the customer's bookings; seat booking; payment.
 *
 * Each handler is a method on the shared database (and on the one-time-code
 * store where the source uses it). Request fields arrive as parameters, with
 * a missing field read as the falsy value of its type ("" or 0). The clock
 * reading, the password hash, the one-time code and the new session token are
 * parameters too: they come from the clock, bcrypt, `random` and `secrets`.
 * Handlers that sit behind the `authenticate` wrapper take the user id the
 * wrapper bound (see module Auth).
 */
module Controllers {
  import opened Common
  import opened Tables
  import opened Mail

  /** `timedelta(days=7)`, in seconds. */
  const SessionLifetime := 7 * 24 * 60 * 60

  datatype SignupReply = Registered(customerId: int) | OtpResent
  /** The `user_id` and `session_id` returned by verify and login. */
  datatype Credentials = Credentials(userId: int, token: string)

  /** The session opened for customer `userId` at time `now` by verify and login. */
  function NewSession(ss: seq<Session>, userId: int, token: string, now: int): Session {
    Session(|ss| + 1, userId, token, Active, now + SessionLifetime)
  }

  // ---------------------------------------------------------------------------
  // Accounts

  /**
   * `signup`: a new email gets an unverified customer and a code; an
   * unverified one gets a fresh code; a verified one is refused.
   */
  method Signup(db: Db, otps: OtpStore, firstName: string, lastName: string, email: string,
                password: string, passwordHash: string, code: int) returns (r: Result<SignupReply>)
    requires db.Valid() && otps.Valid() && IsOtp(code)
    modifies db, otps
    ensures db.Valid() && otps.Valid()
    ensures firstName == [] || email == [] || password == [] ==>
      r == Err(MissingFields) && db.Snapshot() == old(db.Snapshot()) && otps.codes == old(otps.codes)
    ensures firstName != [] && email != [] && password != [] ==>
      match CustomerByEmail(old(db.customers), email)
      case Some(i) =>
        && db.Snapshot() == old(db.Snapshot())
        && (old(db.customers[i].emailVerified) == Unverified ==>
              r == Ok(OtpResent) && otps.codes == old(otps.codes)[email := code])
        && (old(db.customers[i].emailVerified) == Verified ==>
              r == Err(EmailTaken) && otps.codes == old(otps.codes))
      case None =>
        && r == Ok(Registered(|old(db.customers)| + 1))
        && db.Snapshot() == old(db.Snapshot()).(customers := old(db.customers) +
             [Customer(|old(db.customers)| + 1, firstName, lastName, email, passwordHash, Unverified)])
        && otps.codes == old(otps.codes)[email := code]
  {
    if firstName == [] || email == [] || password == [] {
      return Err(MissingFields);
    }
    var existing := CustomerByEmail(db.customers, email);
    if existing.Some? && db.customers[existing.value].emailVerified == Unverified {
      otps.SendOtp(email, code);
      return Ok(OtpResent);
    } else if existing.Some? {
      return Err(EmailTaken);
    }
    var id := |db.customers| + 1;
    db.customers := db.customers + [Customer(id, firstName, lastName, email, passwordHash, Unverified)];
    otps.SendOtp(email, code);
    r := Ok(Registered(id));
  }

  /**
   * `verify`: a customer whose stored code matches becomes verified and gets
   * a session valid for seven days; any other request changes nothing.
   */
  method Verify(db: Db, otps: OtpStore, email: string, otp: int, token: string, now: int)
    returns (r: Result<Credentials>)
    requires db.Valid()
    modifies db
    ensures db.Valid()
    ensures email == [] || otp == 0 ==> r == Err(MissingFields) && db.Snapshot() == old(db.Snapshot())
    ensures email != [] && otp != 0 ==>
      match CustomerByEmail(old(db.customers), email)
      case None => r == Err(CustomerNotFound) && db.Snapshot() == old(db.Snapshot())
      case Some(i) =>
        && (!VerifyOtp(otps.codes, email, otp) ==> r == Err(WrongOtp) && db.Snapshot() == old(db.Snapshot()))
        && (VerifyOtp(otps.codes, email, otp) ==>
              && r == Ok(Credentials(i + 1, token))
              && db.Snapshot() == old(db.Snapshot()).(
                   customers := old(db.customers)[i := old(db.customers[i]).(emailVerified := Verified)],
                   sessions := old(db.sessions) + [NewSession(old(db.sessions), i + 1, token, now)]))
  {
    if email == [] || otp == 0 {
      return Err(MissingFields);
    }
    var found := CustomerByEmail(db.customers, email);
    if found.None? {
      return Err(CustomerNotFound);
    }
    var i := found.value;
    if !VerifyOtp(otps.codes, email, otp) {
      return Err(WrongOtp);
    }
    var customer := db.customers[i];
    db.customers := db.customers[i := customer.(emailVerified := Verified)];
    db.sessions := db.sessions + [NewSession(db.sessions, customer.id, token, now)];
    r := Ok(Credentials(customer.id, token));
  }

  /**
   * `login`: a known email whose password checks out gets one more session
   * valid for seven days. `checkpw` stands for bcrypt's check of a password
   * against a stored hash. Verification status is not consulted.
   */
  method Login(db: Db, email: string, password: string, checkpw: (string, string) -> bool,
               token: string, now: int) returns (r: Result<Credentials>)
    requires db.Valid()
    modifies db
    ensures db.Valid()
    ensures email == [] || password == [] ==> r == Err(MissingFields) && db.Snapshot() == old(db.Snapshot())
    ensures email != [] && password != [] ==>
      match CustomerByEmail(old(db.customers), email)
      case None => r == Err(CustomerNotFound) && db.Snapshot() == old(db.Snapshot())
      case Some(i) =>
        && (!checkpw(password, old(db.customers[i]).passwordHash) ==>
              r == Err(WrongPassword) && db.Snapshot() == old(db.Snapshot()))
        && (checkpw(password, old(db.customers[i]).passwordHash) ==>
              && r == Ok(Credentials(i + 1, token))
              && db.Snapshot() == old(db.Snapshot()).(
                   sessions := old(db.sessions) + [NewSession(old(db.sessions), i + 1, token, now)]))
  {
    if email == [] || password == [] {
      return Err(MissingFields);
    }
    var found := CustomerByEmail(db.customers, email);
    if found.None? {
      return Err(CustomerNotFound);
    }
    var customer := db.customers[found.value];
    if !checkpw(password, customer.passwordHash) {
      return Err(WrongPassword);
    }
    db.sessions := db.sessions + [NewSession(db.sessions, customer.id, token, now)];
    r := Ok(Credentials(customer.id, token));
  }

  // ---------------------------------------------------------------------------
  // Catalog

  /** The JSON key a city's name is listed under: "name" with a query, "city_name" without. */
  datatype CityKey = NameKey | CityNameKey
  datatype CityEntry = CityEntry(key: CityKey, name: string, bus: Option<string>)

  /** `bus.name if bus else None` for the bus with key busId. */
  function BusName(buses: seq<Bus>, busId: int): Option<string> {
    if IsKey(busId, |buses|) then Some(buses[busId - 1].name) else None
  }

  /** The cities of cs that are the origin of some route, in order. */
  function ServedCities(routes: seq<Route>, cs: seq<City>): (r: seq<City>)
    ensures forall c :: c in r <==> c in cs && FirstRouteFrom(routes, c.id).Some?
    ensures |r| <= |cs|
  {
    if cs == [] then []
    else
      var c := cs[|cs| - 1];
      assert cs == cs[..|cs| - 1] + [c];
      ServedCities(routes, cs[..|cs| - 1]) + (if FirstRouteFrom(routes, c.id).Some? then [c] else [])
  }

  /** The cities `cities` lists for query string q (an empty q stands for no query). */
  function ListedCities(t: Tables, q: string): seq<City> {
    ServedCities(t.routes, if q != [] then MatchingCities(t.cities, q) else t.cities)
  }

  /** A city's entry: its name and the name of the bus of its first outgoing route. */
  function CityEntryOf(t: Tables, c: City, key: CityKey): CityEntry
    requires FirstRouteFrom(t.routes, c.id).Some?
  {
    CityEntry(key, c.name, BusName(t.buses, t.routes[FirstRouteFrom(t.routes, c.id).value].busId))
  }

  /** The entries of the cities cs, in order. */
  function EntriesOf(t: Tables, cs: seq<City>, key: CityKey): seq<CityEntry>
    requires forall c :: c in cs ==> FirstRouteFrom(t.routes, c.id).Some?
  {
    seq(|cs|, k requires 0 <= k < |cs| => CityEntryOf(t, cs[k], key))
  }

  /** What `cities` answers for query string q: one entry per listed city, in order. */
  function CityListing(t: Tables, q: string): seq<CityEntry> {
    EntriesOf(t, ListedCities(t, q), if q != [] then NameKey else CityNameKey)
  }

  /** One more city of cs considered: its entry is appended when it is the origin of a route. */
  lemma EntriesStep(t: Tables, cs: seq<City>, i: nat, key: CityKey)
    requires i < |cs|
    ensures var route := FirstRouteFrom(t.routes, cs[i].id);
      EntriesOf(t, ServedCities(t.routes, cs[..i + 1]), key) ==
      EntriesOf(t, ServedCities(t.routes, cs[..i]), key) +
      (if route.Some? then [CityEntry(key, cs[i].name, BusName(t.buses, t.routes[route.value].busId))] else [])
  {
    assert cs[..i + 1][..i] == cs[..i];
    assert cs[..i + 1][i] == cs[i];
  }

  /** `cities` */
  method Cities(db: Db, q: string) returns (r: seq<CityEntry>)
    ensures r == CityListing(db.Snapshot(), q)
  {
    ghost var t := db.Snapshot();
    assert t.cities == db.cities && t.routes == db.routes && t.buses == db.buses;
    var cs, key := db.cities, CityNameKey;
    if q != [] {
      cs, key := MatchingCities(db.cities, q), NameKey;
    }
    r := [];
    var i := 0;
    while i < |cs|
      invariant 0 <= i <= |cs|
      invariant r == EntriesOf(t, ServedCities(t.routes, cs[..i]), key)
    {
      EntriesStep(t, cs, i, key);
      var route := FirstRouteFrom(db.routes, cs[i].id);
      if route.Some? {
        r := r + [CityEntry(key, cs[i].name, BusName(db.buses, db.routes[route.value].busId))];
      }
      i := i + 1;
    }
    assert cs[..|cs|] == cs;
    assert cs == (if q != [] then MatchingCities(t.cities, q) else t.cities);
  }

  /**
   * A city is listed exactly when it is the origin of some route and, under
   * a query, its name contains the query ignoring case. (The comprehension
   * version in app/views.py drops the route condition.)
   */
  lemma ListedCitiesMeaning(t: Tables, q: string, c: City)
    ensures c in ListedCities(t, q) <==>
      c in t.cities && FirstRouteFrom(t.routes, c.id).Some? && (q == [] || ContainsIgnoreCase(c.name, q))
  {
  }

  datatype RouteInfo = RouteInfo(routeId: int, originCity: string, destinationCity: string,
                                 departureTime: int, arrivalTime: int)
  datatype BusInfo = BusInfo(id: int, name: string, capacity: int, busNo: string, routes: seq<RouteInfo>)

  function RouteInfoOf(t: Tables, route: Route): RouteInfo
    requires IsKey(route.originCityId, |t.cities|) && IsKey(route.destinationCityId, |t.cities|)
  {
    RouteInfo(route.id, t.cities[route.originCityId - 1].name, t.cities[route.destinationCityId - 1].name,
              route.departureTime, route.arrivalTime)
  }

  /**
   * The routes among the first n served by bus busId, in key order: each
   * listed route runs on that bus, and each route of the bus is listed.
   */
  function RoutesOfBus(t: Tables, busId: int, n: nat): seq<RouteInfo>
    requires CatalogWF(t.cities, t.buses, t.routes) && n <= |t.routes|
  {
    if n == 0 then []
    else
      RoutesOfBus(t, busId, n - 1) +
      (if t.routes[n - 1].busId == busId then [RouteInfoOf(t, t.routes[n - 1])] else [])
  }

  /** Each entry of a bus's route list describes, from its own row, a route of that bus among the first n. */
  lemma {:induction false} RoutesOfBusSound(t: Tables, busId: int, n: nat)
    requires CatalogWF(t.cities, t.buses, t.routes) && n <= |t.routes|
    ensures forall k :: 0 <= k < |RoutesOfBus(t, busId, n)| ==>
      var info := RoutesOfBus(t, busId, n)[k];
      && IsKey(info.routeId, n)
      && t.routes[info.routeId - 1].busId == busId
      && info == RouteInfoOf(t, t.routes[info.routeId - 1])
  {
    if n > 0 {
      RoutesOfBusSound(t, busId, n - 1);
      var rest := RoutesOfBus(t, busId, n - 1);
      var r := RoutesOfBus(t, busId, n);
      forall k | 0 <= k < |r|
        ensures IsKey(r[k].routeId, n) && t.routes[r[k].routeId - 1].busId == busId
        ensures r[k] == RouteInfoOf(t, t.routes[r[k].routeId - 1])
      {
        if k < |rest| {
          assert r[k] == rest[k];
        } else {
          assert r[k] == RouteInfoOf(t, t.routes[n - 1]);
          assert t.routes[n - 1].id == n;
        }
      }
    }
  }

  /** A bus's routes are listed in increasing key order. */
  lemma {:induction false} RoutesOfBusOrdered(t: Tables, busId: int, n: nat)
    requires CatalogWF(t.cities, t.buses, t.routes) && n <= |t.routes|
    ensures forall k, l :: 0 <= k < l < |RoutesOfBus(t, busId, n)| ==>
      RoutesOfBus(t, busId, n)[k].routeId < RoutesOfBus(t, busId, n)[l].routeId
  {
    if n > 0 {
      RoutesOfBusOrdered(t, busId, n - 1);
      RoutesOfBusSound(t, busId, n - 1);
      var rest := RoutesOfBus(t, busId, n - 1);
      var r := RoutesOfBus(t, busId, n);
      forall k, l | 0 <= k < l < |r|
        ensures r[k].routeId < r[l].routeId
      {
        assert r[k] == rest[k];
        if l >= |rest| {
          assert t.routes[n - 1].id == n;
          assert r[l] == RouteInfoOf(t, t.routes[n - 1]);
        } else {
          assert r[l] == rest[l];
        }
      }
    }
  }

  /** Every route of the bus among the first n is listed. */
  lemma {:induction false} RoutesOfBusComplete(t: Tables, busId: int, n: nat)
    requires CatalogWF(t.cities, t.buses, t.routes) && n <= |t.routes|
    ensures forall j :: 0 <= j < n && t.routes[j].busId == busId ==> RouteInfoOf(t, t.routes[j]) in RoutesOfBus(t, busId, n)
  {
    if n > 0 {
      RoutesOfBusComplete(t, busId, n - 1);
      var rest := RoutesOfBus(t, busId, n - 1);
      var r := RoutesOfBus(t, busId, n);
      assert forall x :: x in rest ==> x in r;
    }
  }

  function BusInfoOf(t: Tables, b: Bus): BusInfo
    requires CatalogWF(t.cities, t.buses, t.routes)
  {
    BusInfo(b.id, b.name, b.capacity, b.busNo, RoutesOfBus(t, b.id, |t.routes|))
  }

  /**
   * `buses_in_city`: one bus when `bus_id` is given (not found when no bus
   * has it), every bus otherwise; each with the routes it serves.
   */
  method BusesInCity(db: Db, busId: Option<int>) returns (r: Result<seq<BusInfo>>)
    requires db.Valid()
    ensures busId.Some? && !IsKey(busId.value, |db.buses|) ==> r == Err(BusNotFound)
    ensures busId.Some? && IsKey(busId.value, |db.buses|) ==>
      r.Ok? && r.value == [BusInfoOf(db.Snapshot(), db.buses[busId.value - 1])]
    ensures busId.None? ==>
      && r.Ok? && |r.value| == |db.buses|
      && forall k :: 0 <= k < |db.buses| ==> r.value[k] == BusInfoOf(db.Snapshot(), db.buses[k])
  {
    var buses := db.buses;
    if busId.Some? {
      if !IsKey(busId.value, |db.buses|) {
        return Err(BusNotFound);
      }
      buses := [db.buses[busId.value - 1]];
    }
    var list := [];
    var i := 0;
    while i < |buses|
      invariant 0 <= i <= |buses|
      invariant |list| == i
      invariant forall k :: 0 <= k < i ==> list[k] == BusInfoOf(db.Snapshot(), buses[k])
    {
      var bus := buses[i];
      var routeList := [];
      var j := 0;
      while j < |db.routes|
        invariant 0 <= j <= |db.routes|
        invariant routeList == RoutesOfBus(db.Snapshot(), bus.id, j)
      {
        var route := db.routes[j];
        if route.busId == bus.id {
          routeList := routeList + [RouteInfoOf(db.Snapshot(), route)];
        }
        j := j + 1;
      }
      list := list + [BusInfo(bus.id, bus.name, bus.capacity, bus.busNo, routeList)];
      i := i + 1;
    }
    r := Ok(list);
  }

  // ---------------------------------------------------------------------------
  // The customer's bookings

  datatype BookingSummary = BookingSummary(id: int, busName: string, busNo: string, routeId: int,
                                           originCity: string, destinationCity: string,
                                           seats: int, bookedAt: int, status: BookingStatus)

  /** The row of the five-table join for booking b. */
  function SummaryOf(t: Tables, b: Booking): BookingSummary
    requires CatalogWF(t.cities, t.buses, t.routes) && IsKey(b.routeId, |t.routes|)
  {
    var route := t.routes[b.routeId - 1];
    var bus := t.buses[route.busId - 1];
    BookingSummary(b.id, bus.name, bus.busNo, route.id, t.cities[route.originCityId - 1].name,
                   t.cities[route.destinationCityId - 1].name, b.seatsBooked, b.createdAt, b.status)
  }

  /**
   * The bookings among the first n owned by customer `user`, in key order:
   * each listed booking is the user's, and each of the user's is listed.
   */
  function BookingsOfUser(t: Tables, user: int, n: nat): seq<BookingSummary>
    requires WellFormed(t) && n <= |t.bookings|
  {
    if n == 0 then []
    else
      BookingsOfUser(t, user, n - 1) +
      (if t.bookings[n - 1].customerId == user then [SummaryOf(t, t.bookings[n - 1])] else [])
  }

  /** Each entry of the listing is, joined from its own row, a booking of the user among the first n. */
  lemma {:induction false} BookingsOfUserSound(t: Tables, user: int, n: nat)
    requires WellFormed(t) && n <= |t.bookings|
    ensures forall k :: 0 <= k < |BookingsOfUser(t, user, n)| ==>
      var summary := BookingsOfUser(t, user, n)[k];
      && IsKey(summary.id, n)
      && t.bookings[summary.id - 1].customerId == user
      && summary == SummaryOf(t, t.bookings[summary.id - 1])
  {
    if n > 0 {
      BookingsOfUserSound(t, user, n - 1);
      var rest := BookingsOfUser(t, user, n - 1);
      var r := BookingsOfUser(t, user, n);
      forall k | 0 <= k < |r|
        ensures IsKey(r[k].id, n) && t.bookings[r[k].id - 1].customerId == user
        ensures r[k] == SummaryOf(t, t.bookings[r[k].id - 1])
      {
        if k < |rest| {
          assert r[k] == rest[k];
        } else {
          assert r[k] == SummaryOf(t, t.bookings[n - 1]);
          assert t.bookings[n - 1].id == n;
        }
      }
    }
  }

  /** The user's bookings are listed in increasing key order. */
  lemma {:induction false} BookingsOfUserOrdered(t: Tables, user: int, n: nat)
    requires WellFormed(t) && n <= |t.bookings|
    ensures forall k, l :: 0 <= k < l < |BookingsOfUser(t, user, n)| ==>
      BookingsOfUser(t, user, n)[k].id < BookingsOfUser(t, user, n)[l].id
  {
    if n > 0 {
      BookingsOfUserOrdered(t, user, n - 1);
      BookingsOfUserSound(t, user, n - 1);
      var rest := BookingsOfUser(t, user, n - 1);
      var r := BookingsOfUser(t, user, n);
      forall k, l | 0 <= k < l < |r|
        ensures r[k].id < r[l].id
      {
        assert r[k] == rest[k];
        if l >= |rest| {
          assert t.bookings[n - 1].id == n;
          assert r[l] == SummaryOf(t, t.bookings[n - 1]);
        } else {
          assert r[l] == rest[l];
        }
      }
    }
  }

  /** Every booking of the user among the first n is listed. */
  lemma {:induction false} BookingsOfUserComplete(t: Tables, user: int, n: nat)
    requires WellFormed(t) && n <= |t.bookings|
    ensures forall j :: 0 <= j < n && t.bookings[j].customerId == user ==>
      SummaryOf(t, t.bookings[j]) in BookingsOfUser(t, user, n)
  {
    if n > 0 {
      BookingsOfUserComplete(t, user, n - 1);
      var rest := BookingsOfUser(t, user, n - 1);
      var r := BookingsOfUser(t, user, n);
      assert forall x :: x in rest ==> x in r;
    }
  }

  /** `get_bookings` for the authenticated customer `user`. */
  method GetBookings(db: Db, user: int) returns (r: seq<BookingSummary>)
    requires db.Valid()
    ensures r == BookingsOfUser(db.Snapshot(), user, |db.bookings|)
  {
    r := [];
    var i := 0;
    while i < |db.bookings|
      invariant 0 <= i <= |db.bookings|
      invariant r == BookingsOfUser(db.Snapshot(), user, i)
    {
      var booking := db.bookings[i];
      if booking.customerId == user {
        r := r + [SummaryOf(db.Snapshot(), booking)];
      }
      i := i + 1;
    }
  }

  // ---------------------------------------------------------------------------
  // Booking seats

  /** The tables after customer `user` books `seats` seats on route `routeId` at time `now`. */
  function Booked(t: Tables, user: int, routeId: int, seats: int, now: int): Tables {
    t.(bookings := t.bookings + [Booking(|t.bookings| + 1, user, routeId, seats, Pending, now)])
  }

  /**
   * A booking takes its seats from its own route and from no other: the
   * route's remaining seats drop by exactly the seats booked.
   */
  lemma BookingConsumesSeats(t: Tables, user: int, routeId: int, seats: int, now: int, other: int)
    requires CatalogWF(t.cities, t.buses, t.routes) && IsKey(routeId, |t.routes|) && IsKey(other, |t.routes|)
    ensures Available(Booked(t, user, routeId, seats, now), routeId) == Available(t, routeId) - seats
    ensures other != routeId ==> Available(Booked(t, user, routeId, seats, now), other) == Available(t, other)
  {
    var b := Booking(|t.bookings| + 1, user, routeId, seats, Pending, now);
    RouteTotalAppend(t.bookings, b, routeId);
    RouteTotalAppend(t.bookings, b, other);
  }

  /**
   * The capacity invariant: when no route is over capacity, a booking that
   * passes the check leaves no route over capacity. It holds for any seat
   * count, since only the upper bound is checked.
   */
  lemma BookingKeepsCapacity(t: Tables, user: int, routeId: int, seats: int, now: int)
    requires CatalogWF(t.cities, t.buses, t.routes) && IsKey(routeId, |t.routes|)
    requires seats <= Available(t, routeId)
    requires WithinCapacity(t)
    ensures WithinCapacity(Booked(t, user, routeId, seats, now))
  {
    var t' := Booked(t, user, routeId, seats, now);
    forall id | IsKey(id, |t'.routes|)
      ensures RouteTotal(t'.bookings, id) <= RouteCapacity(t', id)
    {
      BookingConsumesSeats(t, user, routeId, seats, now, id);
    }
  }

  /**
   * The seat count is not checked from below: booking a negative count
   * succeeds whenever capacity allows and hands that many seats back to the
   * route, so a later booking may take more seats than the bus carries.
   */
  lemma NegativeBookingFreesSeats(t: Tables, user: int, routeId: int, seats: int, now: int)
    requires CatalogWF(t.cities, t.buses, t.routes) && IsKey(routeId, |t.routes|)
    requires seats < 0 && Available(t, routeId) >= 0
    ensures seats <= Available(t, routeId)
    ensures Available(Booked(t, user, routeId, seats, now), routeId) > Available(t, routeId)
  {
    BookingConsumesSeats(t, user, routeId, seats, now, routeId);
  }

  /**
   * `book_bus` for the authenticated customer `user`: an unknown route is
   * not found; a request for more than the route's remaining seats is
   * refused; otherwise one pending booking is appended. Nothing else changes.
   */
  method BookBus(db: Db, user: int, routeId: int, seats: int, now: int) returns (r: Result<int>)
    requires db.Valid() && IsKey(user, |db.customers|)
    modifies db
    ensures db.Valid()
    ensures !IsKey(routeId, |old(db.routes)|) ==> r == Err(RouteNotFound) && db.Snapshot() == old(db.Snapshot())
    ensures IsKey(routeId, |old(db.routes)|) && seats > Available(old(db.Snapshot()), routeId) ==>
      r == Err(NotEnoughSeats) && db.Snapshot() == old(db.Snapshot())
    ensures IsKey(routeId, |old(db.routes)|) && seats <= Available(old(db.Snapshot()), routeId) ==>
      r == Ok(|old(db.bookings)| + 1) && db.Snapshot() == Booked(old(db.Snapshot()), user, routeId, seats, now)
    ensures old(WithinCapacity(db.Snapshot())) ==> WithinCapacity(db.Snapshot())
  {
    if !IsKey(routeId, |db.routes|) {
      return Err(RouteNotFound);
    }
    var route := db.routes[routeId - 1];
    var totalBooked := RouteTotal(db.bookings, routeId);
    var available := db.buses[route.busId - 1].capacity - totalBooked;
    if seats > available {
      return Err(NotEnoughSeats);
    }
    ghost var before := db.Snapshot();
    var id := |db.bookings| + 1;
    db.bookings := db.bookings + [Booking(id, user, routeId, seats, Pending, now)];
    if WithinCapacity(before) {
      BookingKeepsCapacity(before, user, routeId, seats, now);
    }
    r := Ok(id);
  }

  // ---------------------------------------------------------------------------
  // Payment

  /** The bookings after a payment with status `paymentStatus` against booking index k. */
  function AfterPayment(bs: seq<Booking>, k: nat, paymentStatus: string): seq<Booking>
    requires k < |bs|
  {
    if paymentStatus == "success" then bs[k := bs[k].(status := Confirmed)] else bs
  }

  /**
   * A payment confirms its booking exactly when its status is "success",
   * leaves a confirmed booking confirmed, and touches no other booking.
   */
  lemma PaymentConfirmsOnSuccess(bs: seq<Booking>, k: nat, paymentStatus: string)
    requires k < |bs|
    ensures |AfterPayment(bs, k, paymentStatus)| == |bs|
    ensures AfterPayment(bs, k, paymentStatus)[k].status == Confirmed <==>
      paymentStatus == "success" || bs[k].status == Confirmed
    ensures AfterPayment(bs, k, paymentStatus)[k] == bs[k].(status := AfterPayment(bs, k, paymentStatus)[k].status)
    ensures forall j :: 0 <= j < |bs| && j != k ==> AfterPayment(bs, k, paymentStatus)[j] == bs[j]
  {
  }

  /** Paying successfully twice confirms no more than paying once. */
  lemma SuccessfulPaymentIdempotent(bs: seq<Booking>, k: nat)
    requires k < |bs|
    ensures AfterPayment(AfterPayment(bs, k, "success"), k, "success") == AfterPayment(bs, k, "success")
  {
  }

  /** Payments do not move seats: every route's total is unchanged. */
  lemma PaymentKeepsSeatTotals(bs: seq<Booking>, k: nat, paymentStatus: string, routeId: int)
    requires k < |bs|
    ensures RouteTotal(AfterPayment(bs, k, paymentStatus), routeId) == RouteTotal(bs, routeId)
  {
    if paymentStatus == "success" {
      RouteTotalIgnoresStatus(bs, k, Confirmed, routeId);
    }
  }

  /**
   * `payment`: an unknown booking is not found; otherwise one payment row is
   * appended and the booking is confirmed when the status is "success".
   * No check ties the paying customer to the booking.
   */
  method ProcessPayment(db: Db, bookingId: int, amount: string, paymentMethod: string, paymentStatus: string)
    returns (r: Outcome)
    requires db.Valid()
    modifies db
    ensures db.Valid()
    ensures !IsKey(bookingId, |old(db.bookings)|) ==> r == Fail(BookingNotFound) && db.Snapshot() == old(db.Snapshot())
    ensures IsKey(bookingId, |old(db.bookings)|) ==>
      && r == Pass
      && db.Snapshot() == old(db.Snapshot()).(
           payments := old(db.payments) +
             [Payment(|old(db.payments)| + 1, bookingId, amount, paymentMethod, paymentStatus)],
           bookings := AfterPayment(old(db.bookings), bookingId - 1, paymentStatus))
    ensures old(WithinCapacity(db.Snapshot())) ==> WithinCapacity(db.Snapshot())
  {
    if !IsKey(bookingId, |db.bookings|) {
      return Fail(BookingNotFound);
    }
    ghost var before := db.Snapshot();
    db.payments := db.payments + [Payment(|db.payments| + 1, bookingId, amount, paymentMethod, paymentStatus)];
    if paymentStatus == "success" {
      var booking := db.bookings[bookingId - 1];
      db.bookings := db.bookings[bookingId - 1 := booking.(status := Confirmed)];
    }
    forall id | IsKey(id, |db.routes|)
      ensures RouteTotal(db.bookings, id) == RouteTotal(before.bookings, id)
    {
      PaymentKeepsSeatTotals(before.bookings, bookingId - 1, paymentStatus, id);
    }
    r := Pass;
  }
}
