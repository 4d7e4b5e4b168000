/**
 * The database of the booking backend: one datatype per row shape, the
 * well-formedness the database keeps (autoincrement keys, unique customer
 * emails, foreign keys), the queries the handlers run, and the seat sums the
 * booking handlers compare against bus capacity.
 *
 * Row shapes follow app/models.py where it declares the table. Route, Payment
 * and the route-based Booking are not declared there; their shapes follow the
 * way app/controllers.py reads and writes them. The models.py Booking (bus and
 * travel date, used by app/views.py) is kept as a table of its own, BusBooking.
 */
module Tables {
  import opened Common

  datatype VerificationStatus = Unverified | Verified
  datatype SessionStatus = Active | LoggedOut
  datatype BookingStatus = Pending | Confirmed

  datatype Customer = Customer(id: int, firstName: string, lastName: string, email: string,
                               passwordHash: string, emailVerified: VerificationStatus)
  /** `token` is the session_id column; `validTill` an absolute time in seconds. */
  datatype Session = Session(id: int, userId: int, token: string, status: SessionStatus, validTill: int)
  datatype City = City(id: int, name: string)
  datatype Bus = Bus(id: int, cityId: int, name: string, busNo: string, capacity: int)
  datatype Route = Route(id: int, busId: int, originCityId: int, destinationCityId: int,
                         departureTime: int, arrivalTime: int)
  datatype Booking = Booking(id: int, customerId: int, routeId: int, seatsBooked: int,
                             status: BookingStatus, createdAt: int)
  /** The amount is stored as given; nothing computes with it. */
  datatype Payment = Payment(id: int, bookingId: int, amount: string, paymentMethod: string,
                             paymentStatus: string)
  datatype BusBooking = BusBooking(id: int, customerId: int, busId: int, bookingDate: int, seatsBooked: int)

  /** The whole database as a value. */
  datatype Tables = Tables(customers: seq<Customer>, sessions: seq<Session>, cities: seq<City>,
                           buses: seq<Bus>, routes: seq<Route>, bookings: seq<Booking>,
                           payments: seq<Payment>, busBookings: seq<BusBooking>)

  /** `id` is the primary key of a row of a table with n rows: keys are 1..n, in insertion order. */
  predicate IsKey(id: int, n: int) {
    1 <= id <= n
  }

  ghost predicate CustomersWF(cs: seq<Customer>) {
    && (forall i :: 0 <= i < |cs| ==> cs[i].id == i + 1)
    && (forall i, j :: 0 <= i < j < |cs| ==> cs[i].email != cs[j].email)
  }

  ghost predicate SessionsWF(ss: seq<Session>, customers: int) {
    forall i :: 0 <= i < |ss| ==> ss[i].id == i + 1 && IsKey(ss[i].userId, customers)
  }

  ghost predicate CatalogWF(cities: seq<City>, buses: seq<Bus>, routes: seq<Route>) {
    && (forall i :: 0 <= i < |cities| ==> cities[i].id == i + 1)
    && (forall i :: 0 <= i < |buses| ==> buses[i].id == i + 1 && IsKey(buses[i].cityId, |cities|))
    && (forall i :: 0 <= i < |routes| ==>
          && routes[i].id == i + 1
          && IsKey(routes[i].busId, |buses|)
          && IsKey(routes[i].originCityId, |cities|)
          && IsKey(routes[i].destinationCityId, |cities|))
  }

  ghost predicate BookingsWF(bs: seq<Booking>, customers: int, routes: int) {
    forall i :: 0 <= i < |bs| ==>
      bs[i].id == i + 1 && IsKey(bs[i].customerId, customers) && IsKey(bs[i].routeId, routes)
  }

  ghost predicate PaymentsWF(ps: seq<Payment>, bookings: int) {
    forall i :: 0 <= i < |ps| ==> ps[i].id == i + 1 && IsKey(ps[i].bookingId, bookings)
  }

  ghost predicate BusBookingsWF(bbs: seq<BusBooking>, customers: int, buses: int) {
    forall i :: 0 <= i < |bbs| ==>
      bbs[i].id == i + 1 && IsKey(bbs[i].customerId, customers) && IsKey(bbs[i].busId, buses)
  }

  /** What the database's keys, unique constraint and foreign keys guarantee. */
  ghost predicate WellFormed(t: Tables) {
    && CustomersWF(t.customers)
    && SessionsWF(t.sessions, |t.customers|)
    && CatalogWF(t.cities, t.buses, t.routes)
    && BookingsWF(t.bookings, |t.customers|, |t.routes|)
    && PaymentsWF(t.payments, |t.bookings|)
    && BusBookingsWF(t.busBookings, |t.customers|, |t.buses|)
  }

  // ---------------------------------------------------------------------------
  // Queries

  /**
   * Index of the first row satisfying p: what `filter_by(...).first()`
   * returns, taking the rows in primary-key order.
   */
  function FirstIndex<T>(s: seq<T>, p: T -> bool): (r: Option<nat>)
    ensures r.Some? ==> r.value < |s| && p(s[r.value])
    ensures r.Some? ==> forall j :: 0 <= j < r.value ==> !p(s[j])
    ensures r.None? ==> forall j :: 0 <= j < |s| ==> !p(s[j])
  {
    if |s| == 0 then None
    else if p(s[0]) then Some(0)
    else match FirstIndex(s[1..], p)
      case None => None
      case Some(i) => Some(i + 1)
  }

  /** `Customer.query.filter_by(email=email).first()` */
  function CustomerByEmail(cs: seq<Customer>, email: string): Option<nat> {
    FirstIndex(cs, (c: Customer) => c.email == email)
  }

  /** `Session.query.filter_by(session_id=token, status='active').first()` */
  function ActiveSession(ss: seq<Session>, token: string): Option<nat> {
    FirstIndex(ss, (s: Session) => s.token == token && s.status == Active)
  }

  /** `Session.query.filter_by(user_id=userId, session_id=token, status='active').first()` */
  function ActiveSessionOfUser(ss: seq<Session>, userId: int, token: string): Option<nat> {
    FirstIndex(ss, (s: Session) => s.userId == userId && s.token == token && s.status == Active)
  }

  /** `Route.query.filter_by(origin_city_id=cityId).first()` */
  function FirstRouteFrom(routes: seq<Route>, cityId: int): Option<nat> {
    FirstIndex(routes, (r: Route) => r.originCityId == cityId)
  }

  /** With unique emails the first match is the only one. */
  lemma CustomerByEmailUnique(cs: seq<Customer>, email: string, i: nat)
    requires CustomersWF(cs) && i < |cs| && cs[i].email == email
    ensures CustomerByEmail(cs, email) == Some(i)
  {
    var r := CustomerByEmail(cs, email);
    assert r.Some?;
    assert r.value <= i;
    assert cs[r.value].email == cs[i].email;
  }

  // ---------------------------------------------------------------------------
  // ASCII case-insensitive substring match: SQL `ilike '%q%'`

  function LowerChar(c: char): char {
    if 'A' <= c <= 'Z' then (c as int + 32) as char else c
  }

  /**
   * The case-folded form of s: no upper-case ASCII letter remains, and a
   * character changes only when it is one, into its lower-case letter.
   */
  function Lower(s: string): (r: string)
    ensures |r| == |s|
    ensures forall i :: 0 <= i < |r| ==> !('A' <= r[i] <= 'Z')
    ensures forall i :: 0 <= i < |s| && r[i] != s[i] ==> 'A' <= s[i] <= 'Z' && r[i] as int == s[i] as int + 32
  {
    seq(|s|, i requires 0 <= i < |s| => LowerChar(s[i]))
  }

  /** Folding twice is folding once. */
  lemma LowerIdempotent(s: string)
    ensures Lower(Lower(s)) == Lower(s)
  {
  }

  predicate ContainsIgnoreCase(s: string, q: string) {
    Occurs(Lower(q), Lower(s))
  }

  /** The match sees names only through their folded form: names equal up to case match alike. */
  lemma MatchIgnoresCase(s: string, s': string, q: string)
    requires Lower(s) == Lower(s')
    ensures ContainsIgnoreCase(s, q) == ContainsIgnoreCase(s', q)
  {
  }

  /** `City.query.filter(City.city_name.ilike(f"%{q}%")).all()`, in primary-key order. */
  function MatchingCities(cs: seq<City>, q: string): (r: seq<City>)
    ensures forall c :: c in r ==> c in cs && ContainsIgnoreCase(c.name, q)
    ensures forall c :: c in cs && ContainsIgnoreCase(c.name, q) ==> c in r
    ensures |r| <= |cs|
  {
    if cs == [] then []
    else (if ContainsIgnoreCase(cs[0].name, q) then [cs[0]] else []) + MatchingCities(cs[1..], q)
  }

  // ---------------------------------------------------------------------------
  // Seat sums

  /**
   * `func.sum(Booking.seats_booked)` over the bookings of a route, with the
   * empty sum read as 0 (the `or 0` of the source). Every status counts.
   */
  function RouteTotal(bs: seq<Booking>, routeId: int): int {
    if bs == [] then 0
    else (if bs[0].routeId == routeId then bs[0].seatsBooked else 0) + RouteTotal(bs[1..], routeId)
  }

  lemma {:induction false} RouteTotalAppend(bs: seq<Booking>, b: Booking, routeId: int)
    ensures RouteTotal(bs + [b], routeId)
         == RouteTotal(bs, routeId) + (if b.routeId == routeId then b.seatsBooked else 0)
  {
    if bs != [] {
      assert (bs + [b])[1..] == bs[1..] + [b];
      RouteTotalAppend(bs[1..], b, routeId);
    }
  }

  /** A booking's status plays no part in the seat sum. */
  lemma {:induction false} RouteTotalIgnoresStatus(bs: seq<Booking>, k: nat, st: BookingStatus, routeId: int)
    requires k < |bs|
    ensures RouteTotal(bs[k := bs[k].(status := st)], routeId) == RouteTotal(bs, routeId)
  {
    var bs' := bs[k := bs[k].(status := st)];
    if k > 0 {
      assert bs'[1..] == bs[1..][k - 1 := bs[k].(status := st)];
      RouteTotalIgnoresStatus(bs[1..], k - 1, st, routeId);
    } else {
      assert bs'[1..] == bs[1..];
    }
  }

  /** Seats of a bus booked for one travel date (app/views.py's sum). */
  function BusDateTotal(bbs: seq<BusBooking>, busId: int, date: int): int {
    if bbs == [] then 0
    else (if bbs[0].busId == busId && bbs[0].bookingDate == date then bbs[0].seatsBooked else 0)
         + BusDateTotal(bbs[1..], busId, date)
  }

  lemma {:induction false} BusDateTotalAppend(bbs: seq<BusBooking>, b: BusBooking, busId: int, date: int)
    ensures BusDateTotal(bbs + [b], busId, date)
         == BusDateTotal(bbs, busId, date) + (if b.busId == busId && b.bookingDate == date then b.seatsBooked else 0)
  {
    if bbs != [] {
      assert (bbs + [b])[1..] == bbs[1..] + [b];
      BusDateTotalAppend(bbs[1..], b, busId, date);
    }
  }

  /** `route.bus.capacity` */
  function RouteCapacity(t: Tables, routeId: int): int
    requires CatalogWF(t.cities, t.buses, t.routes) && IsKey(routeId, |t.routes|)
  {
    t.buses[t.routes[routeId - 1].busId - 1].capacity
  }

  /** Seats the route still offers: capacity minus every seat booked on it. */
  function Available(t: Tables, routeId: int): int
    requires CatalogWF(t.cities, t.buses, t.routes) && IsKey(routeId, |t.routes|)
  {
    RouteCapacity(t, routeId) - RouteTotal(t.bookings, routeId)
  }

  /** No route has more seats booked than its bus carries. */
  ghost predicate WithinCapacity(t: Tables)
    requires CatalogWF(t.cities, t.buses, t.routes)
  {
    forall id :: IsKey(id, |t.routes|) ==> RouteTotal(t.bookings, id) <= RouteCapacity(t, id)
  }

  /** No bus has more seats booked on one travel date than it carries. */
  ghost predicate WithinBusCapacity(t: Tables)
    requires CatalogWF(t.cities, t.buses, t.routes)
  {
    forall id, date :: IsKey(id, |t.buses|) ==> BusDateTotal(t.busBookings, id, date) <= t.buses[id - 1].capacity
  }

  // ---------------------------------------------------------------------------
  // The database object

  /**
   * The SQL database the handlers share. Each table is a field the handlers
   * reassign; rows are never deleted.
   */
  class Db {
    var customers: seq<Customer>
    var sessions: seq<Session>
    var cities: seq<City>
    var buses: seq<Bus>
    var routes: seq<Route>
    var bookings: seq<Booking>
    var payments: seq<Payment>
    var busBookings: seq<BusBooking>

    function Snapshot(): Tables
      reads this
    {
      Tables(customers, sessions, cities, buses, routes, bookings, payments, busBookings)
    }

    ghost predicate Valid()
      reads this
    {
      WellFormed(Snapshot())
    }

    /** A database holding a catalog and no customers, sessions or bookings yet. */
    constructor (cities: seq<City>, buses: seq<Bus>, routes: seq<Route>)
      requires CatalogWF(cities, buses, routes)
      ensures Valid()
      ensures Snapshot() == Tables([], [], cities, buses, routes, [], [], [])
    {
      this.customers, this.sessions := [], [];
      this.cities, this.buses, this.routes := cities, buses, routes;
      this.bookings, this.payments, this.busBookings := [], [], [];
    }
  }
}
