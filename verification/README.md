# Bus-booking backend: a verified model

This project models the decision logic of a small Flask bus-booking backend.
Customers sign up with an email address and confirm it with a six-digit
one-time code. They log in to get session tokens. They browse cities, buses
and routes, book seats on a route, and pay for a booking.

The model is sequential and in memory:

- Every database table is a sequence field of the class `Tables.Db`. A row's
  primary key is its position plus one, because keys autoincrement and rows
  are never deleted.
- The one-time-code dictionary is the class `Mail.OtpStore`.
- Each request handler is a method on these objects. Its postcondition gives
  the reply and the complete new state, usually as "the old tables with one
  table replaced".
- Lemmas state what the handlers promise across calls:
  - the seat-capacity invariant;
  - that a logged-out session stays refused;
  - what a stored code verifies;
  - how the two city listings differ.

Modules, one per source file:

- `Common`: option and result types, and the error kinds the handlers reply with.
- `Tables`:
  - row shapes and the well-formedness the database keeps (keys, unique emails, foreign keys);
  - the `first()` query;
  - the case-insensitive `ilike` match;
  - the seat sums.
- `Mail`: the code store of `app/mail.py`.
- `Auth`: the `authenticate` wrapper of `app/utils.py`.
- `Controllers`: the handlers of `app/controllers.py`.
- `Views`: the older blueprint in `app/views.py`. Its `signup`, `verify` and
  `login` do what the controllers' versions do. Only the hash function differs,
  and the hash is a parameter here. So `Controllers.Signup`, `Controllers.Verify`
  and `Controllers.Login` model both copies (`app/views.py:14-112`).

Parameters stand in for everything outside the program:

- the clock (`now`, an integer number of seconds);
- the password hash and bcrypt's check (`checkpw`);
- the random one-time code, which must lie in 100000..999999;
- the random session token;
- the request fields, where a missing field arrives as its falsy value (`""` or `0`).

Route, Payment and the route-based Booking are not declared in
`app/models.py`. Their shapes follow how `app/controllers.py` reads and writes
them. The `Booking` class that `app/models.py` does declare, keyed by bus and
travel date, is the separate table `busBookings`. Only `app/views.py` uses it.

## Model

| member | source | states |
|---|---|---|
| Tables.FirstIndex | app/controllers.py:25 | `filter_by(...).first()`: the index found is the first row satisfying the filter, and None means no row does |
| Tables.CustomerByEmailUnique | app/models.py:11 | with the unique email column, the email lookup finds exactly the customer holding that email |
| Tables.Lower | app/controllers.py:117 | case folding keeps the length, leaves no upper-case ASCII letter, and changes a character only when it is an upper-case letter, into its lower-case form |
| Tables.LowerIdempotent | app/controllers.py:117 | folding an already folded string changes nothing |
| Tables.MatchIgnoresCase | app/controllers.py:117 | `ilike` (`ContainsIgnoreCase`) gives the same answer for two names that are equal up to ASCII case |
| Tables.MatchingCities | app/controllers.py:117 | `ilike '%q%'` selects exactly the cities whose name contains q ignoring case, each taken from the table |
| Tables.RouteTotalAppend | app/controllers.py:221 | one more booking changes a route's seat sum by its seats exactly when it is on that route |
| Tables.RouteTotalIgnoresStatus | app/controllers.py:221 | the seat sum counts bookings of every status, so changing a status never changes it |
| Tables.BusDateTotalAppend | app/views.py:189-191 | one more booking changes a (bus, date) seat sum by its seats exactly when bus and date both match |
| Tables.Db.constructor | app/models.py:29-46 | a database holding a well-formed catalog and no customers, sessions, bookings or payments |
| Mail.OtpStore.constructor | app/mail.py:7 | the store starts empty |
| Mail.OtpStore.SendOtp | app/mail.py:12-22 | sending overwrites the email's code with the new one, leaves other entries alone, and keeps every stored code six digits long |
| Mail.SentCodeVerifies | app/mail.py:22-26 | `verify_otp` (`VerifyOtp`): after a code is stored for an email, that code verifies for it and any other code does not |
| Mail.SendOnlyTouchesItsEmail | app/mail.py:22 | storing a code for one email does not change what verifies for any other email |
| Mail.NothingSentNothingVerifies | app/mail.py:24-26 | `verify_otp` (`VerifyOtp`): no code verifies for an email that was never sent one |
| Mail.OnlySixDigitCodesVerify | app/mail.py:13 | only codes in 100000..999999 can ever verify |
| Auth.RemoveAllWithoutOccurrence | app/utils.py:13 | `replace('Bearer ', '')` (`RemoveAll`) leaves a string with no occurrence unchanged |
| Auth.RemoveAllShortens | app/utils.py:13 | the replacement never lengthens a string, and strictly shortens one that contains "Bearer " |
| Auth.TokenIsRestOfHeaderIffClean | app/utils.py:10-13 | the header check and strip (`TokenOf`): the token taken from "Bearer "+t is t exactly when t itself contains no "Bearer " |
| Auth.EveryOccurrenceRemoved | app/utils.py:10-13 | an illustration of `TokenOf` on two fixed headers, not a general property: "Bearer abBearer c" yields token "abc", because every occurrence is removed; a lower-case "bearer " prefix is refused |
| Auth.Authenticate | app/utils.py:6-31 | the wrapper's verdict and new session table are those of one `AuthStep` (the wrapper's steps as a function, whose properties the lemmas below prove), and no other table changes |
| Auth.BadHeaderChangesNothing | app/utils.py:10-11 | a missing, empty or non-"Bearer " header is refused with the session table unchanged |
| Auth.SuccessBindsLiveSession | app/utils.py:14-26 | success binds a session that carries the header's token, is active and has not expired, binds that session's user, and changes no session |
| Auth.SuccessIffValid | app/utils.py:14-26 | the wrapper succeeds exactly when the first active session with the token has `valid_till >= now` (the comparison is strict) |
| Auth.ExpiryFlipsExactlyOne | app/utils.py:19-22 | a refusal for expiry sets exactly one active, expired session with that token to logged out; every other outcome leaves the table as it was |
| Auth.LoggedOutStaysLoggedOut | app/utils.py:14-22 | no run of the wrapper turns a logged-out session back to active |
| Auth.ExpiredTokenStaysRefused | app/utils.py:14-22 | once expired, a session is never bound again at any later time, and when its token is unique every later request with it is refused as unknown |
| Auth.WrapperRunTwice | app/routes.py:12-13 | when the wrapper is applied twice, the second run repeats the first run's binding if the session is still valid, and expires the session otherwise |
| Controllers.Signup | app/controllers.py:13-47 | missing fields change nothing. A known unverified email gets a fresh code and no new row. A known verified email is refused with nothing changed. A new email adds exactly one unverified customer and stores its code |
| Controllers.Verify | app/controllers.py:50-79 | only a known email with the stored code becomes verified and gains one session valid for seven days. Every other request changes nothing. The code store is not written, so the code stays valid after use |
| Controllers.Login | app/controllers.py:82-110 | a known email whose password checks out gains one more seven-day session, whatever its verification status. Every other request changes nothing |
| Controllers.ServedCities | app/controllers.py:119-121 | a city is kept exactly when it is in the input and some route leaves from it |
| Controllers.Cities | app/controllers.py:113-133 | the loop builds the listing: for each listed city in order, its name (under "name" or "city_name") and the bus of its first outgoing route |
| Controllers.ListedCitiesMeaning | app/controllers.py:116-131 | a city is listed exactly when it is in the table, some route leaves from it, and (given a query) its name contains the query ignoring case |
| Controllers.RoutesOfBusSound | app/controllers.py:149-164 | each entry of a bus's route list is a route of that bus, described from its own row with its origin and destination names |
| Controllers.RoutesOfBusOrdered | app/controllers.py:149-152 | a bus's routes are listed in increasing key order |
| Controllers.RoutesOfBusComplete | app/controllers.py:149-152 | every route of the bus is listed |
| Controllers.BusesInCity | app/controllers.py:136-176 | an unknown `bus_id` is not found. A known one gives that one bus. No `bus_id` gives every bus in order. Each bus carries its routes |
| Controllers.BookingsOfUserSound | app/controllers.py:184-204 | each listed booking is the given user's, joined from its own row with its route, bus and cities |
| Controllers.BookingsOfUserOrdered | app/controllers.py:184-192 | the user's bookings are listed in increasing key order |
| Controllers.BookingsOfUserComplete | app/controllers.py:184-192 | every booking of the given user is listed |
| Controllers.GetBookings | app/controllers.py:180-206 | the loop returns exactly the user's booking listing, so no other customer's booking appears |
| Controllers.BookingConsumesSeats | app/controllers.py:221-236 | a booking lowers its route's remaining seats by exactly the seats booked and leaves every other route's remaining seats alone |
| Controllers.BookingKeepsCapacity | app/controllers.py:221-236 | if no route is over capacity and the request passes the check, no route is over capacity after the insert, for any integer seat count |
| Controllers.NegativeBookingFreesSeats | app/controllers.py:224 | a negative seat count passes the check and raises the route's remaining seats |
| Controllers.BookBus | app/controllers.py:210-238 | an unknown route is not found and nothing changes. Asking for more than capacity minus the route's sum is refused and nothing changes. Otherwise exactly one pending booking is appended for the caller. The capacity invariant is preserved |
| Controllers.PaymentConfirmsOnSuccess | app/controllers.py:263-264 | the status update (`AfterPayment`): the booking ends confirmed exactly when the status is "success" or it already was confirmed; only its status may change; other bookings are untouched |
| Controllers.SuccessfulPaymentIdempotent | app/controllers.py:263-264 | a second successful payment leaves the bookings as the first one did |
| Controllers.PaymentKeepsSeatTotals | app/controllers.py:263-264 | a payment never changes any route's seat sum |
| Controllers.ProcessPayment | app/controllers.py:242-269 | an unknown booking is not found and nothing changes. Otherwise exactly one payment row is appended and the booking is confirmed when the status is "success". The capacity invariant is preserved |
| Views.LegacyCityNamesMeaning | app/views.py:117-126 | `cities` (`LegacyCityNames`): every matching city's name is listed, each listed name belongs to a matching city, and without a query there is one name per city |
| Views.ControllerListsServedSubset | app/views.py:119-124 | the registered listing holds exactly the cities this one lists that some route leaves from, so its names are among these |
| Views.AllBuses | app/views.py:130-143 | every bus, in key order, with id, name, capacity and city |
| Views.AllBookings | app/views.py:149-161 | every booking of every customer, whoever is signed in, in key order |
| Views.BusBookingConsumesSeats | app/views.py:188-205 | a booking raises the seat sum of its own bus and date by its seats and leaves every other (bus, date) sum alone |
| Views.BusBookingKeepsCapacity | app/views.py:185-205 | if no bus is overbooked on any date and the request passes the availability check, none is overbooked after the insert |
| Views.BookBus | app/views.py:166-210 | the evidently intended handler: a falsy field is refused; so is a request without an active session of that user with that token. An unknown bus is not found. More seats than the bus carries, or than it has left that date, is refused. Otherwise exactly one booking for that user, bus and date is appended. The per-date invariant is preserved |
| Views.BookBusAsWritten | app/views.py:174-195 | as written: every request that passes the checks through line 186 ends in a server error, so the handler never answers with success |
| Views.AsWrittenRefusesBookingWithRoom | app/views.py:185-195 | a request with a live session, on an empty bus with room, is accepted by `Views.BookBus` but ends in a server error as written |

## Left out

- HTTP and Flask plumbing is left out: JSON parsing, status codes, blueprints and Swagger. Replies are the `Error` kinds of `Common`, and each kind's comment gives its status code.
- Password hashing and checking are left out. `bcrypt` and werkzeug are foreign code. The stored hash is a parameter, and the check is the function parameter `checkpw`.
- Mail delivery, `random.randint` and `secrets.token_hex` are left out. The code and the token arrive as parameters. A failed mail send is not modelled.
- Commit failures and rollbacks are left out. Every commit succeeds, so the error replies that follow a failed commit are not modelled.
- Concurrency is left out. The check-then-insert of both `book_bus` handlers can overbook under interleaved requests, and a sequential model cannot show that.
- Datetime parsing and formatting are left out. Times and travel dates are integers. In `app/views.py`, `book_bus` raises on a malformed date string; that is not modelled.
- Values of the wrong type are left out. In `app/controllers.py`, `book_bus` fails inside Python when `seats_booked` is missing (`None > int`). `buses_in_city` fails when `bus_id` is not numeric. Both reply with a server error.
- The model follows the code where the specification differs. The code sums seats over bookings of every status, not only pending and confirmed ones. `book_bus` in `app/controllers.py` checks seat counts from above only, so zero or negative seats are accepted there. In `app/views.py`, `book_bus` refuses zero as a falsy field but accepts negative counts.
- Some tables and columns are not declared in `app/models.py`: Route, Payment, the route-based booking and `Bus.bus_no`. Their fields are taken from how the handlers use them.
- The `sum('seats_booked')` of `app/views.py:189` is not a query method (see Findings). `Views.BookBus` models the sum it evidently means; `Views.BookBusAsWritten` models the code as written.
- The `created_at` and `updated_at` fields that the older `buses_in_city` reports for each bus (`app/views.py:139-140`) are left out of `Views.AllBuses`, because times are not modelled.
- An OTP sent as a JSON string never equals the stored integer in `verify_otp`. The model takes the code as an integer.
- Case folding in the `ilike` match is ASCII only. A `%` or `_` in the query is matched literally, not as a wildcard.
- The `print` of the password in `login` is left out.
- Routing facts are not proved as properties:
  - `app/routes.py` registers no `payment` route, so `Controllers.ProcessPayment` models a handler that cannot be reached.
  - `app/routes.py:12-13` wraps handlers that are already wrapped. Only the double run of the wrapper is modelled (`Auth.WrapperRunTwice`).
  - The blueprint in `app/views.py` is not registered.
- The handlers behind the wrapper take the user id it binds. The model states the wrapper and the handlers separately and does not compose them.

## Findings

| source | as written | input that shows it | evidently intended | confidence | as-written member | corrected member |
|---|---|---|---|---|---|---|
| app/views.py:189 | `Booking.query.filter_by(...).sum('seats_booked')` calls a method the query object does not have, so every request past the capacity check raises and gets a 500; no booking is ever written | user 1 with active session "tok", bus 1 of capacity 10 with no bookings, date 5, 2 seats | the sum of `seats_booked` over the bus's bookings for that date, then the availability check and the insert | high (not executed) | Views.BookBusAsWritten, Views.AsWrittenRefusesBookingWithRoom | Views.BookBus, Views.BusBookingKeepsCapacity |
