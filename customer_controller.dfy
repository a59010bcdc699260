/**
 * The customer-facing handlers of the futsal booking service: profile view and
 * update, field browsing, booking creation, listing, detail and cancellation,
 * and the dashboard. Each handler is a function from the authenticated caller,
 * the request, a snapshot of the store and the results of the model calls it
 * makes to the reply it sends (and, for the handlers that write, the new store).
 */
module CustomerController {
  import opened Options
  import opened Text
  import opened Lists

  /** Fixed surcharge added to every booking, in the currency's minor unit. */
  const ADMIN_FEE := 5000
  /** A booking can be cancelled no later than two hours before it starts. */
  const CANCELLATION_CUTOFF_HOURS: real := 2.0
  const MS_PER_HOUR := 3600000
  const DEFAULT_CANCELLATION_REASON := "Cancelled by customer"
  /** Length of the recent and upcoming lists on the dashboard. */
  const DASHBOARD_LIST_SIZE := 5

  const ACTIVE := "active"
  const PENDING := "pending"
  const CONFIRMED := "confirmed"
  const CANCELLED := "cancelled"
  const COMPLETED := "completed"

  /** `req.user`, attached by the authentication layer. */
  datatype Caller = Caller(id: int, name: string, email: string, createdAt: int)

  datatype User = User(id: int, name: string, email: string, phone: string, password: string,
                       isActive: bool, createdAt: int)

  /** A user row with the password column removed. */
  datatype Profile = Profile(id: int, name: string, email: string, phone: string,
                             isActive: bool, createdAt: int)

  datatype Field = Field(id: int, name: string, description: string, location: string,
                         fieldType: string, price: int, priceWeekend: Option<int>, status: string)

  /**
   * A booking row. `date` is the day number of the booking date, `startAt` the
   * instant its date and start time denote (None when they do not parse).
   */
  datatype Booking = Booking(id: int, userId: int, fieldId: int, date: int, startAt: Option<int>,
                             status: string, totalAmount: int, createdAt: int,
                             cancellationReason: Option<string>, updatedBy: Option<int>)

  datatype Failure =
    | UserNotFound
    | NoProfileFieldGiven
    | MissingRequiredFields
    | FieldUnavailable
    | SlotConflict(conflicts: seq<Booking>)
    | BookingNotFound
    | AccessDenied
    | NotCancellable
    | TooLateToCancel

  /** The HTTP reply: a status code with either the payload or the failure it reports. */
  datatype Reply<T> = Ok(status: int, data: T) | Err(status: int, failure: Failure)

  // ---------------------------------------------------------------- profile

  function ProfileOf(u: User): Profile {
    Profile(u.id, u.name, u.email, u.phone, u.isActive, u.createdAt)
  }

  /** getCustomerProfile: the caller's row without its password, or 404. */
  function GetCustomerProfile(users: map<int, User>, callerId: int): (r: Reply<Profile>)
    ensures r.Ok? <==> callerId in users
    ensures r.Ok? ==> r.status == 200 && r.data.id == users[callerId].id
                      && r.data.name == users[callerId].name && r.data.email == users[callerId].email
                      && r.data.phone == users[callerId].phone && r.data.isActive == users[callerId].isActive
                      && r.data.createdAt == users[callerId].createdAt
    ensures r.Err? ==> r == Err(404, UserNotFound)
  {
    if callerId in users then Ok(200, ProfileOf(users[callerId])) else Err(404, UserNotFound)
  }

  /** The profile reply does not depend on the stored password: it cannot leak it. */
  lemma ProfileHidesPassword(users: map<int, User>, callerId: int, password: string)
    requires callerId in users
    ensures GetCustomerProfile(users[callerId := users[callerId].(password := password)], callerId)
            == GetCustomerProfile(users, callerId)
  {
  }

  /** How the user model applies a profile update: supplied columns replace the stored ones. */
  function ApplyProfile(u: User, name: Option<string>, email: Option<string>, phone: Option<string>): User {
    u.(name := if name.Some? then name.value else u.name,
       email := if email.Some? then email.value else u.email,
       phone := if phone.Some? then phone.value else u.phone)
  }

  /** updateCustomerProfile: at least one of name, email, phone must be given; then the row is updated. */
  function UpdateCustomerProfile(users: map<int, User>, callerId: int, name: Option<string>,
                                 email: Option<string>, phone: Option<string>): (r: (Reply<User>, map<int, User>))
    ensures !Given(name) && !Given(email) && !Given(phone) ==> r.0 == Err(400, NoProfileFieldGiven)
    ensures r.0.Ok? <==> (Given(name) || Given(email) || Given(phone)) && callerId in users
    ensures r.0.Err? ==> r.1 == users
    ensures (Given(name) || Given(email) || Given(phone)) && callerId !in users ==> r.0 == Err(404, UserNotFound)
    ensures r.0.Ok? ==> r.0.status == 200 && r.1 == users[callerId := r.0.data]
                        && r.0.data.id == users[callerId].id
                        && r.0.data.password == users[callerId].password
                        && r.0.data.isActive == users[callerId].isActive
                        && r.0.data.createdAt == users[callerId].createdAt
                        && r.0.data.name == (if name.Some? then name.value else users[callerId].name)
                        && r.0.data.email == (if email.Some? then email.value else users[callerId].email)
                        && r.0.data.phone == (if phone.Some? then phone.value else users[callerId].phone)
  {
    if !Given(name) && !Given(email) && !Given(phone) then (Err(400, NoProfileFieldGiven), users)
    else if callerId !in users then (Err(404, UserNotFound), users)
    else
      var updated := ApplyProfile(users[callerId], name, email, phone);
      (Ok(200, updated), users[callerId := updated])
  }

  // ---------------------------------------------------------------- fields

  /** The page and the page size a list query asks for when it gives none. */
  const DEFAULT_PAGE := 1
  const DEFAULT_LIMIT := 10

  /** `{ page = 1 } = req.query`: the default stands in for an absent property. */
  function OrDefault(n: Option<nat>, default: nat): nat {
    if n.Some? then n.value else default
  }

  /** The search criterion: the name or the description contains the query, ignoring case. */
  predicate SearchMatches(f: Field, search: Option<string>) {
    Given(search) ==> IncludesIgnoringCase(f.name, search.value) || IncludesIgnoringCase(f.description, search.value)
  }

  /** The type criterion: the field's type is the queried one. */
  predicate TypeMatches(f: Field, fieldType: Option<string>) {
    Given(fieldType) ==> f.fieldType == fieldType.value
  }

  /** The location criterion: the location contains the query, ignoring case. */
  predicate LocationMatches(f: Field, location: Option<string>) {
    Given(location) ==> IncludesIgnoringCase(f.location, location.value)
  }

  /** The field filters of the browse page; each absent or empty criterion lets every field through. */
  predicate MatchesFieldQuery(f: Field, search: Option<string>, fieldType: Option<string>, location: Option<string>) {
    SearchMatches(f, search) && TypeMatches(f, fieldType) && LocationMatches(f, location)
  }

  /** The whole query as the one predicate a single `filter` would take. */
  function FieldQuery(search: Option<string>, fieldType: Option<string>, location: Option<string>): Field -> bool {
    (f: Field) => MatchesFieldQuery(f, search, fieldType, location)
  }

  /**
   * The three successive `filter` calls of getCustomerFields, each made only
   * when its criterion is given (and then the criterion is the source's
   * callback). Together they filter once by the whole query.
   */
  function FilterFields(fields: seq<Field>, search: Option<string>, fieldType: Option<string>,
                        location: Option<string>): (r: seq<Field>)
    ensures r == Filter(fields, FieldQuery(search, fieldType, location))
    ensures |r| <= |fields|
    ensures forall f :: f in r <==> f in fields && MatchesFieldQuery(f, search, fieldType, location)
    ensures forall f :: multiset(r)[f] == if MatchesFieldQuery(f, search, fieldType, location) then multiset(fields)[f] else 0
  {
    var bySearchQuery := (f: Field) => SearchMatches(f, search);
    var byTypeQuery := (f: Field) => TypeMatches(f, fieldType);
    var byLocationQuery := (f: Field) => LocationMatches(f, location);
    var bySearch := if Given(search) then Filter(fields, bySearchQuery) else fields;
    var byType := if Given(fieldType) then Filter(bySearch, byTypeQuery) else bySearch;
    var r := if Given(location) then Filter(byType, byLocationQuery) else byType;
    var searchAndType := (f: Field) => SearchMatches(f, search) && TypeMatches(f, fieldType);
    assert r == Filter(fields, FieldQuery(search, fieldType, location)) by {
      if !Given(search) {
        FilterKeepsAll(fields, bySearchQuery);
      }
      if !Given(fieldType) {
        FilterKeepsAll(bySearch, byTypeQuery);
      }
      if !Given(location) {
        FilterKeepsAll(byType, byLocationQuery);
      }
      FilterFilter(fields, bySearchQuery, byTypeQuery, searchAndType);
      FilterFilter(fields, searchAndType, byLocationQuery, FieldQuery(search, fieldType, location));
    }
    FilterMultiplicity(fields, FieldQuery(search, fieldType, location));
    r
  }

  /**
   * getCustomerFields over the available fields. An absent `page` or `limit`
   * query property takes its default; a given one is at least 1.
   */
  function GetCustomerFields(available: seq<Field>, page: Option<nat>, limit: Option<nat>, search: Option<string>,
                             fieldType: Option<string>, location: Option<string>): (r: Reply<Page<Field>>)
    requires page.None? || page.value >= 1
    requires limit.None? || limit.value >= 1
    ensures r.Ok? && r.status == 200
    ensures r.data == Paginate(FilterFields(available, search, fieldType, location),
                               OrDefault(page, DEFAULT_PAGE), OrDefault(limit, DEFAULT_LIMIT))
    ensures page.None? ==> r.data.currentPage == 1
    ensures limit.None? ==> r.data.perPage == 10 && |r.data.data| <= 10
    ensures |r.data.data| <= r.data.perPage
    ensures forall f :: f in r.data.data ==> f in available && MatchesFieldQuery(f, search, fieldType, location)
    ensures r.data.total == |FilterFields(available, search, fieldType, location)|
    ensures (r.data.totalPages - 1) * r.data.perPage < r.data.total <= r.data.totalPages * r.data.perPage
  {
    var matching := FilterFields(available, search, fieldType, location);
    var p := Paginate(matching, OrDefault(page, DEFAULT_PAGE), OrDefault(limit, DEFAULT_LIMIT));
    PageHoldsListItems(matching, OrDefault(page, DEFAULT_PAGE), OrDefault(limit, DEFAULT_LIMIT));
    Ok(200, p)
  }

  // ---------------------------------------------------------------- creating a booking

  /** The body of a booking request; every property may be missing. */
  datatype BookingRequest = BookingRequest(fieldId: Option<int>, date: Option<string>, startTime: Option<string>,
                                           endTime: Option<string>, name: Option<string>, phone: Option<string>,
                                           email: Option<string>, notes: Option<string>)

  /** What the handler hands to the booking model to be stored. */
  datatype NewBooking = NewBooking(userId: int, fieldId: int, date: string, startTime: string, endTime: string,
                                   name: string, phone: string, email: string, notes: Option<string>,
                                   baseAmount: int, adminFee: int, createdBy: int)

  /** The booking model's answer to "does this slot overlap an active booking?". */
  datatype ConflictReport = ConflictReport(hasConflict: bool, conflicts: seq<Booking>)

  /** `!field_id || !date || ...`: the six required properties are present and truthy. */
  predicate HasRequiredFields(req: BookingRequest) {
    && req.fieldId.Some? && req.fieldId.value != 0
    && Given(req.date) && Given(req.startTime) && Given(req.endTime)
    && Given(req.name) && Given(req.phone)
  }

  predicate IsWeekend(weekday: int) {
    weekday == 0 || weekday == 6
  }

  /** The rate for a day: the weekend rate on Saturday and Sunday when the field has a non-zero one. */
  function BaseAmount(field: Field, weekday: int): (amount: int)
    ensures IsWeekend(weekday) && field.priceWeekend.Some? && field.priceWeekend.value != 0
            ==> amount == field.priceWeekend.value
    ensures !IsWeekend(weekday) || field.priceWeekend.None? || field.priceWeekend.value == 0
            ==> amount == field.price
  {
    if IsWeekend(weekday) && field.priceWeekend.Some? && field.priceWeekend.value != 0
    then field.priceWeekend.value else field.price
  }

  /**
   * createCustomerBooking. `weekday` is the day of the week of the requested
   * date (0 is Sunday) and `conflict` the conflict check's answer for the slot.
   */
  function CreateCustomerBooking(caller: Caller, req: BookingRequest, fields: map<int, Field>,
                                 conflict: ConflictReport, weekday: int): (r: Reply<NewBooking>)
    ensures !HasRequiredFields(req) ==> r == Err(400, MissingRequiredFields)
    ensures HasRequiredFields(req) && (req.fieldId.value !in fields || fields[req.fieldId.value].status != ACTIVE)
            ==> r == Err(404, FieldUnavailable)
    ensures r.Ok? <==> HasRequiredFields(req) && req.fieldId.value in fields
                       && fields[req.fieldId.value].status == ACTIVE && !conflict.hasConflict
    ensures (HasRequiredFields(req) && req.fieldId.value in fields && fields[req.fieldId.value].status == ACTIVE
             && conflict.hasConflict) ==> r == Err(400, SlotConflict(conflict.conflicts))
    ensures r.Ok? ==> && r.status == 201
                      && r.data.userId == caller.id && r.data.createdBy == caller.id
                      && r.data.fieldId == req.fieldId.value
                      && r.data.date == req.date.value
                      && r.data.startTime == req.startTime.value && r.data.endTime == req.endTime.value
                      && r.data.name == req.name.value && r.data.phone == req.phone.value
                      && r.data.baseAmount == BaseAmount(fields[req.fieldId.value], weekday)
                      && r.data.adminFee == ADMIN_FEE
                      && r.data.email == OrElse(req.email, caller.email)
                      && r.data.notes == req.notes
  {
    if !HasRequiredFields(req) then Err(400, MissingRequiredFields)
    else if req.fieldId.value !in fields || fields[req.fieldId.value].status != ACTIVE then Err(404, FieldUnavailable)
    else if conflict.hasConflict then Err(400, SlotConflict(conflict.conflicts))
    else
      var field := fields[req.fieldId.value];
      Ok(201, NewBooking(caller.id, req.fieldId.value, req.date.value, req.startTime.value, req.endTime.value,
                         req.name.value, req.phone.value, OrElse(req.email, caller.email), req.notes,
                         BaseAmount(field, weekday), ADMIN_FEE, caller.id))
  }

  /** A missing or inactive field is refused before the conflict check: its answer cannot matter. */
  lemma UnavailableFieldIgnoresConflict(caller: Caller, req: BookingRequest, fields: map<int, Field>,
                                        c1: ConflictReport, c2: ConflictReport, weekday: int)
    requires HasRequiredFields(req)
    requires req.fieldId.value !in fields || fields[req.fieldId.value].status != ACTIVE
    ensures CreateCustomerBooking(caller, req, fields, c1, weekday) == CreateCustomerBooking(caller, req, fields, c2, weekday)
  {
  }

  /** Saturday at 100000 on weekdays and 150000 on weekends: the base is 150000, plus the 5000 fee. */
  lemma SaturdayPricing(caller: Caller, req: BookingRequest, fields: map<int, Field>)
    requires HasRequiredFields(req) && req.fieldId.value in fields
    requires fields[req.fieldId.value].status == ACTIVE
    requires fields[req.fieldId.value].price == 100000
    requires fields[req.fieldId.value].priceWeekend == Some(150000)
    ensures var r := CreateCustomerBooking(caller, req, fields, ConflictReport(false, []), 6);
            r.Ok? && r.data.baseAmount == 150000 && r.data.baseAmount + r.data.adminFee == 155000
  {
  }

  // ---------------------------------------------------------------- listing bookings

  /** The `status` filter of getCustomerBookings, applied only when the query gives one. */
  function FilterByStatus(bookings: seq<Booking>, status: Option<string>): (r: seq<Booking>)
    ensures !Given(status) ==> r == bookings
    ensures Given(status) ==> forall b :: b in r <==> b in bookings && b.status == status.value
    ensures forall b :: multiset(r)[b] == if !Given(status) || b.status == status.value then multiset(bookings)[b] else 0
  {
    if Given(status) then
      var hasStatus := (b: Booking) => b.status == status.value;
      FilterMultiplicity(bookings, hasStatus);
      Filter(bookings, hasStatus)
    else bookings
  }

  /**
   * getCustomerBookings over the caller's bookings. An absent `page` or
   * `limit` query property takes its default; a given one is at least 1.
   */
  function GetCustomerBookings(own: seq<Booking>, status: Option<string>, page: Option<nat>,
                               limit: Option<nat>): (r: Reply<Page<Booking>>)
    requires page.None? || page.value >= 1
    requires limit.None? || limit.value >= 1
    ensures r.Ok? && r.status == 200
    ensures r.data == Paginate(FilterByStatus(own, status), OrDefault(page, DEFAULT_PAGE), OrDefault(limit, DEFAULT_LIMIT))
    ensures page.None? ==> r.data.currentPage == 1
    ensures limit.None? ==> r.data.perPage == 10 && |r.data.data| <= 10
    ensures |r.data.data| <= r.data.perPage
    ensures forall b :: b in r.data.data ==> b in own && (Given(status) ==> b.status == status.value)
    ensures r.data.total == |FilterByStatus(own, status)|
    ensures (r.data.totalPages - 1) * r.data.perPage < r.data.total <= r.data.totalPages * r.data.perPage
  {
    var filtered := FilterByStatus(own, status);
    var p := Paginate(filtered, OrDefault(page, DEFAULT_PAGE), OrDefault(limit, DEFAULT_LIMIT));
    PageHoldsListItems(filtered, OrDefault(page, DEFAULT_PAGE), OrDefault(limit, DEFAULT_LIMIT));
    Ok(200, p)
  }

  // ---------------------------------------------------------------- one booking

  /** The two guards shared by the detail and the cancellation handlers: it exists, and it is the caller's. */
  function OwnedBooking(bookings: map<int, Booking>, callerId: int, id: int): (r: Reply<Booking>)
    ensures r.Ok? <==> id in bookings && bookings[id].userId == callerId
    ensures r.Ok? ==> r.data == bookings[id]
    ensures id !in bookings ==> r == Err(404, BookingNotFound)
    ensures id in bookings && bookings[id].userId != callerId ==> r == Err(403, AccessDenied)
  {
    if id !in bookings then Err(404, BookingNotFound)
    else if bookings[id].userId != callerId then Err(403, AccessDenied)
    else Ok(200, bookings[id])
  }

  datatype BookingDetail<P> = BookingDetail(booking: Booking, payments: seq<P>)

  /** getCustomerBookingDetail; `payments` is what the payment model lists for the booking. */
  function GetCustomerBookingDetail<P>(bookings: map<int, Booking>, callerId: int, id: int,
                                       payments: seq<P>): (r: Reply<BookingDetail<P>>)
    ensures r.Ok? <==> id in bookings && bookings[id].userId == callerId
    ensures r.Ok? ==> r.status == 200 && r.data == BookingDetail(bookings[id], payments)
    ensures r.Err? ==> r == Err(OwnedBooking(bookings, callerId, id).status, OwnedBooking(bookings, callerId, id).failure)
  {
    match OwnedBooking(bookings, callerId, id)
    case Ok(_, b) => Ok(200, BookingDetail(b, payments))
    case Err(code, failure) => Err(code, failure)
  }

  // ---------------------------------------------------------------- cancelling a booking

  /** `(start - now) / (1000 * 3600)`: hours left before the booking starts. */
  function HoursUntil(startAt: int, now: int): real {
    (startAt - now) as real / MS_PER_HOUR as real
  }

  /**
   * `hoursDiff < 2`. When the date and start time do not parse, the difference is
   * NaN, the comparison is false, and the cutoff does not stop the cancellation.
   */
  predicate TooLate(startAt: Option<int>, now: int) {
    startAt.Some? && HoursUntil(startAt.value, now) < CANCELLATION_CUTOFF_HOURS
  }

  /** In milliseconds the cutoff reads: fewer than 7,200,000 ms left. */
  lemma TooLateInMilliseconds(startAt: int, now: int)
    ensures TooLate(Some(startAt), now) <==> startAt - now < 7200000
  {
    var d := (startAt - now) as real;
    assert HoursUntil(startAt, now) * 3600000.0 == d;
  }

  /** cancelCustomerBooking, at the instant `now` (epoch milliseconds). */
  function CancelCustomerBooking(bookings: map<int, Booking>, callerId: int, id: int, reason: Option<string>,
                                 now: int): (r: (Reply<Booking>, map<int, Booking>))
    ensures id !in bookings ==> r.0 == Err(404, BookingNotFound)
    ensures id in bookings && bookings[id].userId != callerId ==> r.0 == Err(403, AccessDenied)
    ensures id in bookings && bookings[id].userId == callerId && bookings[id].status != PENDING
            ==> r.0 == Err(400, NotCancellable)
    ensures (id in bookings && bookings[id].userId == callerId && bookings[id].status == PENDING
             && TooLate(bookings[id].startAt, now)) ==> r.0 == Err(400, TooLateToCancel)
    ensures r.0.Ok? <==> id in bookings && bookings[id].userId == callerId && bookings[id].status == PENDING
                         && !TooLate(bookings[id].startAt, now)
    ensures r.0.Err? ==> r.1 == bookings
    ensures r.0.Ok? ==> && r.0.status == 200
                        && r.0.data == bookings[id].(status := CANCELLED,
                                                     cancellationReason := Some(OrElse(reason, DEFAULT_CANCELLATION_REASON)),
                                                     updatedBy := Some(callerId))
                        && r.1 == bookings[id := r.0.data]
  {
    match OwnedBooking(bookings, callerId, id)
    case Err(code, failure) => (Err(code, failure), bookings)
    case Ok(_, b) =>
      if b.status != PENDING then (Err(400, NotCancellable), bookings)
      else if TooLate(b.startAt, now) then (Err(400, TooLateToCancel), bookings)
      else
        var cancelled := b.(status := CANCELLED,
                            cancellationReason := Some(OrElse(reason, DEFAULT_CANCELLATION_REASON)),
                            updatedBy := Some(callerId));
        (Ok(200, cancelled), bookings[id := cancelled])
  }

  /** Exactly two hours before the start the cancellation goes through; one second later it is refused. */
  lemma CancellationBoundary(bookings: map<int, Booking>, callerId: int, id: int, reason: Option<string>)
    requires id in bookings && bookings[id].userId == callerId && bookings[id].status == PENDING
    requires bookings[id].startAt.Some?
    ensures CancelCustomerBooking(bookings, callerId, id, reason, bookings[id].startAt.value - 7200000).0.Ok?
    ensures CancelCustomerBooking(bookings, callerId, id, reason, bookings[id].startAt.value - 7199000).0
            == Err(400, TooLateToCancel)
  {
    var s := bookings[id].startAt.value;
    TooLateInMilliseconds(s, s - 7200000);
    TooLateInMilliseconds(s, s - 7199000);
  }

  /** A cancelled booking cannot be cancelled again: the handler leaves it as it is. */
  lemma CancellationIsFinal(bookings: map<int, Booking>, callerId: int, id: int, r1: Option<string>,
                            r2: Option<string>, now1: int, now2: int)
    requires CancelCustomerBooking(bookings, callerId, id, r1, now1).0.Ok?
    ensures var after := CancelCustomerBooking(bookings, callerId, id, r1, now1).1;
            CancelCustomerBooking(after, callerId, id, r2, now2) == (Err(400, NotCancellable), after)
  {
  }

  // ---------------------------------------------------------------- dashboard

  predicate IsCompleted(b: Booking) { b.status == COMPLETED }
  predicate IsCancelled(b: Booking) { b.status == CANCELLED }

  /** `confirmed` and not before today (both as day numbers). */
  predicate IsUpcoming(b: Booking, today: int) { b.status == CONFIRMED && b.date >= today }

  /** Sort key for "newest first": the comparator `b.created_at - a.created_at`. */
  function NewestFirst(b: Booking): int { -b.createdAt }

  /** Sort key for "earliest date first": the comparator `a.date - b.date`. */
  function EarliestDate(b: Booking): int { b.date }

  /** `reduce((sum, b) => sum + b.total_amount, 0)`. */
  function SumAmounts(bs: seq<Booking>): int {
    if bs == [] then 0 else bs[0].totalAmount + SumAmounts(bs[1..])
  }

  /** The same sum written as one pass over every booking, counting the completed ones only. */
  function CompletedSpend(bs: seq<Booking>): int {
    if bs == [] then 0 else (if IsCompleted(bs[0]) then bs[0].totalAmount else 0) + CompletedSpend(bs[1..])
  }

  datatype Statistics = Statistics(totalBookings: nat, completedBookings: nat, cancelledBookings: nat, totalSpent: int)
  datatype UserInfo = UserInfo(name: string, email: string, memberSince: int)
  datatype Dashboard = Dashboard(userInfo: UserInfo, statistics: Statistics, recentBookings: seq<Booking>,
                                 upcomingBookings: seq<Booking>, favoriteFields: seq<Field>)

  /** The statistics block: how many bookings, how many completed and cancelled, and what was spent. */
  function BookingStatistics(all: seq<Booking>): (s: Statistics)
    ensures s.totalBookings == |all|
    ensures s.completedBookings == Count(all, IsCompleted)
    ensures s.cancelledBookings == Count(all, IsCancelled)
    ensures s.completedBookings + s.cancelledBookings <= s.totalBookings
    ensures s.totalSpent == CompletedSpend(all)
  {
    DisjointFiltersBound(all, IsCompleted, IsCancelled);
    FilterLengthIsCount(all, IsCompleted);
    FilterLengthIsCount(all, IsCancelled);
    SpendCountsCompletedOnly(all);
    Statistics(|all|, |Filter(all, IsCompleted)|, |Filter(all, IsCancelled)|, SumAmounts(Filter(all, IsCompleted)))
  }

  lemma {:induction false} SpendCountsCompletedOnly(bs: seq<Booking>)
    ensures SumAmounts(Filter(bs, IsCompleted)) == CompletedSpend(bs)
  {
    if bs != [] {
      SpendCountsCompletedOnly(bs[1..]);
      var head := if IsCompleted(bs[0]) then [bs[0]] else [];
      SumAppend(head, Filter(bs[1..], IsCompleted));
    }
  }

  lemma {:induction false} SumAppend(xs: seq<Booking>, ys: seq<Booking>)
    ensures SumAmounts(xs + ys) == SumAmounts(xs) + SumAmounts(ys)
  {
    if xs == [] {
      assert xs + ys == ys;
    } else {
      assert (xs + ys)[1..] == xs[1..] + ys;
      SumAppend(xs[1..], ys);
    }
  }

  /** With non-negative amounts, what was spent is at most the amount of all bookings together. */
  lemma {:induction false} SpendBounded(bs: seq<Booking>)
    requires forall b :: b in bs ==> b.totalAmount >= 0
    ensures 0 <= CompletedSpend(bs) <= SumAmounts(bs)
  {
    if bs != [] {
      SpendBounded(bs[1..]);
    }
  }

  /** The first five of the newest-first order. */
  function RecentBookings(all: seq<Booking>): (r: seq<Booking>)
    ensures |r| == Min(DASHBOARD_LIST_SIZE, |all|)
    ensures multiset(r) <= multiset(all)
    ensures forall b :: b in r ==> b in all
    ensures forall i, j :: 0 <= i < j < |r| ==> r[i].createdAt >= r[j].createdAt
    ensures forall b, y :: b in all && b !in r && y in r ==> y.createdAt >= b.createdAt
  {
    var r := SmallestBy(all, NewestFirst, DASHBOARD_LIST_SIZE);
    forall i, j | 0 <= i < j < |r|
      ensures r[i].createdAt >= r[j].createdAt
    {
      assert NewestFirst(r[i]) <= NewestFirst(r[j]);
    }
    forall b, y | b in all && b !in r && y in r
      ensures y.createdAt >= b.createdAt
    {
      assert NewestFirst(y) <= NewestFirst(b);
    }
    r
  }

  /** The filter of the upcoming list, `b.status === 'confirmed' && b.date >= today`. */
  function UpcomingOn(today: int): Booking -> bool {
    (b: Booking) => IsUpcoming(b, today)
  }

  /**
   * The first five confirmed bookings dated today or later, earliest date
   * first, drawn from the newest-first array.
   */
  function UpcomingBookings(byNewest: seq<Booking>, today: int): (r: seq<Booking>)
    ensures |r| == Min(DASHBOARD_LIST_SIZE, Count(byNewest, UpcomingOn(today)))
    ensures forall b :: multiset(r)[b] <= if IsUpcoming(b, today) then multiset(byNewest)[b] else 0
    ensures forall b :: b in r ==> b in byNewest && IsUpcoming(b, today)
    ensures forall i, j :: 0 <= i < j < |r| ==> r[i].date <= r[j].date
    ensures forall b, y :: b in byNewest && IsUpcoming(b, today) && b !in r && y in r ==> y.date <= b.date
    ensures |r| < DASHBOARD_LIST_SIZE ==> forall b :: b in byNewest && IsUpcoming(b, today) ==> b in r
  {
    var candidates := Filter(byNewest, UpcomingOn(today));
    FilterLengthIsCount(byNewest, UpcomingOn(today));
    FilterMultiplicity(byNewest, UpcomingOn(today));
    var r := SmallestBy(candidates, EarliestDate, DASHBOARD_LIST_SIZE);
    forall b
      ensures multiset(r)[b] <= if IsUpcoming(b, today) then multiset(byNewest)[b] else 0
    {
      assert multiset(r)[b] <= multiset(candidates)[b];
    }
    forall i, j | 0 <= i < j < |r|
      ensures r[i].date <= r[j].date
    {
      assert EarliestDate(r[i]) <= EarliestDate(r[j]);
    }
    forall b, y | b in byNewest && IsUpcoming(b, today) && b !in r && y in r
      ensures y.date <= b.date
    {
      assert b in candidates;
      assert EarliestDate(y) <= EarliestDate(b);
    }
    forall b | b in r
      ensures b in byNewest && IsUpcoming(b, today)
    {
      assert b in candidates;
    }
    r
  }

  /**
   * getCustomerDashboard over all of the caller's bookings; `today` is the
   * current day number. The newest-first sort happens in place in the handler,
   * so the upcoming list is drawn from the sorted array; it holds the same
   * bookings as `all`, so the upcoming list is stated over `all`.
   */
  function GetCustomerDashboard(caller: Caller, all: seq<Booking>, today: int): (r: Reply<Dashboard>)
    ensures r.Ok? && r.status == 200
    ensures r.data.userInfo == UserInfo(caller.name, caller.email, caller.createdAt)
    ensures r.data.statistics.totalBookings == |all|
    ensures r.data.statistics.completedBookings == Count(all, IsCompleted)
    ensures r.data.statistics.cancelledBookings == Count(all, IsCancelled)
    ensures r.data.statistics.totalSpent == CompletedSpend(all)
    ensures |r.data.recentBookings| == Min(DASHBOARD_LIST_SIZE, |all|)
    ensures multiset(r.data.recentBookings) <= multiset(all)
    ensures forall i, j ::
              0 <= i < j < |r.data.recentBookings| ==> r.data.recentBookings[i].createdAt >= r.data.recentBookings[j].createdAt
    ensures forall b, y ::
              b in all && b !in r.data.recentBookings && y in r.data.recentBookings ==> y.createdAt >= b.createdAt
    ensures |r.data.upcomingBookings| == Min(DASHBOARD_LIST_SIZE, Count(all, UpcomingOn(today)))
    ensures forall b :: multiset(r.data.upcomingBookings)[b] <= if IsUpcoming(b, today) then multiset(all)[b] else 0
    ensures forall i, j ::
              0 <= i < j < |r.data.upcomingBookings| ==> r.data.upcomingBookings[i].date <= r.data.upcomingBookings[j].date
    ensures forall b, y :: b in all && IsUpcoming(b, today) && b !in r.data.upcomingBookings && y in r.data.upcomingBookings
              ==> y.date <= b.date
    ensures |r.data.upcomingBookings| < DASHBOARD_LIST_SIZE
            ==> forall b :: b in all && IsUpcoming(b, today) ==> b in r.data.upcomingBookings
    ensures r.data.favoriteFields == []
  {
    var byNewest := SortBy(all, NewestFirst);
    SameElements(byNewest, all);
    FilterPermutation(byNewest, all, UpcomingOn(today));
    assert RecentBookings(all) == Take(byNewest, DASHBOARD_LIST_SIZE);
    Ok(200, Dashboard(UserInfo(caller.name, caller.email, caller.createdAt), BookingStatistics(all),
                      RecentBookings(all), UpcomingBookings(byNewest, today), []))
  }
}
