/** The booking request handlers: what each one takes from the request and
    hands to the booking service. Response formatting is not modelled. */
module BookingController {
  import opened Common
  import opened Store
  import opened Text
  import opened BookingModel
  import opened BookingService

  /** A query-string value as `Number(...)` sees it: a missing value and a
      non-numeric text both become NaN. */
  datatype QueryNumber = Missing | NotANumber | Numeric(value: int)

  /** The parts of a request the handlers read: the authenticated caller's
      id, the `:id` path parameter, the query values and the body. */
  datatype Request = Request(
    userId: Id,
    id: Id,
    page: QueryNumber,
    limit: QueryNumber,
    status: Option<string>,
    body: BookingFields)

  /** `Number(x) || fallback`: NaN and 0 are falsy and give the fallback;
      every other number, negatives included, is kept as it is. */
  function NumberOr(x: QueryNumber, fallback: int): (r: int)
    ensures x.Numeric? && x.value != 0 ==> r == x.value
    ensures !(x.Numeric? && x.value != 0) ==> r == fallback
  {
    match x
    case Numeric(n) => if n != 0 then n else fallback
    case _ => fallback
  }

  /** The options `getAllBookings` receives: page and limit always set, and
      never 0; the status forwarded unchanged, possibly absent. */
  function QueryOptions(req: Request): (q: BookingQuery)
    ensures q.page == Some(NumberOr(req.page, 1)) && q.limit == Some(NumberOr(req.limit, 10))
    ensures q.PageNumber() != 0 && q.PageSize() != 0
    ensures q.status == req.status
  {
    BookingQuery(Some(NumberOr(req.page, 1)), Some(NumberOr(req.limit, 10)), req.status)
  }

  /** Missing, zero and non-numeric values take the defaults 1 and 10; a
      negative page is passed on. */
  lemma QueryDefaults(req: Request)
    ensures !req.page.Numeric? ==> QueryOptions(req).PageNumber() == 1
    ensures !req.limit.Numeric? ==> QueryOptions(req).PageSize() == 10
    ensures req.page == Numeric(0) ==> QueryOptions(req).PageNumber() == 1
    ensures req.limit == Numeric(0) ==> QueryOptions(req).PageSize() == 10
    ensures req.page == Numeric(-3) ==> QueryOptions(req).PageNumber() == -3
  {
  }

  /** The creation payload: the body, with the tenant set to the caller
      whatever the body said; every other field of the body is kept. */
  function CreatePayload(req: Request): (p: BookingFields)
    ensures p.tenant == Some(req.userId)
    ensures p.(tenant := req.body.tenant) == req.body
  {
    req.body.(tenant := Some(req.userId))
  }

  /** `createBooking`: the booking belongs to the caller as tenant. */
  method CreateBooking(store: BookingStore, req: Request) returns (r: Result<Booking>)
    requires store.Valid()
    modifies store
    ensures store.Valid()
    ensures r == NewBooking(FreshId(old(store.order)), CreatePayload(req))
    ensures r.Ok? ==> r.value.tenant == req.userId
    ensures r.Ok? ==> store.Contents() == old(store.Contents()) + [r.value]
    ensures r.Err? ==> store.bookings == old(store.bookings) && store.order == old(store.order)
  {
    r := store.CreateBooking(CreatePayload(req));
  }

  /** `getAllBookings` with the defaulted options. A negative page or limit
      is passed on by the handler but is not modelled by the store. */
  method GetAllBookings(store: BookingStore, req: Request) returns (r: BookingPage)
    requires store.Valid()
    requires NumberOr(req.page, 1) >= 1 && NumberOr(req.limit, 10) >= 1
    ensures r.bookings == Page(WithStatus(store.Contents(), req.status), NumberOr(req.page, 1), NumberOr(req.limit, 10))
    ensures r.metadata == Metadata(|WithStatus(store.Contents(), req.status)|, NumberOr(req.page, 1), NumberOr(req.limit, 10))
  {
    r := store.GetAllBookings(QueryOptions(req));
  }

  /** The tenant's own bookings: the id is always the caller's, never a
      request parameter. */
  method GetAllBookingsForTenant(store: BookingStore, req: Request) returns (r: Result<seq<Booking>>)
    requires store.Valid()
    ensures r.Err? <==> !IsObjectId(req.userId)
    ensures r.Err? ==> r.error == InvalidArgument
    ensures r.Ok? ==> r.value == Filter(store.Contents(), TenantIs(req.userId))
    ensures r.Ok? ==> forall b | b in r.value :: SameObjectId(b.tenant, req.userId)
  {
    r := store.GetAllBookingsForTenant(req.userId);
  }

  /** The landlord's own bookings, likewise by the caller's id. */
  method GetAllBookingsForLandlord(store: BookingStore, req: Request) returns (r: Result<seq<Booking>>)
    requires store.Valid()
    ensures r.Err? <==> !IsObjectId(req.userId)
    ensures r.Err? ==> r.error == InvalidArgument
    ensures r.Ok? ==> r.value == Filter(store.Contents(), LandlordIs(req.userId))
    ensures r.Ok? ==> forall b | b in r.value :: SameObjectId(b.landlord, req.userId)
  {
    r := store.GetAllBookingsForLandlord(req.userId);
  }

  /** `updateBookingStatus`: only the body's status is forwarded, so no other
      body field can reach the booking. The request validator guarantees a
      status value is present. */
  method UpdateBookingStatus(store: BookingStore, req: Request) returns (r: Result<Booking>)
    requires store.Valid()
    requires req.body.status.Some? && ParseStatus(req.body.status.value).Some?
    modifies store
    ensures store.Valid()
    ensures r.Err? <==> req.id !in old(store.bookings)
    ensures r.Err? ==> r.error == NotFound && store.bookings == old(store.bookings) && store.order == old(store.order)
    ensures r.Ok? ==> r.value == old(store.bookings)[req.id].(status := ParseStatus(req.body.status.value).value)
    ensures r.Ok? ==> r.value.status.Name() == req.body.status.value
    ensures r.Ok? ==> store.bookings == old(store.bookings)[req.id := r.value] && store.order == old(store.order)
  {
    var status := ParseStatus(req.body.status.value).value;
    r := store.UpdateBookingStatus(req.id, status);
  }

  /** A booking created without a status is pending; confirming it and then
      looking it up gives the confirmed booking. */
  method ConfirmAfterCreate(req: Request)
    returns (created: Result<Booking>, confirmed: Result<Booking>, fetched: Result<Booking>)
    requires HasRequiredFields(CreatePayload(req)) && CastsReferences(CreatePayload(req)) && req.body.status.None?
    ensures created.Ok? && created.value.status == Pending && created.value.tenant == req.userId
    ensures confirmed == Ok(created.value.(status := Confirmed))
    ensures fetched == confirmed
  {
    var store := new BookingStore();
    created := CreateBooking(store, req);
    confirmed := store.UpdateBookingStatus(created.value.id, Confirmed);
    fetched := store.GetBookingById(created.value.id);
  }
}
