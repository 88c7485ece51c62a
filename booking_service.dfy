/** The booking service: creation, the status-filtered paginated listing,
    the tenant- and landlord-scoped queries, lookup, status update and
    deletion over the booking collection. */
module BookingService {
  import opened Common
  import opened Store
  import opened Text
  import opened BookingModel

  /** The options of `getAllBookings`; page and limit default to 1 and 10
      only when absent. */
  datatype BookingQuery = BookingQuery(page: Option<int>, limit: Option<int>, status: Option<string>) {

    function PageNumber(): int {
      page.GetOr(1)
    }

    function PageSize(): int {
      limit.GetOr(10)
    }
  }

  /** The filter document of `getAllBookings`: at most a status key. */
  datatype BookingFilter = BookingFilter(status: Option<string>)

  /** How the store evaluates the filter: exact equality with the stored
      status string, when the key is present. */
  predicate Matches(f: BookingFilter, b: Booking) {
    f.status.None? || b.status.Name() == f.status.value
  }

  /** What the status option asks for: nothing when absent or empty,
      otherwise bookings whose status value is exactly that string. */
  predicate StatusWanted(status: Option<string>, b: Booking) {
    status.None? || status.value == "" || b.status.Name() == status.value
  }

  function WantedBy(status: Option<string>): Booking -> bool {
    (b: Booking) => StatusWanted(status, b)
  }

  function FoundBy(f: BookingFilter): Booking -> bool {
    (b: Booking) => Matches(f, b)
  }

  function TenantIs(tenant: Id): Booking -> bool {
    (b: Booking) => SameObjectId(b.tenant, tenant)
  }

  function LandlordIs(landlord: Id): Booking -> bool {
    (b: Booking) => SameObjectId(b.landlord, landlord)
  }

  function OtherThan(id: Id): Booking -> bool {
    (b: Booking) => b.id != id
  }

  /** The bookings of `s`, in order, that the status option asks for. */
  function WithStatus(s: seq<Booking>, status: Option<string>): seq<Booking> {
    Filter(s, WantedBy(status))
  }

  /** Sets the status key only for a non-empty status text. */
  method BuildFilter(status: Option<string>) returns (f: BookingFilter)
    ensures forall b :: Matches(f, b) <==> StatusWanted(status, b)
  {
    f := BookingFilter(None);
    if status.Some? && status.value != "" {
      f := f.(status := status);
    }
  }

  /** A page of bookings with its metadata. */
  datatype BookingPage = BookingPage(bookings: seq<Booking>, metadata: Metadata)

  /** The booking collection: documents by id, and the ids in insertion order. */
  class BookingStore {
    var bookings: map<Id, Booking>
    var order: seq<Id>

    ghost predicate Valid()
      reads this
    {
      Indexed(bookings, order) && forall k | k in bookings :: bookings[k].id == k
    }

    /** The stored bookings in insertion order, the order the model
        assumes an unsorted `find` returns. */
    function Contents(): (s: seq<Booking>)
      reads this
      requires Valid()
      ensures |s| == |order|
    {
      InOrder(bookings, order)
    }

    constructor ()
      ensures Valid() && bookings == map[] && order == []
    {
      bookings := map[];
      order := [];
    }

    /** `createBooking`: on success one new booking, with a fresh id and the
        payload's fields, is appended; existing bookings are untouched. */
    method CreateBooking(payload: BookingFields) returns (r: Result<Booking>)
      requires Valid()
      modifies this
      ensures Valid()
      ensures r == NewBooking(FreshId(old(order)), payload)
      ensures r.Ok? ==> r.value.id !in old(bookings)
      ensures r.Ok? ==> bookings == old(bookings)[r.value.id := r.value] && order == old(order) + [r.value.id]
      ensures r.Ok? ==> Contents() == old(Contents()) + [r.value]
      ensures r.Err? ==> bookings == old(bookings) && order == old(order)
    {
      var id := FreshId(order);
      r := NewBooking(id, payload);
      if r.Ok? {
        Insert(bookings, order, id, r.value);
        bookings := bookings[id := r.value];
        order := order + [id];
      }
    }

    /** `getAllBookings`: a page of the bookings with the requested status,
        and the total number of them. */
    method GetAllBookings(q: BookingQuery) returns (r: BookingPage)
      requires Valid() && q.PageNumber() >= 1 && q.PageSize() >= 1
      ensures r.bookings == Page(WithStatus(Contents(), q.status), q.PageNumber(), q.PageSize())
      ensures r.metadata == Metadata(|WithStatus(Contents(), q.status)|, q.PageNumber(), q.PageSize())
    {
      var page, limit := q.PageNumber(), q.PageSize();
      var f := BuildFilter(q.status);
      var found := Filter(Contents(), FoundBy(f));
      FilterCongruent(Contents(), FoundBy(f), WantedBy(q.status));
      var total := |found|;
      r := BookingPage(Page(found, page, limit), Metadata(total, page, limit));
    }

    /** `getAllBookingsForTenant`: InvalidArgument for a malformed id,
        otherwise every booking whose tenant is that ObjectId, unpaginated,
        in order. */
    method GetAllBookingsForTenant(tenantId: Id) returns (r: Result<seq<Booking>>)
      requires Valid()
      ensures r.Err? <==> !IsObjectId(tenantId)
      ensures r.Err? ==> r.error == InvalidArgument
      ensures r.Ok? ==> r.value == Filter(Contents(), TenantIs(tenantId))
    {
      if !IsObjectId(tenantId) {
        return Err(InvalidArgument);
      }
      r := Ok(Filter(Contents(), TenantIs(tenantId)));
    }

    /** `getAllBookingsForLandlord`: the same, by landlord. */
    method GetAllBookingsForLandlord(landlordId: Id) returns (r: Result<seq<Booking>>)
      requires Valid()
      ensures r.Err? <==> !IsObjectId(landlordId)
      ensures r.Err? ==> r.error == InvalidArgument
      ensures r.Ok? ==> r.value == Filter(Contents(), LandlordIs(landlordId))
    {
      if !IsObjectId(landlordId) {
        return Err(InvalidArgument);
      }
      r := Ok(Filter(Contents(), LandlordIs(landlordId)));
    }

    /** `getBookingById`: the stored booking, or NotFound. */
    method GetBookingById(id: Id) returns (r: Result<Booking>)
      requires Valid()
      ensures r.Err? <==> id !in bookings
      ensures r.Err? ==> r.error == NotFound
      ensures r.Ok? ==> r.value == bookings[id] && r.value.id == id && r.value in Contents()
    {
      if id !in bookings {
        return Err(NotFound);
      }
      r := Ok(bookings[id]);
      ContentsHas(id);
    }

    /** `updateBookingStatus`: any of the five statuses replaces the current
        one, whatever it is; no other field and no other booking changes. */
    method UpdateBookingStatus(id: Id, status: BookingStatus) returns (r: Result<Booking>)
      requires Valid()
      modifies this
      ensures Valid()
      ensures r.Err? <==> id !in old(bookings)
      ensures r.Err? ==> r.error == NotFound && bookings == old(bookings) && order == old(order)
      ensures r.Ok? ==> r.value == old(bookings)[id].(status := status)
      ensures r.Ok? ==> bookings == old(bookings)[id := r.value] && order == old(order)
      ensures r.Ok? ==> forall i | 0 <= i < |order| ::
        Contents()[i] == if order[i] == id then r.value else old(Contents())[i]
    {
      if id !in bookings {
        return Err(NotFound);
      }
      var updated := bookings[id].(status := status);
      bookings := bookings[id := updated];
      r := Ok(updated);
    }

    /** `deleteBooking`: NotFound when absent; otherwise exactly this booking
        leaves the collection and is returned. */
    method DeleteBooking(id: Id) returns (r: Result<Booking>)
      requires Valid()
      modifies this
      ensures Valid()
      ensures r.Err? <==> id !in old(bookings)
      ensures r.Err? ==> r.error == NotFound && bookings == old(bookings) && order == old(order)
      ensures r.Ok? ==> r.value == old(bookings)[id]
      ensures r.Ok? ==> bookings == old(bookings) - {id} && order == Without(old(order), id)
      ensures r.Ok? ==> Contents() == Filter(old(Contents()), OtherThan(id))
    {
      if id !in bookings {
        return Err(NotFound);
      }
      r := Ok(bookings[id]);
      RemoveInOrder(bookings, order, id, OtherThan(id));
      bookings := bookings - {id};
      order := Without(order, id);
    }

    /** A stored id's booking is among the contents. */
    lemma ContentsHas(id: Id)
      requires Valid() && id in bookings
      ensures bookings[id] in Contents()
    {
      var i :| 0 <= i < |order| && order[i] == id;
      assert Contents()[i] == bookings[id];
    }
  }

  /** An absent or empty status selects every booking. */
  lemma NoStatusSelectsAll(s: seq<Booking>)
    ensures WithStatus(s, None) == s
    ensures WithStatus(s, Some("")) == s
  {
    FilterAll(s, WantedBy(None));
    FilterAll(s, WantedBy(Some("")));
  }

  /** Filtering by a status value selects exactly the bookings in that status. */
  lemma StatusFilterIsExact(s: seq<Booking>, st: BookingStatus)
    ensures forall b | b in WithStatus(s, Some(st.Name())) :: b.status == st
    ensures forall b | b in s && b.status == st :: b in WithStatus(s, Some(st.Name()))
  {
    forall b | b in WithStatus(s, Some(st.Name())) ensures b.status == st {
      StatusRoundTrip(st, b.status);
    }
  }

  /** A status text that is not one of the five values selects nothing. */
  lemma UnknownStatusSelectsNothing(s: seq<Booking>, text: string)
    requires text != "" && ParseStatus(text).None?
    ensures WithStatus(s, Some(text)) == []
  {
    FilterNone(s, WantedBy(Some(text)));
  }

  /** The scoped queries compare ids as ObjectIds: a booking whose landlord
      was stored in lower-case hex is found by the upper-case spelling of the
      same id, while a different id finds nothing. */
  lemma LandlordQueryIgnoresHexCase(s: seq<Booking>, b: Booking)
    requires b in s && b.landlord == "aaaaaaaaaaaaaaaaaaaaaaaa"
    ensures b in Filter(s, LandlordIs("AAAAAAAAAAAAAAAAAAAAAAAA"))
    ensures b !in Filter(s, LandlordIs("aaaaaaaaaaaaaaaaaaaaaaab"))
  {
    var lower, upper, other := "aaaaaaaaaaaaaaaaaaaaaaaa", "AAAAAAAAAAAAAAAAAAAAAAAA", "aaaaaaaaaaaaaaaaaaaaaaab";
    assert forall i | 0 <= i < |lower| :: lower[i] == 'a' && upper[i] == 'A';
    SameObjectIdUpToCase(lower, upper);
    SameObjectIdUpToCase(lower, other);
    assert Lower(lower[23]) != Lower(other[23]);
  }

  /** A status that was just written is what a later lookup returns, and
      deleting the same id twice fails the second time. */
  method StatusThenLookup(store: BookingStore, id: Id, status: BookingStatus)
    returns (updated: Result<Booking>, fetched: Result<Booking>, deleted: Result<Booking>, again: Result<Booking>)
    requires store.Valid()
    modifies store
    ensures store.Valid()
    ensures updated.Ok? <==> id in old(store.bookings)
    ensures updated.Ok? ==> fetched == Ok(updated.value) && fetched.value.status == status
    ensures updated.Ok? ==> deleted == Ok(updated.value)
    ensures again == Err(NotFound) && id !in store.bookings
  {
    updated := store.UpdateBookingStatus(id, status);
    fetched := store.GetBookingById(id);
    deleted := store.DeleteBooking(id);
    again := store.DeleteBooking(id);
  }
}
