/** The Booking schema: the five-valued status, the stored record, the
    partial record a creation payload carries, the required paths and the
    `pending` default. */
module BookingModel {
  import opened Common
  import opened Text

  /** The booking status and its literal string values. */
  datatype BookingStatus = Pending | Approved | Rejected | Confirmed | Cancelled {

    function Name(): string {
      match this
      case Pending => "pending"
      case Approved => "approved"
      case Rejected => "rejected"
      case Confirmed => "confirmed"
      case Cancelled => "cancelled"
    }
  }

  /** The enum validator: a string is a status exactly when it is one of the
      five literal values. */
  function ParseStatus(s: string): (r: Option<BookingStatus>)
    ensures r.Some? ==> r.value.Name() == s
    ensures r.None? ==> forall st: BookingStatus :: st.Name() != s
  {
    if s == "pending" then Some(Pending)
    else if s == "approved" then Some(Approved)
    else if s == "rejected" then Some(Rejected)
    else if s == "confirmed" then Some(Confirmed)
    else if s == "cancelled" then Some(Cancelled)
    else None
  }

  /** Every status survives the trip through its string value, and no two
      statuses share a value. */
  lemma StatusRoundTrip(st: BookingStatus, other: BookingStatus)
    ensures ParseStatus(st.Name()) == Some(st)
    ensures st.Name() == other.Name() ==> st == other
  {
  }

  /** A stored booking. Dates are instants, as integers; references are ids. */
  datatype Booking = Booking(
    id: Id,
    listing: Id,
    landlord: Id,
    tenant: Id,
    tenantMessage: string,
    status: BookingStatus,
    checkInDate: int,
    checkOutDate: int)

  /** A creation payload: every field may be absent, and the status, when
      present, is whatever string the body held. */
  datatype BookingFields = BookingFields(
    listing: Option<Id>,
    landlord: Option<Id>,
    tenant: Option<Id>,
    tenantMessage: Option<string>,
    status: Option<string>,
    checkInDate: Option<int>,
    checkOutDate: Option<int>)

  /** The schema's required paths: the three references, the tenant's message
      and both dates. Nothing relates the check-in date to the check-out date. */
  predicate HasRequiredFields(p: BookingFields) {
    && p.listing.Some?
    && p.landlord.Some?
    && p.tenant.Some?
    && RequiredText(p.tenantMessage)
    && p.checkInDate.Some?
    && p.checkOutDate.Some?
  }

  /** The three reference paths are ObjectIds: `create` casts each supplied
      reference, and a string that is not a well-formed id fails validation. */
  predicate CastsReferences(p: BookingFields) {
    && (p.listing.Some? ==> IsObjectId(p.listing.value))
    && (p.landlord.Some? ==> IsObjectId(p.landlord.value))
    && (p.tenant.Some? ==> IsObjectId(p.tenant.value))
  }

  /** An absent status takes the default; a present one must be a status value. */
  predicate HasValidStatus(p: BookingFields) {
    p.status.None? || ParseStatus(p.status.value).Some?
  }

  /** `Booking.create(payload)` with the new id `id`. */
  function NewBooking(id: Id, p: BookingFields): (r: Result<Booking>)
    ensures r.Ok? <==> HasRequiredFields(p) && CastsReferences(p) && HasValidStatus(p)
    ensures r.Err? ==> r.error == ValidationFailed
    ensures r.Ok? ==> && r.value.id == id
                      && Some(r.value.listing) == p.listing
                      && Some(r.value.landlord) == p.landlord
                      && Some(r.value.tenant) == p.tenant
                      && Some(r.value.tenantMessage) == p.tenantMessage
                      && Some(r.value.checkInDate) == p.checkInDate
                      && Some(r.value.checkOutDate) == p.checkOutDate
    ensures r.Ok? ==> if p.status.None? then r.value.status == Pending
                      else r.value.status.Name() == p.status.value
  {
    if HasRequiredFields(p) && CastsReferences(p) && HasValidStatus(p) then
      var status := if p.status.None? then Pending else ParseStatus(p.status.value).value;
      Ok(Booking(id, p.listing.value, p.landlord.value, p.tenant.value, p.tenantMessage.value,
                 status, p.checkInDate.value, p.checkOutDate.value))
    else
      Err(ValidationFailed)
  }

  /** The complete payload that describes `b`. */
  function FieldsOf(b: Booking): BookingFields {
    BookingFields(Some(b.listing), Some(b.landlord), Some(b.tenant), Some(b.tenantMessage),
                  Some(b.status.Name()), Some(b.checkInDate), Some(b.checkOutDate))
  }

  /** Creating from the complete description of a booking gives that booking
      back, provided the tenant's message is non-empty and its references are
      well-formed ids. */
  lemma NewBookingRoundTrip(b: Booking)
    requires b.tenantMessage != ""
    requires IsObjectId(b.listing) && IsObjectId(b.landlord) && IsObjectId(b.tenant)
    ensures NewBooking(b.id, FieldsOf(b)) == Ok(b)
  {
    StatusRoundTrip(b.status, b.status);
  }

  /** Without a status, a complete payload creates a pending booking. */
  lemma DefaultsToPending(id: Id, p: BookingFields)
    requires HasRequiredFields(p) && CastsReferences(p) && p.status.None?
    ensures NewBooking(id, p).Ok? && NewBooking(id, p).value.status == Pending
  {
  }

  /** Each required path on its own is enough to make creation fail. */
  lemma NewBookingNeedsEach(id: Id, p: BookingFields)
    ensures NewBooking(id, p.(listing := None)).Err?
    ensures NewBooking(id, p.(landlord := None)).Err?
    ensures NewBooking(id, p.(tenant := None)).Err?
    ensures NewBooking(id, p.(tenantMessage := None)).Err?
    ensures NewBooking(id, p.(checkInDate := None)).Err?
    ensures NewBooking(id, p.(checkOutDate := None)).Err?
  {
  }

  /** A reference that is not a well-formed id makes creation fail. */
  lemma NewBookingRejectsMalformedReference(id: Id, p: BookingFields, bad: string)
    requires !IsObjectId(bad)
    ensures NewBooking(id, p.(listing := Some(bad))).Err?
    ensures NewBooking(id, p.(landlord := Some(bad))).Err?
    ensures NewBooking(id, p.(tenant := Some(bad))).Err?
  {
  }

  /** A check-out date before the check-in date is accepted. */
  lemma NoDateOrdering(id: Id, listing: Id, landlord: Id, tenant: Id)
    requires IsObjectId(listing) && IsObjectId(landlord) && IsObjectId(tenant)
    ensures NewBooking(id, BookingFields(Some(listing), Some(landlord), Some(tenant), Some("hello"),
                                         None, Some(20), Some(10))).Ok?
  {
  }
}
