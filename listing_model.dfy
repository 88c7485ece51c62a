/** The Listing schema: the stored record, the partial record that create
    and update payloads carry, and the schema's required-field rules. */
module ListingModel {
  import opened Common
  import opened Text

  /** A stored listing. Rent and bedroom counts are JavaScript numbers in the
      service code and integers here; the schema puts no sign constraint on them. */
  datatype Listing = Listing(
    id: Id,
    location: string,
    description: string,
    rentAmount: int,
    bedrooms: int,
    images: seq<string>,
    amenities: seq<string>,
    landlord: Id)

  /** A partial listing, as a creation payload or an update payload carries
      it: every field may be absent. */
  datatype ListingFields = ListingFields(
    location: Option<string>,
    description: Option<string>,
    rentAmount: Option<int>,
    bedrooms: Option<int>,
    images: Option<seq<string>>,
    amenities: Option<seq<string>>,
    landlord: Option<Id>)

  const NoFields := ListingFields(None, None, None, None, None, None, None)

  /** The schema's required paths: location, description, rent, bedrooms and
      the landlord reference. Images and amenities are optional lists. */
  predicate HasRequiredFields(p: ListingFields) {
    && RequiredText(p.location)
    && RequiredText(p.description)
    && p.rentAmount.Some?
    && p.bedrooms.Some?
    && p.landlord.Some?
  }

  /** The landlord path is an ObjectId: `create` casts a supplied landlord,
      and a string that is not a well-formed id fails validation. */
  predicate CastsReferences(p: ListingFields) {
    p.landlord.Some? ==> IsObjectId(p.landlord.value)
  }

  /** Every field that `p` supplies has that value in `l`. */
  predicate Carries(l: Listing, p: ListingFields) {
    && (p.location.Some? ==> l.location == p.location.value)
    && (p.description.Some? ==> l.description == p.description.value)
    && (p.rentAmount.Some? ==> l.rentAmount == p.rentAmount.value)
    && (p.bedrooms.Some? ==> l.bedrooms == p.bedrooms.value)
    && (p.images.Some? ==> l.images == p.images.value)
    && (p.amenities.Some? ==> l.amenities == p.amenities.value)
    && (p.landlord.Some? ==> l.landlord == p.landlord.value)
  }

  /** The complete payload that describes `l`. */
  function FieldsOf(l: Listing): ListingFields {
    ListingFields(Some(l.location), Some(l.description), Some(l.rentAmount), Some(l.bedrooms),
                  Some(l.images), Some(l.amenities), Some(l.landlord))
  }

  /** `Listing.create(payload)` with the new id `id`: the schema rejects a
      payload without a required field or with a malformed landlord; otherwise the document carries the
      payload, with the optional lists empty when absent. */
  function NewListing(id: Id, p: ListingFields): (r: Result<Listing>)
    ensures r.Ok? <==> HasRequiredFields(p) && CastsReferences(p)
    ensures r.Err? ==> r.error == ValidationFailed
    ensures r.Ok? ==> r.value.id == id && Carries(r.value, p)
    ensures r.Ok? && p.images.None? ==> r.value.images == []
    ensures r.Ok? && p.amenities.None? ==> r.value.amenities == []
  {
    if HasRequiredFields(p) && CastsReferences(p) then
      Ok(Listing(id, p.location.value, p.description.value, p.rentAmount.value, p.bedrooms.value,
                 p.images.GetOr([]), p.amenities.GetOr([]), p.landlord.value))
    else
      Err(ValidationFailed)
  }

  /** `findByIdAndUpdate(id, patch)` on one document whose patch has been cast:
      the supplied fields are overwritten, every other field and the id are
      kept. No schema validator runs on an update, but the values are still
      cast, so a malformed landlord fails before this point (see
      `ListingStore.UpdateListing`). */
  function Apply(l: Listing, p: ListingFields): (r: Listing)
    ensures r.id == l.id && Carries(r, p)
    ensures p.location.None? ==> r.location == l.location
    ensures p.description.None? ==> r.description == l.description
    ensures p.rentAmount.None? ==> r.rentAmount == l.rentAmount
    ensures p.bedrooms.None? ==> r.bedrooms == l.bedrooms
    ensures p.images.None? ==> r.images == l.images
    ensures p.amenities.None? ==> r.amenities == l.amenities
    ensures p.landlord.None? ==> r.landlord == l.landlord
  {
    Listing(l.id, p.location.GetOr(l.location), p.description.GetOr(l.description),
            p.rentAmount.GetOr(l.rentAmount), p.bedrooms.GetOr(l.bedrooms),
            p.images.GetOr(l.images), p.amenities.GetOr(l.amenities), p.landlord.GetOr(l.landlord))
  }

  /** Creating from the complete description of a listing gives that listing
      back, provided its text fields are non-empty and its landlord is a
      well-formed id. */
  lemma NewListingRoundTrip(l: Listing)
    requires l.location != "" && l.description != "" && IsObjectId(l.landlord)
    ensures NewListing(l.id, FieldsOf(l)) == Ok(l)
  {
  }

  /** Each required field on its own is enough to make creation fail. */
  lemma NewListingNeedsEach(id: Id, p: ListingFields)
    ensures NewListing(id, p.(location := None)).Err?
    ensures NewListing(id, p.(location := Some(""))).Err?
    ensures NewListing(id, p.(description := None)).Err?
    ensures NewListing(id, p.(rentAmount := None)).Err?
    ensures NewListing(id, p.(bedrooms := None)).Err?
    ensures NewListing(id, p.(landlord := None)).Err?
  {
  }

  /** Images and amenities may be omitted, and negative numbers are accepted. */
  lemma NewListingOptionalLists(id: Id, landlord: Id)
    requires IsObjectId(landlord)
    ensures NewListing(id, ListingFields(Some("Downtown"), Some("flat"), Some(-1), Some(-2), None, None,
                                         Some(landlord))).Ok?
  {
  }

  /** A landlord that is not a well-formed id makes creation fail. */
  lemma NewListingRejectsMalformedLandlord(id: Id, p: ListingFields, bad: string)
    requires !IsObjectId(bad)
    ensures NewListing(id, p.(landlord := Some(bad))).Err?
  {
  }

  /** An empty patch changes nothing, and applying a patch twice is applying
      it once. */
  lemma ApplyNothingAndTwice(l: Listing, p: ListingFields)
    ensures Apply(l, NoFields) == l
    ensures Apply(Apply(l, p), p) == Apply(l, p)
  {
  }

  /** A complete patch replaces every field but the id. */
  lemma ApplyEverything(l: Listing, m: Listing)
    ensures Apply(l, FieldsOf(m)) == m.(id := l.id)
  {
  }
}
