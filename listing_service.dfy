/** The listing service: the filter document built from the query options,
    paginated search (public and landlord-scoped), and lookup, update and
    delete by id over the listing collection. */
module ListingService {
  import opened Common
  import opened Store
  import opened Text
  import opened ListingModel

  /** The query options of a listing search; every option may be absent. */
  datatype ListingQuery = ListingQuery(
    location: Option<string>,
    bedrooms: Option<int>,
    minRent: Option<int>,
    maxRent: Option<int>,
    page: Option<int>,
    limit: Option<int>)
  {
    /** `page = 1` is a destructuring default: it applies only when the
        option is absent, so a supplied 0 stays 0. */
    function PageNumber(): int {
      page.GetOr(1)
    }

    /** `limit = 10`, a destructuring default like `page`. */
    function PageSize(): int {
      limit.GetOr(10)
    }
  }

  /** A query with no options at all. */
  const NoOptions := ListingQuery(None, None, None, None, None, None)

  /** The bedrooms clause of a filter document: a plain value or `$gte`. */
  datatype BedroomClause = Exactly(count: int) | AtLeast(min: int)

  /** The rentAmount clause: `$gte` and `$lte`, each possibly absent. */
  datatype RentRange = RentRange(gte: Option<int>, lte: Option<int>)

  /** The filter document handed to the store; an absent field is a key the
      document does not have. */
  datatype ListingFilter = ListingFilter(
    landlord: Option<Id>,
    location: Option<string>,
    bedrooms: Option<BedroomClause>,
    rentAmount: Option<RentRange>)

  /** How the store evaluates a filter document: every key present must hold,
      and the landlord key is cast to an ObjectId before it is compared. A
      rentAmount clause with neither bound never arises, because `getAllListings`
      adds the clause only when some bound is given; it is read here as
      matching nothing. */
  predicate Matches(f: ListingFilter, l: Listing) {
    && (f.landlord.Some? ==> SameObjectId(l.landlord, f.landlord.value))
    && (f.location.Some? ==> ContainsIgnoringCase(l.location, f.location.value))
    && (match f.bedrooms
        case None => true
        case Some(Exactly(n)) => l.bedrooms == n
        case Some(AtLeast(n)) => l.bedrooms >= n)
    && (match f.rentAmount
        case None => true
        case Some(range) =>
          && (range.gte.Some? || range.lte.Some?)
          && (range.gte.Some? ==> l.rentAmount >= range.gte.value)
          && (range.lte.Some? ==> l.rentAmount <= range.lte.value))
  }

  /** The location option: only a non-empty text constrains, and then the
      listing's location must contain it, ignoring case. */
  predicate LocationWanted(q: ListingQuery, l: Listing) {
    q.location.None? || q.location.value == "" || ContainsIgnoringCase(l.location, q.location.value)
  }

  /** The bedrooms option: below 4 it asks for exactly that many bedrooms;
      from 4 on it asks for at least that many (so 5 means five or more). */
  predicate BedroomsWanted(q: ListingQuery, l: Listing) {
    match q.bedrooms
    case None => true
    case Some(n) => if n < 4 then l.bedrooms == n else l.bedrooms >= n
  }

  /** The rent options: an inclusive range whose two ends apply independently. */
  predicate RentWanted(q: ListingQuery, l: Listing) {
    && (q.minRent.None? || q.minRent.value <= l.rentAmount)
    && (q.maxRent.None? || l.rentAmount <= q.maxRent.value)
  }

  /** What a search asks for: the conjunction of its options, and the fixed
      landlord when the search is landlord-scoped. */
  predicate Wanted(landlord: Option<Id>, q: ListingQuery, l: Listing) {
    && (landlord.None? || SameObjectId(l.landlord, landlord.value))
    && LocationWanted(q, l)
    && BedroomsWanted(q, l)
    && RentWanted(q, l)
  }

  function WantedBy(landlord: Option<Id>, q: ListingQuery): Listing -> bool {
    (l: Listing) => Wanted(landlord, q, l)
  }

  function FoundBy(f: ListingFilter): Listing -> bool {
    (l: Listing) => Matches(f, l)
  }

  function OwnedBy(landlord: Id): Listing -> bool {
    (l: Listing) => SameObjectId(l.landlord, landlord)
  }

  function OtherThan(id: Id): Listing -> bool {
    (l: Listing) => l.id != id
  }

  /** The listings of `s`, in order, that the search asks for. */
  function Matching(s: seq<Listing>, landlord: Option<Id>, q: ListingQuery): seq<Listing> {
    Filter(s, WantedBy(landlord, q))
  }

  /** `Listing.find(filter)` over the documents `s`, in order. */
  function Find(s: seq<Listing>, f: ListingFilter): seq<Listing> {
    Filter(s, FoundBy(f))
  }

  /** Builds the filter document key by key, as `getAllListings` does: the landlord
      (for the landlord-scoped search), the location when the text is
      non-empty, the tiered bedrooms clause, and a rent range only when some
      bound is supplied. The store then selects exactly what the query asks for. */
  method BuildFilter(landlord: Option<Id>, q: ListingQuery) returns (f: ListingFilter)
    ensures f.landlord == landlord
    ensures forall l :: Matches(f, l) <==> Wanted(landlord, q, l)
  {
    f := ListingFilter(landlord, None, None, None);
    if q.location.Some? && q.location.value != "" {
      f := f.(location := q.location);
    }
    if q.bedrooms.Some? {
      if q.bedrooms.value < 4 {
        f := f.(bedrooms := Some(Exactly(q.bedrooms.value)));
      } else {
        f := f.(bedrooms := Some(AtLeast(q.bedrooms.value)));
      }
    }
    if q.minRent.Some? || q.maxRent.Some? {
      var range := RentRange(None, None);
      if q.minRent.Some? {
        range := range.(gte := q.minRent);
      }
      if q.maxRent.Some? {
        range := range.(lte := q.maxRent);
      }
      f := f.(rentAmount := Some(range));
    }
  }

  /** A page of search results with its metadata. */
  datatype ListingPage = ListingPage(listings: seq<Listing>, metadata: Metadata)

  /** Every document is stored under its own id, and its landlord is a
      well-formed id, since creation and update cast it. */
  predicate WellStored(m: map<Id, Listing>) {
    forall k | k in m :: m[k].id == k && IsObjectId(m[k].landlord)
  }

  /** The listing collection: documents by id, and the ids in insertion order. */
  class ListingStore {
    var listings: map<Id, Listing>
    var order: seq<Id>

    /** The index is sound and every document is well stored. */
    ghost predicate Valid()
      reads this
    {
      Indexed(listings, order) && WellStored(listings)
    }

    /** The stored listings in insertion order, the order the model
        assumes an unsorted `find` returns. */
    function Contents(): (s: seq<Listing>)
      reads this
      requires Valid()
      ensures |s| == |order|
    {
      InOrder(listings, order)
    }

    constructor ()
      ensures Valid() && listings == map[] && order == []
    {
      listings := map[];
      order := [];
    }

    /** `createListing` with the caller injected as landlord, overriding any
        landlord in the body. On success the new listing, with a fresh id, is
        appended to the collection. */
    method CreateListing(payload: ListingFields, landlordId: Id) returns (r: Result<Listing>)
      requires Valid()
      modifies this
      ensures Valid()
      ensures r == NewListing(FreshId(old(order)), payload.(landlord := Some(landlordId)))
      ensures r.Ok? ==> r.value.landlord == landlordId && r.value.id !in old(listings)
      ensures r.Ok? ==> listings == old(listings)[r.value.id := r.value] && order == old(order) + [r.value.id]
      ensures r.Ok? ==> Contents() == old(Contents()) + [r.value]
      ensures r.Err? ==> listings == old(listings) && order == old(order)
    {
      var id := FreshId(order);
      r := NewListing(id, payload.(landlord := Some(landlordId)));
      if r.Ok? {
        Insert(listings, order, id, r.value);
        listings := listings[id := r.value];
        order := order + [id];
      }
    }

    /** `getAllListings`: the page `PageNumber()` of size `PageSize()` of the
        listings the query asks for, and the total number of them. */
    method GetAllListings(q: ListingQuery) returns (r: ListingPage)
      requires Valid() && q.PageNumber() >= 1 && q.PageSize() >= 1
      ensures r.listings == Page(Matching(Contents(), None, q), q.PageNumber(), q.PageSize())
      ensures r.metadata == Metadata(|Matching(Contents(), None, q)|, q.PageNumber(), q.PageSize())
    {
      r := Search(None, q);
    }

    /** `getAllListingsForLandlord`: the same search restricted to one landlord. */
    method GetAllListingsForLandlord(landlordId: Id, q: ListingQuery) returns (r: ListingPage)
      requires Valid() && q.PageNumber() >= 1 && q.PageSize() >= 1
      ensures r.listings == Page(Matching(Contents(), Some(landlordId), q), q.PageNumber(), q.PageSize())
      ensures r.metadata == Metadata(|Matching(Contents(), Some(landlordId), q)|, q.PageNumber(), q.PageSize())
      ensures !IsObjectId(landlordId) ==> r.listings == [] && r.metadata.total == 0
    {
      r := Search(Some(landlordId), q);
      if !IsObjectId(landlordId) {
        MalformedLandlordFindsNothing(landlordId, q);
      }
    }

    /** The search both variants share: build the filter, find, skip and
        limit, count. */
    method Search(landlord: Option<Id>, q: ListingQuery) returns (r: ListingPage)
      requires Valid() && q.PageNumber() >= 1 && q.PageSize() >= 1
      ensures r.listings == Page(Matching(Contents(), landlord, q), q.PageNumber(), q.PageSize())
      ensures r.metadata == Metadata(|Matching(Contents(), landlord, q)|, q.PageNumber(), q.PageSize())
    {
      var f := BuildFilter(landlord, q);
      var page, limit := q.PageNumber(), q.PageSize();
      var found := Find(Contents(), f);
      FilterCongruent(Contents(), FoundBy(f), WantedBy(landlord, q));
      var total := |found|;
      r := ListingPage(Page(found, page, limit), Metadata(total, page, limit));
    }

    /** `getListingById`: the stored listing, or NotFound. */
    method GetListingById(id: Id) returns (r: Result<Listing>)
      requires Valid()
      ensures r.Err? <==> id !in listings
      ensures r.Err? ==> r.error == NotFound
      ensures r.Ok? ==> r.value == listings[id] && r.value.id == id && r.value in Contents()
    {
      if id !in listings {
        return Err(NotFound);
      }
      r := Ok(listings[id]);
      ContentsHas(id);
    }

    /** `updateListing`: NotFound when the id is absent. A caller who is not
        the listing's landlord is only reported in the log, so the update
        goes ahead whoever `userId` is. `findByIdAndUpdate` casts the patch,
        so a landlord that is not a well-formed id fails and nothing is
        stored. Otherwise only this listing changes. */
    method UpdateListing(id: Id, patch: ListingFields, userId: Id) returns (r: Result<Listing>)
      requires Valid()
      modifies this
      ensures Valid()
      ensures r.Err? <==> id !in old(listings) || !CastsReferences(patch)
      ensures r.Err? ==> listings == old(listings) && order == old(order)
      ensures r.Err? ==> r.error == if id !in old(listings) then NotFound else ValidationFailed
      ensures r.Ok? ==> r.value == Apply(old(listings)[id], patch)
      ensures r.Ok? ==> listings == old(listings)[id := r.value] && order == old(order)
      ensures r.Ok? ==> forall i | 0 <= i < |order| ::
        Contents()[i] == if order[i] == id then r.value else old(Contents())[i]
    {
      if id !in listings {
        return Err(NotFound);
      }
      if !CastsReferences(patch) {
        return Err(ValidationFailed);
      }
      // The ownership test `listings[id].landlord != userId` only writes a
      // warning to the log; it never stops the update.
      var updated := Apply(listings[id], patch);
      listings := listings[id := updated];
      r := Ok(updated);
    }

    /** `deleteListing`: NotFound when the id is absent; otherwise exactly
        this listing leaves the collection and is returned. The ownership
        test only warns, as in the update. */
    method DeleteListing(id: Id, userId: Id) returns (r: Result<Listing>)
      requires Valid()
      modifies this
      ensures Valid()
      ensures r.Err? <==> id !in old(listings)
      ensures r.Err? ==> r.error == NotFound && listings == old(listings) && order == old(order)
      ensures r.Ok? ==> r.value == old(listings)[id]
      ensures r.Ok? ==> listings == old(listings) - {id} && order == Without(old(order), id)
      ensures r.Ok? ==> Contents() == Filter(old(Contents()), OtherThan(id))
    {
      if id !in listings {
        return Err(NotFound);
      }
      r := Ok(listings[id]);
      RemoveInOrder(listings, order, id, OtherThan(id));
      assert WellStored(listings - {id});
      listings := listings - {id};
      order := Without(order, id);
    }

    /** Every stored landlord is a well-formed id, so a landlord-scoped
        search by a malformed id finds nothing. */
    lemma MalformedLandlordFindsNothing(landlord: Id, q: ListingQuery)
      requires Valid() && !IsObjectId(landlord)
      ensures Matching(Contents(), Some(landlord), q) == []
    {
      var s := Contents();
      forall i | 0 <= i < |s| ensures !WantedBy(Some(landlord), q)(s[i]) {
        assert s[i] == listings[order[i]];
        if SameObjectId(s[i].landlord, landlord) {
          SameObjectIdKeepsWellFormed(s[i].landlord, landlord);
        }
      }
      FilterNone(s, WantedBy(Some(landlord), q));
    }

    /** A stored id's listing is among the contents. */
    lemma ContentsHas(id: Id)
      requires Valid() && id in listings
      ensures listings[id] in Contents()
    {
      var i :| 0 <= i < |order| && order[i] == id;
      assert Contents()[i] == listings[id];
    }
  }

  /** The landlord-scoped search selects, among what the public search
      selects, exactly the landlord's own listings. */
  lemma {:induction false} LandlordSearchRefinesPublic(s: seq<Listing>, landlord: Id, q: ListingQuery)
    ensures Matching(s, Some(landlord), q) == Filter(Matching(s, None, q), OwnedBy(landlord))
    ensures forall l | l in Matching(s, Some(landlord), q) :: SameObjectId(l.landlord, landlord)
  {
    FilterFilter(s, WantedBy(None, q), OwnedBy(landlord), WantedBy(Some(landlord), q));
  }

  /** Every listing on any page of the landlord-scoped search belongs to that landlord. */
  lemma LandlordPageIsOwn(s: seq<Listing>, landlord: Id, q: ListingQuery, page: int, limit: int)
    requires page >= 1 && limit >= 1
    ensures forall l | l in Page(Matching(s, Some(landlord), q), page, limit) :: SameObjectId(l.landlord, landlord)
  {
    forall l | l in Page(Matching(s, Some(landlord), q), page, limit) ensures SameObjectId(l.landlord, landlord) {
      PageWithin(Matching(s, Some(landlord), q), page, limit, l);
    }
  }

  /** The matches, and so `metadata.total`, do not depend on `page` or `limit`. */
  lemma MatchingIgnoresPaging(s: seq<Listing>, landlord: Option<Id>, q: ListingQuery, page: Option<int>, limit: Option<int>)
    ensures Matching(s, landlord, q.(page := page, limit := limit)) == Matching(s, landlord, q)
  {
    FilterCongruent(s, WantedBy(landlord, q.(page := page, limit := limit)), WantedBy(landlord, q));
  }

  /** With no options every listing matches, and the answer is the first ten
      listings of the collection, in order. */
  lemma NoOptionsFirstTen(s: seq<Listing>)
    ensures NoOptions.PageNumber() == 1 && NoOptions.PageSize() == 10
    ensures Matching(s, None, NoOptions) == s
    ensures Page(Matching(s, None, NoOptions), 1, 10) == s[..Min(10, |s|)]
  {
    FilterAll(s, WantedBy(None, NoOptions));
  }

  /** The matches of a collection split at any point are the matches of the
      two parts, in the same order. */
  lemma MatchingKeepsOrder(a: seq<Listing>, b: seq<Listing>, landlord: Option<Id>, q: ListingQuery)
    ensures Matching(a + b, landlord, q) == Matching(a, landlord, q) + Matching(b, landlord, q)
  {
    FilterAppend(a, b, WantedBy(landlord, q));
  }

  /** The bedroom tiers act on the literal value: bedrooms = 5 does not pick
      a four-bedroom listing, while bedrooms = 4 does. */
  lemma BedroomTierUsesLiteralValue(l: Listing)
    requires l.bedrooms == 4
    ensures Wanted(None, NoOptions.(bedrooms := Some(4)), l)
    ensures !Wanted(None, NoOptions.(bedrooms := Some(5)), l)
    ensures !Wanted(None, NoOptions.(bedrooms := Some(3)), l)
  {
  }

  /** Supplying only one rent bound leaves the other side open. */
  lemma RentBoundsIndependent(l: Listing, min: int, max: int)
    ensures Wanted(None, NoOptions.(minRent := Some(min)), l) <==> min <= l.rentAmount
    ensures Wanted(None, NoOptions.(maxRent := Some(max)), l) <==> l.rentAmount <= max
    ensures Wanted(None, NoOptions.(minRent := Some(min), maxRent := Some(max)), l) <==> min <= l.rentAmount <= max
  {
  }

  /** A four-bedroom downtown listing at 1200: found by bedrooms = 4 and by
      the location "down" in any case; missed by bedrooms = 3 and by
      minRent = 1300. */
  lemma DowntownScenario(id: Id, landlord: Id)
    ensures var l := Listing(id, "Downtown", "flat", 1200, 4, [], [], landlord);
      && Wanted(None, NoOptions.(bedrooms := Some(4)), l)
      && !Wanted(None, NoOptions.(bedrooms := Some(3)), l)
      && !Wanted(None, NoOptions.(minRent := Some(1300)), l)
      && Wanted(None, NoOptions.(location := Some("down")), l)
      && Wanted(None, NoOptions.(location := Some("DOWN")), l)
  {
    var l := Listing(id, "Downtown", "flat", 1200, 4, [], [], landlord);
    ContainsIgnoringCaseAt(l.location, "down");
    assert SameUpToCaseAt(l.location, "down", 0);
    ContainsIgnoringCaseAt(l.location, "DOWN");
    assert SameUpToCaseAt(l.location, "DOWN", 0);
  }
}
