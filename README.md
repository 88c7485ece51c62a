# Listing and booking services of the rental API, in Dafny

This project models the core of the Express/Mongoose REST API in
`apps/express-rest-api`. Landlords publish **listings**, tenants request
**bookings** on them, and a booking moves through five statuses. The model
covers these parts:

- **The two Mongoose schemas** (`common.dfy`, `listing_model.dfy`,
  `booking_model.dfy`).
  - Records are datatypes.
  - Creation payloads are records whose fields are all `Option`s.
  - The required-path rules decide whether `create` succeeds. Mongoose's
    `required` check on a String also rejects the empty string.
  - The booking status is an enum that is validated, defaulting to
    `pending`.
- **A keyed document collection** (`store.dfy`).
  - It is a `map` from id to document plus the ids in insertion order.
  - `find` is an order-preserving `Filter`. The database promises no order
    for a `find` without a sort; the model assumes insertion order, and
    every "in order" and page contract rests on that assumption.
  - `skip((page-1)*limit).limit(limit)` is `Page`.
  - Fresh ids come from `FreshId`.
- **The listing service** (`listing_service.dfy`).
  - `BuildFilter` builds the filter document key by key, as
    `getAllListings` does. Its contract ties the store's evaluation of
    that document (`Matches`) to an independent statement of what the
    query asks for (`Wanted`).
  - The listing collection is a class whose methods are the service
    operations.
- **The booking service** (`booking_service.dfy`): the status filter, the
  tenant- and landlord-scoped queries with id validation, and lookup,
  status update and delete.
- **The booking controller** (`booking_controller.dfy`): tenant injection,
  `Number(x) || d` defaulting, caller-scoped queries and status-only
  forwarding.
- **Text helpers** (`text.dfy`): ASCII case folding, case-insensitive
  substring search and the 24-hex-digit id shape.

Reference fields (`landlord`, `tenant`, `listing`) are id strings. `create`
and the listing update cast them to ObjectIds, so a reference that is not a
well-formed id makes the call fail (`CastsReferences`), and every stored
listing's landlord is well-formed (`ListingStore.Valid`). Queries by reference compare ObjectIds,
not spellings: two hex strings that differ only in letter case are the same
id (`Text.SameObjectId`). Dates are integer instants. Rent and bedroom
counts are integers.

The code is followed in two places where a reading of the comments might
differ:
- The comment at `listing.service.ts:44` speaks of "4" only. The code
  applies `$gte` with the literal value to every value from 4 on, so a query
  for 5 bedrooms means "five or more" (`BedroomTierUsesLiteralValue`).
- `createBooking` spreads the whole request body into the payload. A body
  `status` therefore reaches `Booking.create` and is validated by the
  schema's enum. Only an absent status gives `pending` (`NewBooking`,
  `DefaultsToPending`).

## Model

| member | source | states |
|---|---|---|
| Store.Filter | apps/express-rest-api/src/app/modules/listing/listing.service.ts:68 | `find(filter)` keeps exactly the documents that satisfy the filter, and never more than there are |
| Store.FilterAppend | apps/express-rest-api/src/app/modules/listing/listing.service.ts:68 | `find` preserves the collection order: the matches of a concatenation are the matches of each part, in sequence |
| Store.FilterFilter | apps/express-rest-api/src/app/modules/listing/listing.service.ts:105 | adding one more conjunct to a filter is filtering the earlier result again |
| Store.Page | apps/express-rest-api/src/app/modules/listing/listing.service.ts:65-68 | with page ≥ 1 and limit ≥ 1 the skip is non-negative, at most `limit` items come back, exactly `min(limit, n - skip)` of them, and item k is match `skip + k` |
| Store.PageCovers | apps/express-rest-api/src/app/modules/listing/listing.service.ts:65-68 | the pages partition the matches: match i sits at position `i mod limit` of page `i div limit + 1` |
| Store.PageWithin | apps/express-rest-api/src/app/modules/listing/listing.service.ts:68 | every item of a page is one of the matches |
| Store.FreshId | apps/express-rest-api/src/app/modules/booking/booking.model.ts:7 | the generated id differs from every id already in the collection |
| Store.Insert | apps/express-rest-api/src/app/modules/booking/booking.service.ts:11 | inserting a new document under a fresh id appends it to the ordered contents and leaves the rest in place |
| Store.RemoveInOrder | apps/express-rest-api/src/app/modules/booking/booking.service.ts:108 | removing one id from the collection removes exactly the documents with that id from the ordered contents |
| Text.ContainsIgnoringCaseAt | apps/express-rest-api/src/app/modules/listing/listing.service.ts:38-40 | a location matches the `$options: 'i'` text exactly when some window of it equals the text up to ASCII case |
| Text.SameObjectIdUpToCase | apps/express-rest-api/src/app/modules/booking/booking.service.ts:54-56 | two id spellings name the same ObjectId exactly when they have the same length and agree letter by letter up to case |
| Text.CaseOfNeedleIrrelevant | apps/express-rest-api/src/app/modules/listing/listing.service.ts:39 | the case of the searched text does not change which locations match |
| ListingModel.NewListing | apps/express-rest-api/src/app/modules/listing/listing.model.ts:5-42 | creation succeeds exactly when location and description are non-empty, rent, bedrooms and landlord are present and the landlord is a well-formed id (otherwise ValidationFailed); the new document keeps the given id, carries every supplied field, and gets empty image and amenity lists when those are absent |
| ListingModel.NewListingRoundTrip | apps/express-rest-api/src/app/modules/listing/listing.model.ts:5-42 | creating from the full description of a listing gives that listing back |
| ListingModel.NewListingNeedsEach | apps/express-rest-api/src/app/modules/listing/listing.model.ts:7-37 | dropping any one required path, or giving an empty location, makes creation fail whatever the rest of the payload is |
| ListingModel.NewListingOptionalLists | apps/express-rest-api/src/app/modules/listing/listing.model.ts:15-32 | images and amenities may be omitted, and negative rent or bedroom counts are accepted |
| ListingModel.NewListingRejectsMalformedLandlord | apps/express-rest-api/src/app/modules/listing/listing.model.ts:33-37 | a landlord that is not a well-formed id makes creation fail whatever the rest of the payload is |
| ListingModel.Apply | apps/express-rest-api/src/app/modules/listing/listing.service.ts:181 | an update of a document, once its patch has been cast, keeps the id, sets every supplied field and leaves every unsupplied field as it was |
| ListingModel.ApplyNothingAndTwice | apps/express-rest-api/src/app/modules/listing/listing.service.ts:181 | an empty patch is the identity and applying a patch is idempotent |
| ListingModel.ApplyEverything | apps/express-rest-api/src/app/modules/listing/listing.service.ts:181 | a complete patch replaces every field but the id |
| ListingService.BuildFilter | apps/express-rest-api/src/app/modules/listing/listing.service.ts:31-62 | the filter document it builds matches a listing exactly when the listing is wanted: the landlord when scoped; a location containing the non-empty text without regard to case; exactly n bedrooms for n < 4 and at least n for n ≥ 4; rent within whichever bounds are given |
| ListingService.ListingStore.CreateListing | apps/express-rest-api/src/app/modules/listing/listing.service.ts:8-15 | the caller becomes the landlord whatever the body says; on success one listing with a fresh id is appended and nothing else changes; on failure nothing changes |
| ListingService.ListingStore.Search | apps/express-rest-api/src/app/modules/listing/listing.service.ts:28-80 | the result is the requested page of the wanted listings in store order; `total` counts all of them; page and limit are echoed |
| ListingService.ListingStore.GetAllListings | apps/express-rest-api/src/app/modules/listing/listing.service.ts:18-82 | the page of the listings the query asks for, with the total count of matches and the page and limit echoed |
| ListingService.ListingStore.GetAllListingsForLandlord | apps/express-rest-api/src/app/modules/listing/listing.service.ts:84-151 | the same as the public search with the landlord fixed and compared as an ObjectId; a malformed landlord id gives no listings and a total of 0 |
| ListingService.ListingStore.GetListingById | apps/express-rest-api/src/app/modules/listing/listing.service.ts:154-160 | NotFound exactly when the id is absent; otherwise the stored listing with that id |
| ListingService.ListingStore.UpdateListing | apps/express-rest-api/src/app/modules/listing/listing.service.ts:163-186 | NotFound when the id is absent and ValidationFailed when the patch's landlord is not a well-formed id, both leaving the store unchanged; otherwise, whoever the caller is, the patched listing is stored and returned, and every other listing and the order are unchanged |
| ListingService.ListingStore.MalformedLandlordFindsNothing | apps/express-rest-api/src/app/modules/listing/listing.service.ts:105-141 | every stored landlord is a well-formed id, so a landlord-scoped search by a malformed id matches no listing |
| ListingService.ListingStore.DeleteListing | apps/express-rest-api/src/app/modules/listing/listing.service.ts:189-207 | NotFound exactly when the id is absent, whoever the caller is; otherwise that listing is returned and the new contents are the old ones without it, in order |
| ListingService.LandlordSearchRefinesPublic | apps/express-rest-api/src/app/modules/listing/listing.service.ts:105-132 | the landlord-scoped matches are the public matches restricted to the landlord's own listings |
| ListingService.LandlordPageIsOwn | apps/express-rest-api/src/app/modules/listing/listing.service.ts:138 | every listing on every page of the landlord-scoped search belongs to that landlord |
| ListingService.MatchingIgnoresPaging | apps/express-rest-api/src/app/modules/listing/listing.service.ts:72 | the matches, and so `total`, do not depend on page or limit |
| ListingService.NoOptionsFirstTen | apps/express-rest-api/src/app/modules/listing/listing.service.ts:28 | with no options the page is 1, the limit is 10, everything matches and the answer is the first ten listings in order |
| ListingService.MatchingKeepsOrder | apps/express-rest-api/src/app/modules/listing/listing.service.ts:68 | the search result respects store order |
| ListingService.BedroomTierUsesLiteralValue | apps/express-rest-api/src/app/modules/listing/listing.service.ts:45-51 | a four-bedroom listing is found by bedrooms = 4 but not by 3 or by 5 |
| ListingService.RentBoundsIndependent | apps/express-rest-api/src/app/modules/listing/listing.service.ts:54-62 | either rent bound on its own leaves the other side open; both together form an inclusive range |
| ListingService.DowntownScenario | apps/express-rest-api/src/app/modules/listing/listing.service.ts:38-62 | a four-bedroom downtown listing at 1200 is found by bedrooms 4 and by "down" in either case, and missed by bedrooms 3 and by minRent 1300 |
| BookingModel.ParseStatus | apps/express-rest-api/src/app/modules/booking/booking.model.ts:12 | the enum validator accepts a string exactly when it is the value of one of the five statuses, and then gives that status |
| BookingModel.StatusRoundTrip | apps/express-rest-api/src/app/modules/booking/booking.interface.ts:3-9 | every status survives the trip through its string value, and the five values are distinct |
| BookingModel.NewBooking | apps/express-rest-api/src/app/modules/booking/booking.model.ts:5-17 | creation succeeds exactly when the three references, a non-empty message and both dates are present, each reference is a well-formed id and any status given is a valid value (otherwise ValidationFailed); the booking carries every field; an absent status is `pending` |
| BookingModel.NewBookingRoundTrip | apps/express-rest-api/src/app/modules/booking/booking.model.ts:5-17 | creating from the full description of a booking gives that booking back |
| BookingModel.DefaultsToPending | apps/express-rest-api/src/app/modules/booking/booking.model.ts:12 | a complete payload without a status creates a pending booking |
| BookingModel.NewBookingNeedsEach | apps/express-rest-api/src/app/modules/booking/booking.model.ts:8-14 | dropping any one of listing, landlord, tenant, message or either date makes creation fail |
| BookingModel.NewBookingRejectsMalformedReference | apps/express-rest-api/src/app/modules/booking/booking.model.ts:8-10 | a listing, landlord or tenant that is not a well-formed id makes creation fail whatever the rest of the payload is |
| BookingModel.NoDateOrdering | apps/express-rest-api/src/app/modules/booking/booking.model.ts:13-14 | a check-out date before the check-in date is accepted |
| BookingService.BuildFilter | apps/express-rest-api/src/app/modules/booking/booking.service.ts:18-23 | the filter matches a booking exactly when the status text is absent or empty, or equals the booking's status value |
| BookingService.BookingStore.CreateBooking | apps/express-rest-api/src/app/modules/booking/booking.service.ts:10-13 | on success one booking with a fresh id and the payload's fields is appended and existing bookings are untouched; on failure nothing changes |
| BookingService.BookingStore.GetAllBookings | apps/express-rest-api/src/app/modules/booking/booking.service.ts:16-45 | the requested page of the bookings with the requested status, in store order, with the total count of matches and the page and limit echoed |
| BookingService.BookingStore.GetAllBookingsForTenant | apps/express-rest-api/src/app/modules/booking/booking.service.ts:48-62 | InvalidArgument exactly when the id is not a well-formed id; otherwise every booking whose tenant is the same ObjectId, unpaginated, in order |
| BookingService.BookingStore.GetAllBookingsForLandlord | apps/express-rest-api/src/app/modules/booking/booking.service.ts:65-81 | InvalidArgument exactly when the id is not a well-formed id; otherwise every booking whose landlord is the same ObjectId, unpaginated, in order |
| BookingService.BookingStore.GetBookingById | apps/express-rest-api/src/app/modules/booking/booking.service.ts:84-90 | NotFound exactly when the id is absent; otherwise the stored booking |
| BookingService.BookingStore.UpdateBookingStatus | apps/express-rest-api/src/app/modules/booking/booking.service.ts:93-104 | NotFound exactly when the id is absent; otherwise the status becomes the given one, whatever it was, and no other field, booking or position changes |
| BookingService.BookingStore.DeleteBooking | apps/express-rest-api/src/app/modules/booking/booking.service.ts:107-113 | NotFound exactly when the id is absent; otherwise that booking is returned and the new contents are the old ones without it, in order |
| BookingService.NoStatusSelectsAll | apps/express-rest-api/src/app/modules/booking/booking.service.ts:21-23 | an absent or empty status selects every booking |
| BookingService.StatusFilterIsExact | apps/express-rest-api/src/app/modules/booking/booking.service.ts:21-23 | a status value selects exactly the bookings in that status |
| BookingService.UnknownStatusSelectsNothing | apps/express-rest-api/src/app/modules/booking/booking.service.ts:21-22 | a non-empty text that is not a status value selects no booking |
| BookingService.LandlordQueryIgnoresHexCase | apps/express-rest-api/src/app/modules/booking/booking.service.ts:71-73 | a booking stored with a lower-case landlord id is found by the upper-case spelling of that id, and not by a different id |
| BookingService.StatusThenLookup | apps/express-rest-api/src/app/modules/booking/booking.service.ts:93-113 | after a status update a lookup returns the new status; deleting then returns that booking, and a second delete of the same id fails with NotFound |
| BookingController.NumberOr | apps/express-rest-api/src/app/modules/booking/booking.controller.ts:28-29 | a missing, non-numeric or zero value gives the fallback; any other number, negatives included, is kept |
| BookingController.QueryOptions | apps/express-rest-api/src/app/modules/booking/booking.controller.ts:27-31 | page and limit are always set and never 0; the status is forwarded unchanged, possibly absent |
| BookingController.QueryDefaults | apps/express-rest-api/src/app/modules/booking/booking.controller.ts:28-29 | missing, zero and non-numeric values become page 1 and limit 10; a negative page is passed on |
| BookingController.CreatePayload | apps/express-rest-api/src/app/modules/booking/booking.controller.ts:11-14 | the tenant is always the caller, overriding the body; every other body field is kept |
| BookingController.CreateBooking | apps/express-rest-api/src/app/modules/booking/booking.controller.ts:9-23 | a booking created through the handler belongs to the caller as tenant and is appended to the collection |
| BookingController.GetAllBookings | apps/express-rest-api/src/app/modules/booking/booking.controller.ts:26-40 | the page of bookings with the requested status under the defaulted page and limit |
| BookingController.GetAllBookingsForTenant | apps/express-rest-api/src/app/modules/booking/booking.controller.ts:43-53 | InvalidArgument exactly when the caller's id is malformed; otherwise the bookings returned are exactly those whose tenant is the caller's ObjectId |
| BookingController.GetAllBookingsForLandlord | apps/express-rest-api/src/app/modules/booking/booking.controller.ts:56-66 | InvalidArgument exactly when the caller's id is malformed; otherwise the bookings returned are exactly those whose landlord is the caller's ObjectId |
| BookingController.UpdateBookingStatus | apps/express-rest-api/src/app/modules/booking/booking.controller.ts:82-93 | NotFound exactly when the id is absent, leaving the store unchanged; otherwise only the body's status reaches the booking: the stored booking differs from the old one in its status alone |
| BookingController.ConfirmAfterCreate | apps/express-rest-api/src/app/modules/booking/booking.controller.ts:9-93 | a booking created without a status is pending and the caller's; after confirming it, a lookup returns the confirmed booking |

## Left out

- Populating references (`populate`, `select: '-password'`), the `save()` after populate, and the `createdAt`/`updatedAt` timestamps: these are presentation and bookkeeping, so references stay plain ids.
- Regular-expression semantics of the location filter: the text is treated as a literal. Matching is case-insensitive substring search with ASCII case folding only. Regex metacharacters and Unicode case rules are not modelled.
- Floating-point numbers: rent, bedroom counts, page and limit are integers, and dates are integer instants.
- Store edge cases for pagination: `limit(0)` meaning "no limit", and the store error for a negative skip.
- ListingService.ListingStore.GetAllListings: requires page ≥ 1 and limit ≥ 1, because those store edge cases are not modelled. The same holds for `GetAllListingsForLandlord`, `Search` and `BookingService.BookingStore.GetAllBookings`.
- BookingController.GetAllBookings: requires the defaulted page and limit to be at least 1. A negative query value is passed on by the handler (`QueryDefaults`), but what the store does with it is not modelled.
- BookingController.UpdateBookingStatus: requires the body to hold one of the five status values, which the request validator for this route enforces. A body without a valid status is not modelled.
- `mongoose.Types.ObjectId.isValid` is approximated by `Text.IsObjectId`, which means exactly 24 hexadecimal digits. The library also accepts other shapes, such as 12-byte strings.
- The cast error that `findById`, `findByIdAndUpdate` and `findByIdAndDelete` raise for a malformed id: a document id here is just a key, so a malformed id is simply absent (NotFound). Lookups by document id compare the strings exactly, so a hex-case variant of a stored id is absent too.
- The cast error of the landlord-scoped listing search for a malformed `landlordId`: the model returns an empty page with a total of 0 instead (`MalformedLandlordFindsNothing`), since no stored landlord can equal a malformed id. The id comes from the authenticated caller, so it is not malformed in practice.
- The ObjectId reference test at creation uses the same 24-hex-digit approximation as `Text.IsObjectId`; a 12-character string, which the library also casts, is rejected here.
- The result order of an unsorted `find`: the database leaves it unspecified, and the model takes it to be insertion order. Pages and "in order" results are stated under that assumption.
- A client-supplied `_id` in a create body: the controllers spread the whole body into the payload, so a body `_id` would reach `create`, replace the generated id, and fail with a duplicate-key error when already in use. The creation payloads have no `_id` field, and creation always uses a fresh id.
- Id generation: `FreshId` (a run of zeros longer than every existing id) stands in for ObjectId generation. The model relies only on its freshness.
- The second NotFound in the listing update and delete (`listing.service.ts:182-184`, `203-205`), after the earlier `findById` check: it is only reachable under concurrent removal, because the model's calls are sequential.
- Concurrency: the gap between `findById` and the following update or delete is not modelled.
- Logging (`console.warn` on an ownership mismatch): the mismatch has no effect on the result, and the model records that the operation goes ahead whoever the caller is.
- Response plumbing: `sendResponse`, `asyncHandler`, `next()` and HTTP status codes.
- Raw query-string coercion: a query value is either missing, non-numeric text or an integer. Array-valued query parameters are not modelled.
- The `getBookingById` and `deleteBooking` handlers, and the listing controller: they pass their parameters straight to the service. The listing controller's landlord injection is the `landlordId` parameter of `ListingService.ListingStore.CreateListing`.
- The zod request schemas, the route files and their role checks: the role checks depend on authentication middleware that is not part of this model.
- The web front end, the ESLint configuration and the router that mounts the modules.
