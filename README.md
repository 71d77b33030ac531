# FastFarmer request–quote workflow, in Dafny

FastFarmer is a marketplace for farm machinery services, built on FastAPI. A
provider publishes listings. A client creates a work request on one of their
fields against an active listing. The listing's provider answers with priced
quotes. The client accepts exactly one quote: that closes the request and
rejects the other quotes still on offer.

This project models the four core files:

- the listings router, with its public catalogue (visibility, search, paging
  and the frontend shape) and the provider's own create, read, update and
  delete;
- the work-request router;
- the quote router, with its money arithmetic in integer cents;
- the validation of the quote request body.

The files are:

- `common.dfy`: ids, results and errors, the three states of a JSON field,
  ASCII case mapping, and newest-first selection.
- `money.dfy`: amounts in cents, and the `condecimal(12, 2)` check.
- `quote_schema.dfy`: the `QuoteItemIn` / `QuoteCreate` validator and its
  round trip.
- `records.dfy`: the rows, the database value `Db`, and the lifecycle
  invariant.
- `listings.dfy`, `requests.dfy`, `quotes.dfy`: one function per endpoint. It
  maps the database before the call to the response and the database after it
  (`Step`).
- `server.dfy`: the class `Database`. It holds the tables as fields, and its
  methods change them in place, one endpoint call at a time. Each method is
  proved to have exactly the effect of the endpoint's function, and to keep
  `Valid()`: well-formed tables plus the lifecycle invariant.

The lifecycle invariant has three parts:

- no request has two accepted quotes;
- an accepted quote's request is accepted;
- a quote still on offer belongs to a request that is open or quoted.

Every state-changing endpoint is proved to preserve it.

Ids are abstract numbers drawn from one counter, so a larger id means a later
`created_at`, and "newest first" is descending id. A null or absent body field
is `Null` or `Missing` (`Input`); `Missing` is what `exclude_unset` drops.

## Model

| member | source | states |
|---|---|---|
| Common.Newest | app/api/v1/requests.py:44-49 | the rows kept by a filter, every kept row exactly once, ordered newest first |
| Common.NewestFirst | app/api/v1/requests.py:47 | the ids of the kept rows below the counter, all of them, strictly decreasing |
| Common.OrElse | app/api/v1/listings.py:52-54 | Python's `x or default`: None and "" give the default, any other string is kept |
| Records.ProviderProfileOf | app/api/v1/quotes.py:17-21 | a user without a provider profile gets 403; otherwise the profile id |
| Records.ClientProfileOf | app/api/v1/requests.py:24-28 | a user without a client profile gets 403; otherwise the profile id |
| Money.ToCents | app/schemas/quotes.py:10-12 | a decimal is accepted exactly when it equals a whole number of cents of magnitude below 10^12, and is converted to it without rounding |
| Money.ToCentsFromCents | app/schemas/quotes.py:12 | any in-range amount written with two places is accepted as itself |
| Money.ToCentsIgnoresTrailingZero | app/schemas/quotes.py:12 | a trailing zero does not change acceptance or value (12.50 = 12.5) |
| QuoteSchema.ParseKind | app/schemas/quotes.py:7 | a string is a kind exactly when it is one of the four literal names |
| QuoteSchema.OptionalAmount | app/schemas/quotes.py:10-11 | an absent or null optional amount is None; a given one must pass the decimal check |
| QuoteSchema.ValidateItem | app/schemas/quotes.py:6-12 | an item is accepted iff its kind is absent or one of the four (absent gives base), its description is given, and its amounts pass; line_total is required; the accepted line total, quantity and unit price are the sent decimals in cents (absent or null gives None) |
| QuoteSchema.ValidateItems | app/schemas/quotes.py:18 | a list is accepted iff every item is, elementwise and in order |
| QuoteSchema.Validate | app/schemas/quotes.py:14-21 | accepted iff request_id is given, the currency is absent or three characters long, at least one item is sent and every item passes, and the transport fee passes; the accepted payload carries the validated items and fee, the currency defaults to EUR, and the absent or null optional fields (fee, message, expiry, surcharges) bind to None; every accepted payload conforms |
| QuoteSchema.ValidateEncodeItem | app/schemas/quotes.py:6-12 | every conforming item, written out as JSON, is accepted as itself |
| QuoteSchema.ValidateEncode | app/schemas/quotes.py:14-21 | round trip: every conforming payload, written out as JSON, is accepted as itself |
| Listings.Shape | app/api/v1/listings.py:48-59 | null title and description become ""; a null or empty stored status reads "active", any other status is passed on, so the status is never empty; the machine reference is passed on or null |
| Listings.Shapes | app/api/v1/listings.py:84 | one shaped row per row, in order |
| Listings.ContainsIffOccurs | app/api/v1/listings.py:75-79 | the substring test holds exactly when the pattern occurs at some position |
| Listings.Catalogue | app/api/v1/listings.py:70-81 | exactly the listings with status active or null that match the query, newest first |
| Listings.Page | app/api/v1/listings.py:72 | LIMIT/OFFSET: the rows from `offset` on, at most `limit` of them, in order |
| Listings.QueryOr | app/api/v1/listings.py:67-68 | a query parameter not sent takes its declared default, one sent is used as is |
| Listings.PublicListings | app/api/v1/listings.py:63-84 | `limit` defaults to 50 and `offset` to 0; 422 iff the resolved limit is outside 1..200 or the offset is negative; otherwise one shaped page of the catalogue, at most `limit` long, starting at `offset`; with neither sent, the first 50 shaped listings |
| Listings.PublicListingsShowActive | app/api/v1/listings.py:70-72 | every listing the public catalogue shows reads as "active" |
| Listings.PublicGetOne | app/api/v1/listings.py:87-95 | 404 iff the listing is missing or its status is neither null nor "active"; otherwise its shape |
| Listings.Owned | app/api/v1/listings.py:105-110 | exactly the listings of one provider profile, newest first |
| Listings.MyListings | app/api/v1/listings.py:99-111 | 403 iff the caller has no provider profile; otherwise the shapes of exactly their listings, newest first |
| Listings.CreateListing | app/api/v1/listings.py:114-131 | 422 for a title that is missing, null or not 1..200 long; then 403 without a profile; otherwise one new listing owned by the caller's profile, status defaulting to "active", nothing else changed |
| Listings.FindOwn | app/api/v1/listings.py:140-147 | 403 without a provider profile, 404 for a listing that is missing or another provider's, otherwise the listing |
| Listings.GetMyListing | app/api/v1/listings.py:134-148 | the shape of an owned listing; 403 and 404 as above |
| Listings.SetAllAppend | app/api/v1/listings.py:167-168 | applying attributes in two runs is the same as one run over both |
| Listings.SetAllDump | app/api/v1/listings.py:167-168 | the setattr loop over a dumped body changes exactly the fields that were sent, to the value sent |
| Listings.SetAttrs | app/api/v1/listings.py:167-168 | the loop applies the attributes in order |
| Listings.UpdateListing | app/api/v1/listings.py:151-173 | 422 for a given title not 1..200 long, 403, 404 as above and nothing changes; otherwise only the fields present in the body change, and only in that listing |
| Listings.DeleteListing | app/api/v1/listings.py:176-191 | 403, 404 as above and nothing changes; otherwise the listing is gone and nothing else changes |
| Listings.CreateListingPreserves | app/api/v1/listings.py:121-129 | creating a listing keeps the tables well formed and the lifecycle invariant |
| Listings.UpdateListingPreserves | app/api/v1/listings.py:167-171 | updating a listing keeps both |
| Listings.DeleteListingPreserves | app/api/v1/listings.py:190 | deleting a listing keeps both |
| Requests.CreateRequest | app/api/v1/requests.py:52-87 | 403 without a client profile; 404 unless the field exists and is the caller's; 404 unless the listing exists and is active; otherwise exactly one new open request under the caller's client profile id, with the listing, field, date, window and notes from the body |
| Requests.DumpUpdate | app/api/v1/requests.py:107 | the dump carries `status` and `notes` exactly when sent, and never a date or time window |
| Requests.ApplyKeysKeeps | app/api/v1/requests.py:108-110 | for any data, the key loop leaves id, owner, listing, field and status unchanged, and changes an attribute only if its key is in the loop and in the data |
| Requests.ApplyUpdate | app/api/v1/requests.py:106-110 | with a dumped body, the loop changes the notes exactly when they were sent and nothing else |
| Requests.SetEditable | app/api/v1/requests.py:108-110 | the loop over the three keys, in order |
| Requests.UpdateMyRequest | app/api/v1/requests.py:90-115 | 403 without a profile, 404 for a request the caller's profile does not own, and nothing changes; otherwise status, date and window are never changed and the notes change exactly when sent |
| Requests.ListMyRequests | app/api/v1/requests.py:38-49 | 403 iff no client profile; otherwise exactly the requests stored under the caller's profile id, newest first |
| Requests.ListOpenRequests | app/api/v1/requests.py:119-131 | exactly the requests that are open or quoted, newest first |
| Requests.CreateRequestPreserves | app/api/v1/requests.py:74-85 | a new open request keeps the tables well formed and the lifecycle invariant |
| Requests.UpdateMyRequestPreserves | app/api/v1/requests.py:106-113 | editing a request keeps both |
| Quotes.D | app/api/v1/quotes.py:23-26 | an absent amount counts as 0; a present one as itself |
| Quotes.ToItems | app/api/v1/quotes.py:54-61 | one stored line per input line, in order |
| Quotes.LineSumAppend | app/api/v1/quotes.py:50-53 | the sum of line totals over two runs adds up |
| Quotes.BuildItems | app/api/v1/quotes.py:49-61 | the item loop stores one line per input line in order, and the subtotal is the sum of their line totals |
| Quotes.CreateQuote | app/api/v1/quotes.py:28-88 | checks in order: 403 without a profile, 404 missing request, 403 not owning the listing, 400 request neither open nor quoted; nothing is written on error. Otherwise one new offered quote: currency upper-cased, lines copied in order (kind, description, unit, amounts), subtotal = sum of line totals, total = subtotal + fee (absent = 0), fee and surcharges stored as sent; the request becomes quoted |
| Quotes.PostQuote | app/api/v1/quotes.py:28-34 | the body is validated first: 422 exactly when the schema refuses it; otherwise create_quote on the validated payload |
| Quotes.PostEncodedQuote | app/api/v1/quotes.py:29-30 | every conforming payload reaches create_quote unchanged |
| Quotes.SurchargesNotPriced | app/api/v1/quotes.py:63-73 | changing the surcharges changes neither subtotal nor total, and they are stored as sent |
| Quotes.QuotesOf | app/api/v1/quotes.py:109 | exactly the quotes of one request, newest first |
| Quotes.QuotesForRequest | app/api/v1/quotes.py:90-110 | 404 for a missing request; 403 unless the caller's id equals `client_id` or the caller's provider profile owns the listing; otherwise exactly that request's quotes, newest first |
| Quotes.WithdrawQuote | app/api/v1/quotes.py:112-127 | 403 without a profile, 404 missing or another provider's quote, 400 not offered, and nothing changes; otherwise only that quote becomes withdrawn |
| Quotes.WithdrawTwice | app/api/v1/quotes.py:122-124 | withdrawing the same quote again is a 400 |
| Quotes.RejectOffers | app/api/v1/quotes.py:152-153 | the bulk update rejects exactly the other offered quotes of the request and leaves every other quote alone |
| Quotes.Resolve | app/api/v1/quotes.py:150-153 | the target is accepted; the request's other offered quotes are rejected; every other quote is unchanged |
| Quotes.AcceptQuote | app/api/v1/quotes.py:129-161 | checks in order: 404 missing quote, 404 missing request, 403 caller's id ≠ `client_id`, 400 not offered; nothing changes on error. Otherwise the quote table is resolved and the request becomes accepted |
| Quotes.NoAcceptedWhileOffered | app/api/v1/quotes.py:45-46 | under the invariant, a request with a quote on offer has no accepted quote |
| Quotes.CreateQuotePreserves | app/api/v1/quotes.py:45-84 | creating a quote keeps the tables well formed and the lifecycle invariant |
| Quotes.WithdrawQuotePreserves | app/api/v1/quotes.py:122-125 | withdrawing keeps both |
| Quotes.AcceptQuotePreserves | app/api/v1/quotes.py:146-157 | accepting keeps both: in particular, at most one accepted quote per request |
| Quotes.AcceptIsFinal | app/api/v1/quotes.py:146-157 | after an acceptance no quote of the request is on offer; accepting any of them again is a 400, and no new quote can be made for it |
| Quotes.CreatorCannotAccept | app/api/v1/quotes.py:143-144 | as written, the client who created a request is refused (403) when accepting a quote on it, whenever their profile id differs from their user id |
| Quotes.CreatorCannotSeeQuotes | app/api/v1/quotes.py:102-107 | as written, the client who created a request, holding no provider profile, is refused (403) when listing its quotes |
| Quotes.CreatorRefusedExample | app/api/v1/quotes.py:143-144 | a concrete database where the client creates a request, a provider quotes, and the client's acceptance is a 403 |
| Quotes.AcceptQuoteIntended | app/api/v1/quotes.py:135-160 | accept with the caller resolved to their client profile: the same order of checks (404, 403, then 400 for a quote that is not offered), and on success the same effect as accept |
| Quotes.CreatorCanAccept | app/api/v1/quotes.py:143-144 | with the intended check, the creator of the request can accept a quote on it |
| Quotes.AcceptQuoteIntendedPreserves | app/api/v1/quotes.py:146-157 | the intended accept keeps the lifecycle invariant |
| Quotes.QuotesForRequestIntended | app/api/v1/quotes.py:102-107 | quotes of a request with the client check made on the caller's client profile |
| Quotes.CreatorCanSeeQuotes | app/api/v1/quotes.py:102-107 | with the intended check, the creator of the request can list its quotes |
| Server.Database.CreateListing | app/api/v1/listings.py:114-131 | in place: the same response and new state as `Listings.CreateListing`; keeps the invariant |
| Server.Database.FindOwnListing | app/api/v1/listings.py:158-165 | the owner-scoped lookup, as `Listings.FindOwn` |
| Server.Database.UpdateListing | app/api/v1/listings.py:151-173 | in place, with the setattr loop: as `Listings.UpdateListing`; keeps the invariant |
| Server.Database.DeleteListing | app/api/v1/listings.py:176-191 | in place: as `Listings.DeleteListing`; keeps the invariant |
| Server.Database.CreateRequest | app/api/v1/requests.py:52-87 | in place: as `Requests.CreateRequest`; keeps the invariant |
| Server.Database.UpdateMyRequest | app/api/v1/requests.py:90-115 | in place, with the key loop: as `Requests.UpdateMyRequest`; keeps the invariant |
| Server.Database.CreateQuote | app/api/v1/quotes.py:28-88 | in place, with the item loop: as `Quotes.CreateQuote`; keeps the invariant |
| Server.Database.WithdrawQuote | app/api/v1/quotes.py:112-127 | in place: as `Quotes.WithdrawQuote`; keeps the invariant |
| Server.Database.AcceptQuote | app/api/v1/quotes.py:129-161 | in place, with the bulk update: as `Quotes.AcceptQuote`; keeps the invariant, so at most one quote per request is ever accepted |

## Left out

- Authentication and roles: JWT, password hashing and the `require_user` /
  `require_client` / `require_provider` dependencies are not modelled. The
  caller is an abstract user id. The profile lookups, which are in the core
  files, are modelled.
- Transactions and concurrency: every endpoint is one atomic step. The partial
  unique index that backs the single accepted quote in the database is not
  modelled; the invariant is proved from the operations instead.
- Timestamps: `created_at` is modelled by the id counter, and ties between
  equal timestamps are not modelled. `updated_at` is not modelled.
- Identifiers: UUIDs are abstract numbers. The `str(...)` conversions of
  `shape_listing` are not modelled.
- Listings.ColumnMatches: `LIKE` is modelled as a plain substring test, so `%`
  and `_` inside the query are not treated as wildcards.
- Common.Lower: case mapping covers the ASCII letters only; Unicode case
  folding is not modelled. The same holds for Common.Upper, which upper-cases
  the quote currency.
- Requests.CreateRequest: a body without `listing_id` gets 404, taking
  `db.get(Listing, None)` to find nothing.
- ORM declarations: the model follows the fields and statuses the routers
  read and write. It does not follow the stale `Quote` model of
  app/models/workflow.py, with its `total_estimate` and `'sent'` status, nor
  its `RequestStatus` enum, which lacks `accepted`. Column constraints and
  cascades are not modelled. A request whose listing was deleted behaves like
  one whose listing is missing.
- Expiry and cancellation: nothing in the code reads `expires_at` or sets
  `cancelled`, so neither is modelled beyond storing the value.
- The read schemas' conversion of amounts to `float` is not modelled; amounts
  stay integer cents.
- Dates and times are opaque strings: `desired_date` is not parsed.
- The remaining routers (profiles, machines, fields, pricing, categories,
  users, auth) and application wiring are not part of this model.
- Three behaviours of the code that a reader might expect otherwise are
  modelled as the code has them:
  - a field that belongs to another client gives 404, not 403;
  - `total` leaves out `surcharges`;
  - `WorkRequestUpdate` declares only `status` and `notes`, so an edit never
    changes `desired_date` or `time_window`, though the key loop names them.
- Deleting a listing: app/models/workflow.py:22 declares
  `ondelete="SET NULL"` on `work_requests.listing_id`. The model does not
  clear the link; the request keeps the old listing id, which then names
  no listing.
- QuoteSchema.QuoteCreate: `surcharges` is an arbitrary JSON object in the
  schema. The model narrows it to `map<string, string>`; it is only stored
  and echoed, never read.
- QuoteSchema.QuoteItemIn: `qty` is typed as `Cents` because the schema gives it
  the same two-decimal bound as the amounts; it is a quantity, not money.
- The class `Server.Database` performs accept as written; quote listing is
  the function `Quotes.QuotesForRequest`. The corrected accept,
  `Quotes.AcceptQuoteIntended`, is proved to keep the invariant.

## Findings

| source | as written | input that shows it | evidently intended | confidence | as-written member | corrected member |
|---|---|---|---|---|---|---|
| app/api/v1/quotes.py:143 | accept compares the caller's user id with `req.client_id`, which create_request fills with the client profile id (app/api/v1/requests.py:76) | user 1 with client profile 2 creates a request on field 3 against listing 4; user 5 (provider profile 6) quotes it; user 1 accepts: 403 | the request's client, identified through their client profile, may accept | not executed | Quotes.CreatorCannotAccept | Quotes.AcceptQuoteIntended |
| app/api/v1/quotes.py:102 | quote listing compares the caller's user id with `req.client_id`, a client profile id | user 1 with client profile 2 and no provider profile creates a request, then lists its quotes: 403 | the request's client, identified through their client profile, may list its quotes | not executed | Quotes.CreatorCannotSeeQuotes | Quotes.QuotesForRequestIntended |
