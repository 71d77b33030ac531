/** The rows the routers read and write, and the database as one value.
    Statuses follow what the routers assign: a work request is open, quoted,
    accepted or cancelled (the check constraint of `work_requests`), a quote is
    offered, withdrawn, accepted or rejected. */
module Records {
  import opened Common
  import opened Money
  import opened QuoteSchema

  datatype RequestStatus = Open | Quoted | Accepted | Cancelled

  datatype QuoteStatus = Offered | Withdrawn | Accepted | Rejected

  /** A provider's listing. `title` and `status` may be null in stored rows. */
  datatype Listing = Listing(
    id: Id,
    providerId: Id,
    title: Option<string>,
    description: Option<string>,
    refMachineId: Option<Id>,
    status: Option<string>)

  /** A client's work request; `clientId` is whatever identity `create_request` stored. */
  datatype WorkRequest = WorkRequest(
    id: Id,
    clientId: Id,
    listingId: Id,
    fieldId: Id,
    desiredDate: Option<string>,
    timeWindow: Option<string>,
    notes: Option<string>,
    status: RequestStatus)

  /** A stored quote line; `lineTotal` is authoritative, never qty × unit price. */
  datatype QuoteItem = QuoteItem(
    kind: ItemKind,
    description: string,
    unit: Option<string>,
    qty: Option<Cents>,
    unitPrice: Option<Cents>,
    lineTotal: Cents)

  datatype Quote = Quote(
    id: Id,
    requestId: Id,
    providerId: Id,
    currency: string,
    message: Option<string>,
    subtotal: Cents,
    transportFee: Option<Cents>,
    surcharges: Option<Surcharges>,
    total: Cents,
    status: QuoteStatus,
    expiresAt: Option<string>,
    items: seq<QuoteItem>)

  /** The database. `fields` maps a field id to its owner's client profile id;
      `clientProfiles` and `providerProfiles` map a user id to that user's profile id.
      `nextId` is the next id handed to a row the model creates. */
  datatype Db = Db(
    listings: map<Id, Listing>,
    fields: map<Id, Id>,
    clientProfiles: map<Id, Id>,
    providerProfiles: map<Id, Id>,
    requests: map<Id, WorkRequest>,
    quotes: map<Id, Quote>,
    nextId: nat)

  /** One endpoint call: its response and the database after it. */
  datatype Step<+T> = Step(result: Result<T>, after: Db)

  /** Rows are stored under their own ids, all below `nextId`, and a quote's
      request id was handed out before the quote. */
  ghost predicate WellFormed(s: Db) {
    && (forall k :: k in s.listings ==> k < s.nextId && s.listings[k].id == k)
    && (forall k :: k in s.requests ==> k < s.nextId && s.requests[k].id == k)
    && (forall k :: k in s.quotes ==> k < s.nextId && s.quotes[k].id == k && s.quotes[k].requestId < s.nextId)
  }

  /** The central invariant: no request has two accepted quotes. */
  ghost predicate AtMostOneAccepted(s: Db) {
    forall a, b ::
      a in s.quotes && b in s.quotes && s.quotes[a].status.Accepted? && s.quotes[b].status.Accepted?
      && s.quotes[a].requestId == s.quotes[b].requestId
      ==> a == b
  }

  /** An accepted quote has closed its request. */
  ghost predicate AcceptanceClosesRequest(s: Db) {
    forall k :: k in s.quotes && s.quotes[k].status.Accepted? && s.quotes[k].requestId in s.requests
      ==> s.requests[s.quotes[k].requestId].status.Accepted?
  }

  /** A quote still on offer belongs to a request that is open or quoted. */
  ghost predicate OffersOnlyOnOpenRequests(s: Db) {
    forall k :: k in s.quotes && s.quotes[k].status.Offered? && s.quotes[k].requestId in s.requests
      ==> s.requests[s.quotes[k].requestId].status in {RequestStatus.Open, RequestStatus.Quoted}
  }

  ghost predicate Lifecycle(s: Db) {
    AtMostOneAccepted(s) && AcceptanceClosesRequest(s) && OffersOnlyOnOpenRequests(s)
  }

  /** `status in (None, "active")`: the visibility rule of the public listing
      endpoints, also the "listing is active" check of `create_request`. */
  predicate IsActive(status: Option<string>) {
    status.None? || status.value == "active"
  }

  /** The provider profile `prof` owns listing `lid`, and the listing exists. */
  predicate OwnsListing(s: Db, prof: Id, lid: Id) {
    lid in s.listings && s.listings[lid].providerId == prof
  }

  /** `get_provider_profile`: 403 for a user without a provider profile. */
  function ProviderProfileOf(s: Db, user: Id): (r: Result<Id>)
    ensures r.Ok? <==> user in s.providerProfiles
    ensures r.Ok? ==> r.value == s.providerProfiles[user]
    ensures r.Err? ==> r.error == Forbidden
  {
    if user in s.providerProfiles then Ok(s.providerProfiles[user]) else Err(Forbidden)
  }

  /** `get_client_profile`: 403 for a user without a client profile. */
  function ClientProfileOf(s: Db, user: Id): (r: Result<Id>)
    ensures r.Ok? <==> user in s.clientProfiles
    ensures r.Ok? ==> r.value == s.clientProfiles[user]
    ensures r.Err? ==> r.error == Forbidden
  {
    if user in s.clientProfiles then Ok(s.clientProfiles[user]) else Err(Forbidden)
  }
}
