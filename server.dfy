/** The database behind the routers, changed in place one endpoint call at a
    time. Each method performs the endpoint's checks and writes on the tables
    and is proved to have exactly the response and the effect of the endpoint's
    function on the state before the call; each keeps the lifecycle invariant. */
module Server {
  import opened Common
  import opened QuoteSchema
  import opened Records
  import Listings
  import Requests
  import Quotes

  class Database {
    var listings: map<Id, Listing>
    var fields: map<Id, Id>
    var clientProfiles: map<Id, Id>
    var providerProfiles: map<Id, Id>
    var requests: map<Id, WorkRequest>
    var quotes: map<Id, Quote>
    var nextId: nat

    function State(): (s: Db)
      reads this
    {
      Db(listings, fields, clientProfiles, providerProfiles, requests, quotes, nextId)
    }

    ghost predicate Valid()
      reads this
    {
      WellFormed(State()) && Lifecycle(State())
    }

    constructor (init: Db)
      requires WellFormed(init) && Lifecycle(init)
      ensures State() == init && Valid()
    {
      listings, fields := init.listings, init.fields;
      clientProfiles, providerProfiles := init.clientProfiles, init.providerProfiles;
      requests, quotes, nextId := init.requests, init.quotes, init.nextId;
    }

    // ---------------- listings ----------------

    method CreateListing(user: Id, p: Listings.ListingCreate) returns (r: Result<Listings.ListingView>)
      requires Valid()
      modifies this
      ensures Valid()
      ensures Step(r, State()) == Listings.CreateListing(old(State()), user, p)
    {
      Listings.CreateListingPreserves(State(), user, p);
      if !Listings.CreateValid(p) {
        return Err(Unprocessable);
      }
      if user !in providerProfiles {
        return Err(Forbidden);
      }
      var l := Listing(nextId, providerProfiles[user], Some(p.title.value), OrNone(p.description),
                       OrNone(p.refMachineId), Some(OrElse(OrNone(p.status), "active")));
      listings := listings[l.id := l];
      nextId := nextId + 1;
      r := Ok(Listings.Shape(l));
    }

    /** 403 / 404 of the owner-scoped listing endpoints. */
    method FindOwnListing(user: Id, lid: Id) returns (r: Result<Listing>)
      ensures r == Listings.FindOwn(State(), user, lid)
    {
      if user !in providerProfiles {
        return Err(Forbidden);
      }
      if !(lid in listings && listings[lid].providerId == providerProfiles[user]) {
        return Err(NotFound);
      }
      r := Ok(listings[lid]);
    }

    method UpdateListing(user: Id, lid: Id, p: Listings.ListingUpdate) returns (r: Result<Listings.ListingView>)
      requires Valid()
      modifies this
      ensures Valid()
      ensures Step(r, State()) == Listings.UpdateListing(old(State()), user, lid, p)
    {
      Listings.UpdateListingPreserves(State(), user, lid, p);
      if !Listings.UpdateValid(p) {
        return Err(Unprocessable);
      }
      var found := FindOwnListing(user, lid);
      if found.Err? {
        return Err(found.error);
      }
      var n := Listings.SetAttrs(found.value, Listings.Dump(p));
      listings := listings[lid := n];
      r := Ok(Listings.Shape(n));
    }

    method DeleteListing(user: Id, lid: Id) returns (r: Result<()>)
      requires Valid()
      modifies this
      ensures Valid()
      ensures Step(r, State()) == Listings.DeleteListing(old(State()), user, lid)
    {
      Listings.DeleteListingPreserves(State(), user, lid);
      var found := FindOwnListing(user, lid);
      if found.Err? {
        return Err(found.error);
      }
      listings := listings - {lid};
      r := Ok(());
    }

    // ---------------- work requests ----------------

    method CreateRequest(user: Id, p: Requests.WorkRequestCreate) returns (r: Result<WorkRequest>)
      requires Valid()
      modifies this
      ensures Valid()
      ensures Step(r, State()) == Requests.CreateRequest(old(State()), user, p)
    {
      Requests.CreateRequestPreserves(State(), user, p);
      if user !in clientProfiles {
        return Err(Forbidden);
      }
      var cprof := clientProfiles[user];
      if !(p.fieldId in fields && fields[p.fieldId] == cprof) {
        return Err(NotFound);
      }
      if !(p.listingId.Some? && p.listingId.value in listings && IsActive(listings[p.listingId.value].status)) {
        return Err(NotFound);
      }
      var req := WorkRequest(nextId, cprof, p.listingId.value, p.fieldId, p.desiredDate, p.timeWindow, p.notes, Open);
      requests := requests[req.id := req];
      nextId := nextId + 1;
      r := Ok(req);
    }

    method UpdateMyRequest(user: Id, rid: Id, p: Requests.WorkRequestUpdate) returns (r: Result<WorkRequest>)
      requires Valid()
      modifies this
      ensures Valid()
      ensures Step(r, State()) == Requests.UpdateMyRequest(old(State()), user, rid, p)
    {
      Requests.UpdateMyRequestPreserves(State(), user, rid, p);
      if user !in clientProfiles {
        return Err(Forbidden);
      }
      if !(rid in requests && requests[rid].clientId == clientProfiles[user]) {
        return Err(NotFound);
      }
      var n := Requests.SetEditable(requests[rid], Requests.DumpUpdate(p));
      requests := requests[rid := n];
      r := Ok(n);
    }

    // ---------------- quotes ----------------

    method CreateQuote(user: Id, p: QuoteCreate) returns (r: Result<Quote>)
      requires Valid()
      modifies this
      ensures Valid()
      ensures Step(r, State()) == Quotes.CreateQuote(old(State()), user, p)
    {
      Quotes.CreateQuotePreserves(State(), user, p);
      if user !in providerProfiles {
        return Err(Forbidden);
      }
      var prof := providerProfiles[user];
      if p.requestId !in requests {
        return Err(NotFound);
      }
      var req := requests[p.requestId];
      if !(req.listingId in listings && listings[req.listingId].providerId == prof) {
        return Err(Forbidden);
      }
      if req.status !in {Open, Quoted} {
        return Err(BadRequest);
      }
      var items, subtotal := Quotes.BuildItems(p.items);
      var q := Quotes.MakeQuote(nextId, req, prof, p, items, subtotal);
      quotes := quotes[q.id := q];
      if req.status == Open {
        requests := requests[req.id := req.(status := Quoted)];
      } else {
        assert requests == requests[req.id := req];
      }
      nextId := nextId + 1;
      r := Ok(q);
    }

    method WithdrawQuote(user: Id, qid: Id) returns (r: Result<()>)
      requires Valid()
      modifies this
      ensures Valid()
      ensures Step(r, State()) == Quotes.WithdrawQuote(old(State()), user, qid)
    {
      Quotes.WithdrawQuotePreserves(State(), user, qid);
      if user !in providerProfiles {
        return Err(Forbidden);
      }
      if !(qid in quotes && quotes[qid].providerId == providerProfiles[user]) {
        return Err(NotFound);
      }
      if !quotes[qid].status.Offered? {
        return Err(BadRequest);
      }
      quotes := quotes[qid := quotes[qid].(status := Withdrawn)];
      r := Ok(());
    }

    /** The accept endpoint as written: the target first, then the bulk update
        of its request's other offers, then the request. */
    method AcceptQuote(user: Id, qid: Id) returns (r: Result<Quote>)
      requires Valid()
      modifies this
      ensures Valid()
      ensures Step(r, State()) == Quotes.AcceptQuote(old(State()), user, qid)
    {
      Quotes.AcceptQuotePreserves(State(), user, qid);
      if qid !in quotes {
        return Err(NotFound);
      }
      var q := quotes[qid];
      if q.requestId !in requests {
        return Err(NotFound);
      }
      var req := requests[q.requestId];
      if req.clientId != user {
        return Err(Forbidden);
      }
      if !q.status.Offered? {
        return Err(BadRequest);
      }
      quotes := quotes[qid := q.(status := QuoteStatus.Accepted)];
      quotes := Quotes.RejectOffers(quotes, qid, req.id);
      requests := requests[req.id := req.(status := RequestStatus.Accepted)];
      r := Ok(q.(status := QuoteStatus.Accepted));
    }
  }
}
