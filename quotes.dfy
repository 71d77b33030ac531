/** The quote router (app/api/v1/quotes.py): a provider prices a request
    against one of their listings, anyone involved lists the quotes of a
    request, the provider withdraws an offer, and the request's client accepts
    one offer, which rejects the other offers and closes the request. */
module Quotes {
  import opened Common
  import opened Money
  import opened QuoteSchema
  import opened Records
  import opened Requests

  /** `d`: an absent amount counts as zero; a present one is taken as it is. */
  function D(v: Option<Cents>): (r: Cents)
    ensures v.None? ==> r == 0
    ensures v.Some? ==> r == v.value
  {
    if v.None? then 0 else v.value
  }

  /** The stored line for an input line. */
  function ToItem(it: QuoteItemIn): (line: QuoteItem) {
    QuoteItem(it.kind, it.description, it.unit, it.qty, it.unitPrice, D(Some(it.lineTotal)))
  }

  function ToItems(input: seq<QuoteItemIn>): (items: seq<QuoteItem>)
    ensures |items| == |input|
    ensures forall i :: 0 <= i < |input| ==> items[i] == ToItem(input[i])
  {
    seq(|input|, i requires 0 <= i < |input| => ToItem(input[i]))
  }

  /** The sum of the line totals. */
  function LineSum(items: seq<QuoteItem>): (sum: Cents)
    decreases |items|
  {
    if items == [] then 0 else items[0].lineTotal + LineSum(items[1..])
  }

  lemma {:induction false} LineSumAppend(a: seq<QuoteItem>, b: seq<QuoteItem>)
    ensures LineSum(a + b) == LineSum(a) + LineSum(b)
    decreases |a|
  {
    if a == [] {
      assert a + b == b;
    } else {
      assert (a + b)[1..] == a[1..] + b;
      LineSumAppend(a[1..], b);
    }
  }

  /** The item loop of `create_quote`: one stored line per input line, in
      order, and the running subtotal is the sum of their line totals. */
  method BuildItems(input: seq<QuoteItemIn>) returns (items: seq<QuoteItem>, subtotal: Cents)
    ensures items == ToItems(input)
    ensures subtotal == LineSum(items)
  {
    items, subtotal := [], 0;
    for i := 0 to |input|
      invariant |items| == i && forall j :: 0 <= j < i ==> items[j] == ToItem(input[j])
      invariant subtotal == LineSum(items)
    {
      var lt := D(Some(input[i].lineTotal));
      var it := QuoteItem(input[i].kind, input[i].description, input[i].unit, input[i].qty, input[i].unitPrice, lt);
      LineSumAppend(items, [it]);
      assert LineSum([it]) == lt;
      subtotal := subtotal + lt;
      items := items + [it];
    }
  }

  /** The quote row `create_quote` builds from its checked inputs. */
  function MakeQuote(id: Id, req: WorkRequest, prof: Id, p: QuoteCreate, items: seq<QuoteItem>, subtotal: Cents): (q: Quote) {
    Quote(id, req.id, prof, Upper(p.currency), p.message, subtotal, p.transportFee, p.surcharges,
          subtotal + D(p.transportFee), Offered, p.expiresAt, items)
  }

  /** `POST /quotes/`, on a payload that passed validation. Checks in order:
      403 without a provider profile, 404 for a missing request, 403 unless the
      caller's profile owns the request's listing, 400 unless the request is open
      or quoted. An error writes nothing. */
  function CreateQuote(s: Db, user: Id, p: QuoteCreate): (st: Step<Quote>)
    ensures st.result.Err? ==> st.after == s
    ensures user !in s.providerProfiles ==> st.result == Err(Forbidden)
    ensures user in s.providerProfiles && p.requestId !in s.requests ==> st.result == Err(NotFound)
    ensures user in s.providerProfiles && p.requestId in s.requests
            && !OwnsListing(s, s.providerProfiles[user], s.requests[p.requestId].listingId)
            ==> st.result == Err(Forbidden)
    ensures user in s.providerProfiles && p.requestId in s.requests
            && OwnsListing(s, s.providerProfiles[user], s.requests[p.requestId].listingId)
            && s.requests[p.requestId].status !in {Open, Quoted}
            ==> st.result == Err(BadRequest)
    ensures st.result.Ok? <==>
              && user in s.providerProfiles && p.requestId in s.requests
              && OwnsListing(s, s.providerProfiles[user], s.requests[p.requestId].listingId)
              && s.requests[p.requestId].status in {Open, Quoted}
    ensures st.result.Ok? ==>
              var q, req := st.result.value, s.requests[p.requestId];
              && st.after == s.(quotes := s.quotes[s.nextId := q],
                                requests := s.requests[req.id := req.(status := Quoted)],
                                nextId := s.nextId + 1)
              && q.id == s.nextId && q.requestId == req.id && q.providerId == s.providerProfiles[user]
              && q.status == Offered
              && q.currency == Upper(p.currency)
              && q.message == p.message && q.expiresAt == p.expiresAt
              && |q.items| == |p.items|
              && (forall i :: 0 <= i < |p.items| ==>
                    && q.items[i].lineTotal == p.items[i].lineTotal
                    && q.items[i].kind == p.items[i].kind
                    && q.items[i].description == p.items[i].description
                    && q.items[i].unit == p.items[i].unit
                    && q.items[i].qty == p.items[i].qty
                    && q.items[i].unitPrice == p.items[i].unitPrice)
              && q.subtotal == LineSum(q.items)
              && q.transportFee == p.transportFee
              && q.total == q.subtotal + (if p.transportFee.Some? then p.transportFee.value else 0)
              && q.surcharges == p.surcharges
  {
    match ProviderProfileOf(s, user)
    case Err(e) => Step(Err(e), s)
    case Ok(prof) =>
      if p.requestId !in s.requests then Step(Err(NotFound), s)
      else
        var req := s.requests[p.requestId];
        if !OwnsListing(s, prof, req.listingId) then Step(Err(Forbidden), s)
        else if req.status !in {Open, Quoted} then Step(Err(BadRequest), s)
        else
          var items := ToItems(p.items);
          var q := MakeQuote(s.nextId, req, prof, p, items, LineSum(items));
          var req' := if req.status == Open then req.(status := Quoted) else req;
          Step(Ok(q), s.(quotes := s.quotes[q.id := q], requests := s.requests[req.id := req'], nextId := s.nextId + 1))
  }

  /** The endpoint as a whole: the body is validated first (422), then `CreateQuote`. */
  function PostQuote(s: Db, user: Id, raw: RawQuoteCreate): (st: Step<Quote>)
    ensures st.result == Err(Unprocessable) <==> Validate(raw).Err?
    ensures st.result.Err? ==> st.after == s
    ensures Validate(raw).Ok? ==> st == CreateQuote(s, user, Validate(raw).value)
  {
    match Validate(raw)
    case Err(e) => Step(Err(e), s)
    case Ok(p) => CreateQuote(s, user, p)
  }

  /** A well-formed payload reaches the endpoint unchanged. */
  lemma PostEncodedQuote(s: Db, user: Id, p: QuoteCreate)
    requires Conforms(p)
    ensures PostQuote(s, user, Encode(p)) == CreateQuote(s, user, p)
  {
    ValidateEncode(p);
  }

  /** Surcharges are stored but never priced: changing them changes no amount. */
  lemma SurchargesNotPriced(s: Db, user: Id, p: QuoteCreate, other: Option<Surcharges>)
    ensures var a, b := CreateQuote(s, user, p), CreateQuote(s, user, p.(surcharges := other));
            && a.result.Ok? == b.result.Ok?
            && (a.result.Ok? ==> a.result.value.total == b.result.value.total
                                 && a.result.value.subtotal == b.result.value.subtotal
                                 && a.result.value.surcharges == p.surcharges
                                 && b.result.value.surcharges == other)
  {
  }

  /** The quotes of request `rid`, newest first. */
  function QuotesOf(s: Db, rid: Id): (r: seq<Quote>)
    requires WellFormed(s)
    ensures forall q :: q in r <==> q.id in s.quotes && s.quotes[q.id] == q && q.requestId == rid
    ensures forall i, j :: 0 <= i < j < |r| ==> r[i].id > r[j].id
  {
    Newest(s.quotes, s.nextId, (q: Quote) => q.id, (q: Quote) => q.requestId == rid)
  }

  /** The visibility rule of `quotes_for_request` as written: the caller's id
      equals the request's `client_id`, or the caller has a provider profile
      that owns the request's listing. */
  predicate MaySeeQuotes(s: Db, user: Id, req: WorkRequest) {
    user == req.clientId || (user in s.providerProfiles && OwnsListing(s, s.providerProfiles[user], req.listingId))
  }

  /** `GET /quotes/for-request/{id}`: 404 for a missing request, 403 for a
      caller the rule above does not admit, otherwise all of its quotes, newest first. */
  function QuotesForRequest(s: Db, user: Id, rid: Id): (r: Result<seq<Quote>>)
    requires WellFormed(s)
    ensures rid !in s.requests ==> r == Err(NotFound)
    ensures rid in s.requests && !MaySeeQuotes(s, user, s.requests[rid]) ==> r == Err(Forbidden)
    ensures r.Ok? <==> rid in s.requests && MaySeeQuotes(s, user, s.requests[rid])
    ensures r.Ok? ==> forall q :: q in r.value <==> q.id in s.quotes && s.quotes[q.id] == q && q.requestId == rid
    ensures r.Ok? ==> forall i, j :: 0 <= i < j < |r.value| ==> r.value[i].id > r.value[j].id
  {
    if rid !in s.requests then Err(NotFound)
    else if !MaySeeQuotes(s, user, s.requests[rid]) then Err(Forbidden)
    else Ok(QuotesOf(s, rid))
  }

  /** `POST /quotes/{id}/withdraw`: 403 without a provider profile, 404 for a
      quote that is missing or another provider's, 400 for one no longer on
      offer; otherwise that quote alone becomes withdrawn. */
  function WithdrawQuote(s: Db, user: Id, qid: Id): (st: Step<()>)
    ensures st.result.Err? ==> st.after == s
    ensures user !in s.providerProfiles ==> st.result == Err(Forbidden)
    ensures user in s.providerProfiles && !(qid in s.quotes && s.quotes[qid].providerId == s.providerProfiles[user])
            ==> st.result == Err(NotFound)
    ensures (user in s.providerProfiles && qid in s.quotes && s.quotes[qid].providerId == s.providerProfiles[user]
             && !s.quotes[qid].status.Offered?) ==> st.result == Err(BadRequest)
    ensures st.result.Ok? <==>
              user in s.providerProfiles && qid in s.quotes && s.quotes[qid].providerId == s.providerProfiles[user]
              && s.quotes[qid].status.Offered?
    ensures st.result.Ok? ==> st.after == s.(quotes := s.quotes[qid := s.quotes[qid].(status := Withdrawn)])
  {
    match ProviderProfileOf(s, user)
    case Err(e) => Step(Err(e), s)
    case Ok(prof) =>
      if !(qid in s.quotes && s.quotes[qid].providerId == prof) then Step(Err(NotFound), s)
      else if !s.quotes[qid].status.Offered? then Step(Err(BadRequest), s)
      else Step(Ok(()), s.(quotes := s.quotes[qid := s.quotes[qid].(status := Withdrawn)]))
  }

  /** A withdrawal is final: withdrawing the same quote again is a 400. */
  lemma WithdrawTwice(s: Db, user: Id, qid: Id)
    requires WithdrawQuote(s, user, qid).result.Ok?
    ensures WithdrawQuote(WithdrawQuote(s, user, qid).after, user, qid).result == Err(BadRequest)
  {
  }

  /** The bulk update of `accept_quote`: every quote of request `rid` other
      than `keep` that is still offered becomes rejected; nothing else changes. */
  function RejectOffers(quotes: map<Id, Quote>, keep: Id, rid: Id): (r: map<Id, Quote>)
    ensures r.Keys == quotes.Keys
    ensures forall k :: k in quotes ==>
              r[k] == (if k != keep && quotes[k].requestId == rid && quotes[k].status.Offered?
                       then quotes[k].(status := Rejected) else quotes[k])
  {
    map k | k in quotes ::
      if k != keep && quotes[k].requestId == rid && quotes[k].status.Offered? then quotes[k].(status := Rejected)
      else quotes[k]
  }

  /** The quote table after `target` of request `rid` is accepted: the target is
      accepted, the request's other offers are rejected, every other quote stays. */
  function Resolve(quotes: map<Id, Quote>, target: Id, rid: Id): (r: map<Id, Quote>)
    requires target in quotes
    ensures r.Keys == quotes.Keys
    ensures r[target] == quotes[target].(status := QuoteStatus.Accepted)
    ensures forall k :: k in quotes && k != target ==>
              r[k] == (if quotes[k].requestId == rid && quotes[k].status.Offered? then quotes[k].(status := Rejected)
                       else quotes[k])
  {
    RejectOffers(quotes[target := quotes[target].(status := QuoteStatus.Accepted)], target, rid)
  }

  /** `POST /quotes/{id}/accept`, as written. Checks in order: 404 for a missing
      quote, 404 for a missing request, 403 unless the caller's id equals the
      request's `client_id`, 400 unless the quote is on offer. Then the quote is
      accepted, its request's other offers are rejected, and the request is accepted. */
  function AcceptQuote(s: Db, user: Id, qid: Id): (st: Step<Quote>)
    ensures st.result.Err? ==> st.after == s
    ensures qid !in s.quotes ==> st.result == Err(NotFound)
    ensures qid in s.quotes && s.quotes[qid].requestId !in s.requests ==> st.result == Err(NotFound)
    ensures (qid in s.quotes && s.quotes[qid].requestId in s.requests
             && s.requests[s.quotes[qid].requestId].clientId != user) ==> st.result == Err(Forbidden)
    ensures (qid in s.quotes && s.quotes[qid].requestId in s.requests
             && s.requests[s.quotes[qid].requestId].clientId == user
             && !s.quotes[qid].status.Offered?) ==> st.result == Err(BadRequest)
    ensures st.result.Ok? <==>
              && qid in s.quotes && s.quotes[qid].requestId in s.requests
              && s.requests[s.quotes[qid].requestId].clientId == user
              && s.quotes[qid].status.Offered?
    ensures st.result.Ok? ==>
              var q := s.quotes[qid];
              var req := s.requests[q.requestId];
              && st.result.value == q.(status := QuoteStatus.Accepted)
              && st.after == s.(quotes := Resolve(s.quotes, qid, req.id),
                                requests := s.requests[req.id := req.(status := RequestStatus.Accepted)])
  {
    if qid !in s.quotes then Step(Err(NotFound), s)
    else
      var q := s.quotes[qid];
      if q.requestId !in s.requests then Step(Err(NotFound), s)
      else
        var req := s.requests[q.requestId];
        if req.clientId != user then Step(Err(Forbidden), s)
        else if !q.status.Offered? then Step(Err(BadRequest), s)
        else
          Step(Ok(q.(status := QuoteStatus.Accepted)),
               s.(quotes := Resolve(s.quotes, qid, req.id),
                  requests := s.requests[req.id := req.(status := RequestStatus.Accepted)]))
  }

  // ---------------- the lifecycle invariant ----------------

  /** Under the invariant, a request that is still open or quoted has no accepted quote. */
  lemma NoAcceptedOnOpenRequest(s: Db, rid: Id)
    requires Lifecycle(s)
    requires rid in s.requests && s.requests[rid].status in {RequestStatus.Open, RequestStatus.Quoted}
    ensures forall k :: k in s.quotes && s.quotes[k].requestId == rid ==> !s.quotes[k].status.Accepted?
  {
    forall k | k in s.quotes && s.quotes[k].requestId == rid ensures !s.quotes[k].status.Accepted? {
    }
  }

  /** A quote offered on an existing request means that request has no accepted quote. */
  lemma NoAcceptedWhileOffered(s: Db, qid: Id)
    requires Lifecycle(s)
    requires qid in s.quotes && s.quotes[qid].status.Offered? && s.quotes[qid].requestId in s.requests
    ensures forall k :: k in s.quotes && s.quotes[k].requestId == s.quotes[qid].requestId
                        ==> !s.quotes[k].status.Accepted?
  {
    NoAcceptedOnOpenRequest(s, s.quotes[qid].requestId);
  }

  lemma CreateQuotePreserves(s: Db, user: Id, p: QuoteCreate)
    requires WellFormed(s) && Lifecycle(s)
    ensures var a := CreateQuote(s, user, p).after; WellFormed(a) && Lifecycle(a)
  {
    var st := CreateQuote(s, user, p);
    if st.result.Ok? {
      var a, rid := st.after, p.requestId;
      NoAcceptedOnOpenRequest(s, rid);
      forall k | k in a.quotes && a.quotes[k].status.Accepted? && a.quotes[k].requestId in a.requests
        ensures a.requests[a.quotes[k].requestId].status.Accepted?
      {
        assert k in s.quotes;
      }
    }
  }

  lemma WithdrawQuotePreserves(s: Db, user: Id, qid: Id)
    requires WellFormed(s) && Lifecycle(s)
    ensures var a := WithdrawQuote(s, user, qid).after; WellFormed(a) && Lifecycle(a)
  {
  }

  /** The database after a successful acceptance of `qid`, whose request is `rid`. */
  ghost predicate AcceptedInto(s: Db, qid: Id, rid: Id, a: Db) {
    && qid in s.quotes && s.quotes[qid].requestId == rid && s.quotes[qid].status.Offered?
    && rid in s.requests
    && a == s.(quotes := Resolve(s.quotes, qid, rid),
               requests := s.requests[rid := s.requests[rid].(status := RequestStatus.Accepted)])
  }

  lemma AcceptKeepsOneAccepted(s: Db, qid: Id, rid: Id, a: Db)
    requires Lifecycle(s) && AcceptedInto(s, qid, rid, a)
    ensures AtMostOneAccepted(a)
  {
    NoAcceptedWhileOffered(s, qid);
    forall x, y | x in a.quotes && y in a.quotes && a.quotes[x].status.Accepted? && a.quotes[y].status.Accepted?
                  && a.quotes[x].requestId == a.quotes[y].requestId
      ensures x == y
    {
      assert x != qid ==> s.quotes[x].status.Accepted?;
      assert y != qid ==> s.quotes[y].status.Accepted?;
    }
  }

  lemma AcceptKeepsClosure(s: Db, qid: Id, rid: Id, a: Db)
    requires Lifecycle(s) && AcceptedInto(s, qid, rid, a)
    ensures AcceptanceClosesRequest(a)
  {
    forall k | k in a.quotes && a.quotes[k].status.Accepted? && a.quotes[k].requestId in a.requests
      ensures a.requests[a.quotes[k].requestId].status.Accepted?
    {
      if k != qid {
        assert s.quotes[k].status.Accepted?;
      }
    }
  }

  lemma AcceptKeepsOffers(s: Db, qid: Id, rid: Id, a: Db)
    requires Lifecycle(s) && AcceptedInto(s, qid, rid, a)
    ensures OffersOnlyOnOpenRequests(a)
  {
    forall k | k in a.quotes && a.quotes[k].status.Offered? && a.quotes[k].requestId in a.requests
      ensures a.requests[a.quotes[k].requestId].status in {RequestStatus.Open, RequestStatus.Quoted}
    {
      assert s.quotes[k].status.Offered? && s.quotes[k].requestId != rid;
    }
  }

  /** Accepting keeps every request down to one accepted quote: the target had
      no accepted sibling, since its request was still open or quoted. */
  lemma AcceptQuotePreserves(s: Db, user: Id, qid: Id)
    requires WellFormed(s) && Lifecycle(s)
    ensures var a := AcceptQuote(s, user, qid).after; WellFormed(a) && Lifecycle(a)
  {
    var st := AcceptQuote(s, user, qid);
    if st.result.Ok? {
      var a, rid := st.after, s.quotes[qid].requestId;
      assert AcceptedInto(s, qid, rid, a);
      AcceptKeepsOneAccepted(s, qid, rid, a);
      AcceptKeepsClosure(s, qid, rid, a);
      AcceptKeepsOffers(s, qid, rid, a);
    }
  }

  /** Acceptance is final for the request: no quote of it is on offer any more,
      so a second acceptance by the same caller is a 400, and no new quote can
      be made for it. */
  lemma AcceptIsFinal(s: Db, user: Id, qid: Id, other: Id, provider: Id, p: QuoteCreate)
    requires WellFormed(s) && Lifecycle(s)
    requires AcceptQuote(s, user, qid).result.Ok?
    requires other in s.quotes && s.quotes[other].requestId == s.quotes[qid].requestId
    requires p.requestId == s.quotes[qid].requestId
    ensures var a := AcceptQuote(s, user, qid).after;
            && (forall k :: k in a.quotes && a.quotes[k].requestId == s.quotes[qid].requestId ==> !a.quotes[k].status.Offered?)
            && AcceptQuote(a, user, other).result == Err(BadRequest)
            && CreateQuote(a, provider, p).result.Err?
  {
    var a := AcceptQuote(s, user, qid).after;
    assert a.requests[p.requestId].status.Accepted?;
  }

  // ---------------- whose id is `client_id` ----------------

  /** `create_request` stores the caller's client profile id as `client_id`,
      while accept compares that with the caller's user id. As written, the
      client who made a request cannot accept an offer on it whenever the two
      ids differ, which they do for every user. */
  lemma CreatorCannotAccept(s: Db, client: Id, rp: WorkRequestCreate, provider: Id, p: QuoteCreate)
    requires CreateRequest(s, client, rp).result.Ok?
    requires s.clientProfiles[client] != client
    requires p.requestId == s.nextId
    ensures var s1 := CreateRequest(s, client, rp).after;
            var st := CreateQuote(s1, provider, p);
            st.result.Ok? ==> AcceptQuote(st.after, client, st.result.value.id).result == Err(Forbidden)
  {
  }

  /** As written, the client who made a request cannot list its quotes either,
      unless they also hold a provider profile owning the listing. */
  lemma CreatorCannotSeeQuotes(s: Db, client: Id, rp: WorkRequestCreate)
    requires WellFormed(s) && Lifecycle(s)
    requires CreateRequest(s, client, rp).result.Ok?
    requires s.clientProfiles[client] != client
    requires client !in s.providerProfiles
    ensures var s1 := CreateRequest(s, client, rp).after;
            WellFormed(s1) && QuotesForRequest(s1, client, s.nextId) == Err(Forbidden)
  {
    CreateRequestPreserves(s, client, rp);
  }

  /** One concrete case: user 1 has client profile 2 and field 3; user 5 has
      provider profile 6, which owns the active listing 4. User 1 asks for work,
      user 5 quotes, and user 1's acceptance is refused with 403. */
  lemma CreatorRefusedExample()
    ensures var s := Db(map[4 := Listing(4, 6, Some("Baling"), None, None, None)], map[3 := 2],
                        map[1 := 2], map[5 := 6], map[], map[], 7);
            var r := CreateRequest(s, 1, WorkRequestCreate(3, Some(4), None, None, None));
            var item := QuoteItemIn(Base, "baling", None, None, None, 10000);
            var q := CreateQuote(r.after, 5, QuoteCreate(7, "eur", None, [item], None, None, None));
            && r.result.Ok? && q.result.Ok?
            && AcceptQuote(q.after, 1, q.result.value.id).result == Err(Forbidden)
  {
  }

  /** The check evidently intended: the caller's own client profile is the one
      stored on the request. */
  predicate IsRequestClient(s: Db, user: Id, req: WorkRequest) {
    user in s.clientProfiles && s.clientProfiles[user] == req.clientId
  }

  /** Accept with the identity resolved through the caller's client profile:
      the same checks in the same order, and on success the same effect. */
  function AcceptQuoteIntended(s: Db, user: Id, qid: Id): (st: Step<Quote>)
    ensures st.result.Err? ==> st.after == s
    ensures qid !in s.quotes ==> st.result == Err(NotFound)
    ensures qid in s.quotes && s.quotes[qid].requestId !in s.requests ==> st.result == Err(NotFound)
    ensures (qid in s.quotes && s.quotes[qid].requestId in s.requests
             && !IsRequestClient(s, user, s.requests[s.quotes[qid].requestId])) ==> st.result == Err(Forbidden)
    ensures (qid in s.quotes && s.quotes[qid].requestId in s.requests
             && IsRequestClient(s, user, s.requests[s.quotes[qid].requestId])
             && !s.quotes[qid].status.Offered?) ==> st.result == Err(BadRequest)
    ensures st.result.Ok? <==>
              && qid in s.quotes && s.quotes[qid].requestId in s.requests
              && IsRequestClient(s, user, s.requests[s.quotes[qid].requestId])
              && s.quotes[qid].status.Offered?
    ensures st.result.Ok? ==> st == AcceptQuote(s, s.clientProfiles[user], qid)
  {
    if qid !in s.quotes then Step(Err(NotFound), s)
    else if s.quotes[qid].requestId !in s.requests then Step(Err(NotFound), s)
    else if !IsRequestClient(s, user, s.requests[s.quotes[qid].requestId]) then Step(Err(Forbidden), s)
    else AcceptQuote(s, s.clientProfiles[user], qid)
  }

  /** With the intended check, the client who made the request can accept an offer on it. */
  lemma CreatorCanAccept(s: Db, client: Id, rp: WorkRequestCreate, provider: Id, p: QuoteCreate)
    requires CreateRequest(s, client, rp).result.Ok?
    requires p.requestId == s.nextId
    ensures var s1 := CreateRequest(s, client, rp).after;
            var st := CreateQuote(s1, provider, p);
            st.result.Ok? ==> AcceptQuoteIntended(st.after, client, st.result.value.id).result.Ok?
  {
  }

  lemma AcceptQuoteIntendedPreserves(s: Db, user: Id, qid: Id)
    requires WellFormed(s) && Lifecycle(s)
    ensures var a := AcceptQuoteIntended(s, user, qid).after; WellFormed(a) && Lifecycle(a)
  {
    if AcceptQuoteIntended(s, user, qid).result.Ok? {
      AcceptQuotePreserves(s, s.clientProfiles[user], qid);
    }
  }

  predicate MaySeeQuotesIntended(s: Db, user: Id, req: WorkRequest) {
    IsRequestClient(s, user, req) || (user in s.providerProfiles && OwnsListing(s, s.providerProfiles[user], req.listingId))
  }

  /** `quotes_for_request` with the intended client check. */
  function QuotesForRequestIntended(s: Db, user: Id, rid: Id): (r: Result<seq<Quote>>)
    requires WellFormed(s)
    ensures rid !in s.requests ==> r == Err(NotFound)
    ensures rid in s.requests && !MaySeeQuotesIntended(s, user, s.requests[rid]) ==> r == Err(Forbidden)
    ensures r.Ok? <==> rid in s.requests && MaySeeQuotesIntended(s, user, s.requests[rid])
    ensures r.Ok? ==> forall q :: q in r.value <==> q.id in s.quotes && s.quotes[q.id] == q && q.requestId == rid
    ensures r.Ok? ==> forall i, j :: 0 <= i < j < |r.value| ==> r.value[i].id > r.value[j].id
  {
    if rid !in s.requests then Err(NotFound)
    else if !MaySeeQuotesIntended(s, user, s.requests[rid]) then Err(Forbidden)
    else Ok(QuotesOf(s, rid))
  }

  /** With the intended check, the client who made the request sees its quotes. */
  lemma CreatorCanSeeQuotes(s: Db, client: Id, rp: WorkRequestCreate)
    requires WellFormed(s) && Lifecycle(s)
    requires CreateRequest(s, client, rp).result.Ok?
    ensures var s1 := CreateRequest(s, client, rp).after;
            WellFormed(s1) && QuotesForRequestIntended(s1, client, s.nextId).Ok?
  {
    CreateRequestPreserves(s, client, rp);
  }
}
