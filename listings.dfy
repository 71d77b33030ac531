/** The listings router (app/api/v1/listings.py): the shape the frontend
    receives, the public catalogue with its visibility rule, search and
    paging, and the provider's owner-scoped create, read, update and delete. */
module Listings {
  import opened Common
  import opened Records

  /** The dict `shape_listing` returns (timestamps aside). */
  datatype ListingView = ListingView(
    id: Id,
    title: string,
    description: string,
    status: string,
    refMachineId: Option<Id>)

  /** `shape_listing`: null text becomes "", a null or empty status reads
      "active", and the machine reference is passed on or null. */
  function Shape(l: Listing): (v: ListingView)
    ensures v.id == l.id && v.refMachineId == l.refMachineId
    ensures l.title.None? ==> v.title == ""
    ensures l.title.Some? ==> v.title == l.title.value
    ensures l.description.None? ==> v.description == ""
    ensures l.description.Some? ==> v.description == l.description.value
    ensures l.status.None? || l.status.value == "" ==> v.status == "active"
    ensures l.status.Some? && l.status.value != "" ==> v.status == l.status.value
    ensures v.status != ""  // corollary of the two clauses above
  {
    ListingView(l.id, OrElse(l.title, ""), OrElse(l.description, ""), OrElse(l.status, "active"), l.refMachineId)
  }

  function Shapes(ls: seq<Listing>): (vs: seq<ListingView>)
    ensures |vs| == |ls| && forall i :: 0 <= i < |ls| ==> vs[i] == Shape(ls[i])
  {
    seq(|ls|, i requires 0 <= i < |ls| => Shape(ls[i]))
  }

  // ---------------- search ----------------

  predicate OccursAt(s: string, p: string, i: nat) {
    i + |p| <= |s| && s[i..i + |p|] == p
  }

  /** Substring test, scanning from the left. */
  predicate Contains(s: string, p: string)
    decreases |s|
  {
    OccursAt(s, p, 0) || (|s| > 0 && Contains(s[1..], p))
  }

  lemma {:induction false} ContainsIffOccurs(s: string, p: string)
    ensures Contains(s, p) <==> exists i: nat :: OccursAt(s, p, i)
    decreases |s|
  {
    if |s| > 0 {
      ContainsIffOccurs(s[1..], p);
      forall i: nat | OccursAt(s[1..], p, i) ensures OccursAt(s, p, i + 1) {
        assert s[1..][i..i + |p|] == s[i + 1..i + 1 + |p|];
      }
      forall i: nat | i > 0 && OccursAt(s, p, i) ensures OccursAt(s[1..], p, i - 1) {
        assert s[1..][i - 1..i - 1 + |p|] == s[i..i + |p|];
      }
    } else {
      forall i: nat | OccursAt(s, p, i) ensures i == 0 { }
    }
  }

  /** `lower(column) LIKE '%' || lower(q) || '%'`; a null column does not match. */
  predicate ColumnMatches(column: Option<string>, q: string) {
    column.Some? && Contains(Lower(column.value), Lower(q))
  }

  /** `if q:` applies the search only to a non-empty query. */
  predicate Matches(l: Listing, q: Option<string>) {
    q.None? || q.value == "" || ColumnMatches(l.title, q.value) || ColumnMatches(l.description, q.value)
  }

  /** Every visible listing that matches the query, newest first. */
  function Catalogue(s: Db, q: Option<string>): (r: seq<Listing>)
    requires WellFormed(s)
    ensures forall l :: l in r ==> l.id in s.listings && s.listings[l.id] == l && IsActive(l.status) && Matches(l, q)
    ensures forall k :: k in s.listings && IsActive(s.listings[k].status) && Matches(s.listings[k], q)
                        ==> s.listings[k] in r
    ensures forall i, j :: 0 <= i < j < |r| ==> r[i].id > r[j].id
  {
    Newest(s.listings, s.nextId, (l: Listing) => l.id, (l: Listing) => IsActive(l.status) && Matches(l, q))
  }

  const DEFAULT_LIMIT: int := 50
  const MAX_LIMIT: int := 200
  const DEFAULT_OFFSET: int := 0

  function Min(a: int, b: int): (m: int) { if a <= b then a else b }

  /** SQL `LIMIT limit OFFSET offset`. */
  function Page<T>(all: seq<T>, limit: nat, offset: nat): (r: seq<T>)
    ensures |r| == if offset >= |all| then 0 else Min(limit, |all| - offset)
    ensures forall i :: 0 <= i < |r| ==> r[i] == all[offset + i]
  {
    if offset >= |all| then []
    else if |all| - offset <= limit then all[offset..]
    else all[offset..offset + limit]
  }

  /** A query parameter: the value sent, or its declared default when absent. */
  function QueryOr(arg: Option<int>, default: int): (v: int)
    ensures arg.None? ==> v == default
    ensures arg.Some? ==> v == arg.value
  {
    if arg.Some? then arg.value else default
  }

  /** `GET /listings/public`: `limit` defaults to 50 and `offset` to 0; 422 for
      a limit outside 1..200 or a negative offset; otherwise one page of the
      catalogue, shaped. */
  function PublicListings(s: Db, q: Option<string>, limitArg: Option<int>, offsetArg: Option<int>): (r: Result<seq<ListingView>>)
    requires WellFormed(s)
    ensures var limit, offset := QueryOr(limitArg, DEFAULT_LIMIT), QueryOr(offsetArg, DEFAULT_OFFSET);
            && (r.Err? <==> !(1 <= limit <= MAX_LIMIT && 0 <= offset))
            && (r.Err? ==> r.error == Unprocessable)
            && (r.Ok? ==> |r.value| <= limit)
            && (r.Ok? ==>
                  var all := Catalogue(s, q);
                  && |r.value| == (if offset >= |all| then 0 else Min(limit, |all| - offset))
                  && forall i :: 0 <= i < |r.value| ==> r.value[i] == Shape(all[offset + i]))
    ensures limitArg.None? && offsetArg.None? ==>
              var all := Catalogue(s, q);
              && r.Ok? && |r.value| == Min(DEFAULT_LIMIT, |all|)
              && forall i :: 0 <= i < |r.value| ==> r.value[i] == Shape(all[i])
  {
    var limit, offset := QueryOr(limitArg, DEFAULT_LIMIT), QueryOr(offsetArg, DEFAULT_OFFSET);
    if 1 <= limit <= MAX_LIMIT && 0 <= offset then Ok(Shapes(Page(Catalogue(s, q), limit, offset)))
    else Err(Unprocessable)
  }

  /** Whatever the public catalogue shows reads as active. */
  lemma {:induction false} PublicListingsShowActive(s: Db, q: Option<string>, limitArg: Option<int>, offsetArg: Option<int>)
    requires WellFormed(s)
    ensures var r := PublicListings(s, q, limitArg, offsetArg);
            r.Ok? ==> forall i :: 0 <= i < |r.value| ==> r.value[i].status == "active"
  {
    var r := PublicListings(s, q, limitArg, offsetArg);
    if r.Ok? {
      var all, offset := Catalogue(s, q), QueryOr(offsetArg, DEFAULT_OFFSET);
      forall i | 0 <= i < |r.value| ensures r.value[i].status == "active" {
        assert all[offset + i] in all;
      }
    }
  }

  /** `GET /listings/public/{id}`: 404 unless the listing exists and is active. */
  function PublicGetOne(s: Db, lid: Id): (r: Result<ListingView>)
    ensures r.Err? <==> !(lid in s.listings && IsActive(s.listings[lid].status))
    ensures r.Err? ==> r.error == NotFound
    ensures r.Ok? ==> r.value == Shape(s.listings[lid]) && r.value.status == "active"
  {
    if lid in s.listings && IsActive(s.listings[lid].status) then Ok(Shape(s.listings[lid]))
    else Err(NotFound)
  }

  // ---------------- provider CRUD ----------------

  /** The listings of provider profile `prof`, newest first. */
  function Owned(s: Db, prof: Id): (r: seq<Listing>)
    requires WellFormed(s)
    ensures forall l :: l in r ==> l.id in s.listings && s.listings[l.id] == l && l.providerId == prof
    ensures forall k :: k in s.listings && s.listings[k].providerId == prof ==> s.listings[k] in r
    ensures forall i, j :: 0 <= i < j < |r| ==> r[i].id > r[j].id
  {
    Newest(s.listings, s.nextId, (l: Listing) => l.id, (l: Listing) => l.providerId == prof)
  }

  /** `GET /listings/`: the caller's own listings, newest first. */
  function MyListings(s: Db, user: Id): (r: Result<seq<ListingView>>)
    requires WellFormed(s)
    ensures r.Err? <==> user !in s.providerProfiles
    ensures r.Err? ==> r.error == Forbidden
    ensures r.Ok? ==> var own := Owned(s, s.providerProfiles[user]);
                      |r.value| == |own| && forall i :: 0 <= i < |own| ==> r.value[i] == Shape(own[i])
  {
    match ProviderProfileOf(s, user)
    case Err(e) => Err(e)
    case Ok(prof) => Ok(Shapes(Owned(s, prof)))
  }

  /** The local `ListingCreate` body. */
  datatype ListingCreate = ListingCreate(
    title: Input<string>,
    description: Input<string>,
    refMachineId: Input<Id>,
    status: Input<string>)

  /** `Field(min_length=1, max_length=200)`. */
  predicate TitleValid(t: string) {
    1 <= |t| <= 200
  }

  predicate CreateValid(p: ListingCreate) {
    p.title.Given? && TitleValid(p.title.value)
  }

  /** `POST /listings/`: the body is validated first (422), then the provider
      profile is resolved (403); the new listing belongs to that profile and its
      status defaults to "active" (`payload.status or "active"`). */
  function CreateListing(s: Db, user: Id, p: ListingCreate): (st: Step<ListingView>)
    ensures st.result.Err? ==> st.after == s
    ensures !CreateValid(p) ==> st.result == Err(Unprocessable)
    ensures CreateValid(p) && user !in s.providerProfiles ==> st.result == Err(Forbidden)
    ensures st.result.Ok? <==> CreateValid(p) && user in s.providerProfiles
    ensures st.result.Ok? ==>
              && s.nextId in st.after.listings
              && var l := st.after.listings[s.nextId];
              && st.after == s.(listings := s.listings[s.nextId := l], nextId := s.nextId + 1)
              && st.result.value == Shape(l)
              && l.id == s.nextId
              && l.providerId == s.providerProfiles[user]
              && l.title == Some(p.title.value)
              && l.description == OrNone(p.description)
              && l.refMachineId == OrNone(p.refMachineId)
              && l.status == Some(if p.status.Given? && p.status.value != "" then p.status.value else "active")
  {
    if !CreateValid(p) then Step(Err(Unprocessable), s)
    else match ProviderProfileOf(s, user)
      case Err(e) => Step(Err(e), s)
      case Ok(prof) =>
        var l := Listing(s.nextId, prof, Some(p.title.value), OrNone(p.description),
                         OrNone(p.refMachineId), Some(OrElse(OrNone(p.status), "active")));
        Step(Ok(Shape(l)), s.(listings := s.listings[l.id := l], nextId := s.nextId + 1))
  }

  /** The owner-scoped lookup shared by get, update and delete: 403 without a
      provider profile, 404 for a listing that is missing or someone else's. */
  function FindOwn(s: Db, user: Id, lid: Id): (r: Result<Listing>)
    ensures r.Err? <==> !(user in s.providerProfiles && OwnsListing(s, s.providerProfiles[user], lid))
    ensures r.Err? ==> r.error == (if user in s.providerProfiles then NotFound else Forbidden)
    ensures r.Ok? ==> r.value == s.listings[lid]
  {
    match ProviderProfileOf(s, user)
    case Err(e) => Err(e)
    case Ok(prof) => if OwnsListing(s, prof, lid) then Ok(s.listings[lid]) else Err(NotFound)
  }

  /** `GET /listings/{id}`. */
  function GetMyListing(s: Db, user: Id, lid: Id): (r: Result<ListingView>)
    ensures r.Err? <==> !(user in s.providerProfiles && OwnsListing(s, s.providerProfiles[user], lid))
    ensures r.Err? ==> r.error == (if user in s.providerProfiles then NotFound else Forbidden)
    ensures r.Ok? ==> r.value == Shape(s.listings[lid])
  {
    match FindOwn(s, user, lid)
    case Err(e) => Err(e)
    case Ok(l) => Ok(Shape(l))
  }

  /** The local `ListingUpdate` body; a `Missing` field was not sent. */
  datatype ListingUpdate = ListingUpdate(
    title: Input<string>,
    description: Input<string>,
    refMachineId: Input<Id>,
    status: Input<string>)

  predicate UpdateValid(p: ListingUpdate) {
    p.title.Given? ==> TitleValid(p.title.value)
  }

  /** One entry of `payload.model_dump(exclude_unset=True)`. */
  datatype Attr =
    | TitleAttr(title: Option<string>)
    | DescriptionAttr(description: Option<string>)
    | RefMachineAttr(refMachineId: Option<Id>)
    | StatusAttr(status: Option<string>)

  function Entry<T>(i: Input<T>, attr: Option<T> -> Attr): (attrs: seq<Attr>) {
    if i.Missing? then [] else [attr(OrNone(i))]
  }

  /** The fields the client sent, in declaration order. */
  function Dump(p: ListingUpdate): (attrs: seq<Attr>) {
    Entry(p.title, t => TitleAttr(t)) + Entry(p.description, d => DescriptionAttr(d))
    + Entry(p.refMachineId, m => RefMachineAttr(m)) + Entry(p.status, st => StatusAttr(st))
  }

  /** `setattr(l, k, v)`. */
  function SetAttr(l: Listing, a: Attr): (n: Listing) {
    match a
    case TitleAttr(t) => l.(title := t)
    case DescriptionAttr(d) => l.(description := d)
    case RefMachineAttr(m) => l.(refMachineId := m)
    case StatusAttr(st) => l.(status := st)
  }

  /** The `setattr` loop over `attrs`, first to last. */
  function SetAll(l: Listing, attrs: seq<Attr>): (n: Listing)
    decreases |attrs|
  {
    if attrs == [] then l else SetAttr(SetAll(l, attrs[..|attrs| - 1]), attrs[|attrs| - 1])
  }

  lemma {:induction false} SetAllAppend(l: Listing, a: seq<Attr>, b: seq<Attr>)
    ensures SetAll(l, a + b) == SetAll(SetAll(l, a), b)
    decreases |b|
  {
    if b == [] {
      assert a + b == a;
    } else {
      assert (a + b)[..|a + b| - 1] == a + b[..|b| - 1];
      SetAllAppend(l, a, b[..|b| - 1]);
    }
  }

  /** What the loop does with a dumped payload: a field changes exactly when it was sent. */
  lemma SetAllDump(l: Listing, p: ListingUpdate)
    ensures var n := SetAll(l, Dump(p));
            && n.id == l.id && n.providerId == l.providerId
            && n.title == (if p.title.Missing? then l.title else OrNone(p.title))
            && n.description == (if p.description.Missing? then l.description else OrNone(p.description))
            && n.refMachineId == (if p.refMachineId.Missing? then l.refMachineId else OrNone(p.refMachineId))
            && n.status == (if p.status.Missing? then l.status else OrNone(p.status))
  {
    var t, d := Entry(p.title, t => TitleAttr(t)), Entry(p.description, d => DescriptionAttr(d));
    var m, st := Entry(p.refMachineId, m => RefMachineAttr(m)), Entry(p.status, st => StatusAttr(st));
    SetAllAppend(l, t + d + m, st);
    SetAllAppend(l, t + d, m);
    SetAllAppend(l, t, d);
    assert SetAll(l, t) == if p.title.Missing? then l else l.(title := OrNone(p.title));
  }

  /** The `setattr` loop of `update_listing`. */
  method SetAttrs(l: Listing, attrs: seq<Attr>) returns (r: Listing)
    ensures r == SetAll(l, attrs)
  {
    r := l;
    for i := 0 to |attrs|
      invariant r == SetAll(l, attrs[..i])
    {
      assert attrs[..i + 1][..i] == attrs[..i];
      r := SetAttr(r, attrs[i]);
    }
    assert attrs[..|attrs|] == attrs;
  }

  /** `PUT /listings/{id}`: 422 for an invalid title, 403 without a provider
      profile, 404 for a listing not owned by the caller; otherwise exactly the
      fields present in the body change, and nothing else in the database. */
  function UpdateListing(s: Db, user: Id, lid: Id, p: ListingUpdate): (st: Step<ListingView>)
    ensures st.result.Err? ==> st.after == s
    ensures !UpdateValid(p) ==> st.result == Err(Unprocessable)
    ensures UpdateValid(p) && user !in s.providerProfiles ==> st.result == Err(Forbidden)
    ensures UpdateValid(p) && user in s.providerProfiles && !OwnsListing(s, s.providerProfiles[user], lid)
            ==> st.result == Err(NotFound)
    ensures st.result.Ok? <==> UpdateValid(p) && user in s.providerProfiles && OwnsListing(s, s.providerProfiles[user], lid)
    ensures st.result.Ok? ==>
              && lid in s.listings && lid in st.after.listings
              && var o, n := s.listings[lid], st.after.listings[lid];
              && st.after == s.(listings := s.listings[lid := n])
              && st.result.value == Shape(n)
              && n.id == o.id && n.providerId == o.providerId
              && n.title == (if p.title.Missing? then o.title else OrNone(p.title))
              && n.description == (if p.description.Missing? then o.description else OrNone(p.description))
              && n.refMachineId == (if p.refMachineId.Missing? then o.refMachineId else OrNone(p.refMachineId))
              && n.status == (if p.status.Missing? then o.status else OrNone(p.status))
  {
    if !UpdateValid(p) then Step(Err(Unprocessable), s)
    else match FindOwn(s, user, lid)
      case Err(e) => Step(Err(e), s)
      case Ok(l) =>
        var n := SetAll(l, Dump(p));
        SetAllDump(l, p);
        Step(Ok(Shape(n)), s.(listings := s.listings[lid := n]))
  }

  /** `DELETE /listings/{id}`: 403 / 404 as for update; otherwise the listing is gone. */
  function DeleteListing(s: Db, user: Id, lid: Id): (st: Step<()>)
    ensures st.result.Err? ==> st.after == s
    ensures st.result.Err? <==> !(user in s.providerProfiles && OwnsListing(s, s.providerProfiles[user], lid))
    ensures st.result.Err? ==> st.result.error == (if user in s.providerProfiles then NotFound else Forbidden)
    ensures st.result.Ok? ==> st.after == s.(listings := s.listings - {lid}) && lid !in st.after.listings
  {
    match FindOwn(s, user, lid)
    case Err(e) => Step(Err(e), s)
    case Ok(_) => Step(Ok(()), s.(listings := s.listings - {lid}))
  }

  /** The listing endpoints leave requests and quotes alone and keep the table well formed. */
  lemma CreateListingPreserves(s: Db, user: Id, c: ListingCreate)
    requires WellFormed(s) && Lifecycle(s)
    ensures var a := CreateListing(s, user, c).after; WellFormed(a) && Lifecycle(a)
  {
  }

  lemma UpdateListingPreserves(s: Db, user: Id, lid: Id, u: ListingUpdate)
    requires WellFormed(s) && Lifecycle(s)
    ensures var a := UpdateListing(s, user, lid, u).after; WellFormed(a) && Lifecycle(a)
  {
  }

  lemma DeleteListingPreserves(s: Db, user: Id, lid: Id)
    requires WellFormed(s) && Lifecycle(s)
    ensures var a := DeleteListing(s, user, lid).after; WellFormed(a) && Lifecycle(a)
  {
  }
}
