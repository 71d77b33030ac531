/** The work-request router (app/api/v1/requests.py): a client asks for work
    on one of their fields against an active listing, edits the free-text
    parts of the request, and lists their own requests; providers list the
    requests still open for quotes. */
module Requests {
  import opened Common
  import opened Records

  /** The `WorkRequestCreate` body. */
  datatype WorkRequestCreate = WorkRequestCreate(
    fieldId: Id,
    listingId: Option<Id>,
    desiredDate: Option<string>,
    timeWindow: Option<string>,
    notes: Option<string>)

  /** The field exists and belongs to client profile `cprof`. */
  predicate OwnsField(s: Db, cprof: Id, fid: Id) {
    fid in s.fields && s.fields[fid] == cprof
  }

  /** The listing was named, exists, and has status null or "active". */
  predicate ListingAvailable(s: Db, lid: Option<Id>) {
    lid.Some? && lid.value in s.listings && IsActive(s.listings[lid.value].status)
  }

  /** `POST /requests/`: 403 without a client profile, 404 for a field that is
      missing or another client's, 404 for a listing that is missing or not
      active; otherwise exactly one new open request, stored under the caller's
      client profile id. */
  function CreateRequest(s: Db, user: Id, p: WorkRequestCreate): (st: Step<WorkRequest>)
    ensures st.result.Err? ==> st.after == s
    ensures user !in s.clientProfiles ==> st.result == Err(Forbidden)
    ensures user in s.clientProfiles && !OwnsField(s, s.clientProfiles[user], p.fieldId)
            ==> st.result == Err(NotFound)
    ensures user in s.clientProfiles && OwnsField(s, s.clientProfiles[user], p.fieldId) && !ListingAvailable(s, p.listingId)
            ==> st.result == Err(NotFound)
    ensures st.result.Ok? <==>
              user in s.clientProfiles && OwnsField(s, s.clientProfiles[user], p.fieldId) && ListingAvailable(s, p.listingId)
    ensures st.result.Ok? ==>
              var r := st.result.value;
              st.after == s.(requests := s.requests[s.nextId := r], nextId := s.nextId + 1)
    ensures st.result.Ok? ==>
              var r := st.result.value;
              && r.id == s.nextId
              && r.status == Open
              && r.clientId == s.clientProfiles[user]
              && r.listingId == p.listingId.value
              && r.fieldId == p.fieldId
              && r.desiredDate == p.desiredDate && r.timeWindow == p.timeWindow && r.notes == p.notes
  {
    match ClientProfileOf(s, user)
    case Err(e) => Step(Err(e), s)
    case Ok(cprof) =>
      if !OwnsField(s, cprof, p.fieldId) then Step(Err(NotFound), s)
      else if !ListingAvailable(s, p.listingId) then Step(Err(NotFound), s)
      else
        var r := WorkRequest(s.nextId, cprof, p.listingId.value, p.fieldId,
                             p.desiredDate, p.timeWindow, p.notes, Open);
        Step(Ok(r), s.(requests := s.requests[r.id := r], nextId := s.nextId + 1))
  }

  /** The `WorkRequestUpdate` body: only `status` and `notes` are declared. */
  datatype WorkRequestUpdate = WorkRequestUpdate(status: Input<string>, notes: Input<string>)

  /** `payload.model_dump(exclude_unset=True)`: the declared fields the client sent. */
  function DumpUpdate(p: WorkRequestUpdate): (data: map<string, Option<string>>)
    ensures "status" in data <==> !p.status.Missing?
    ensures "notes" in data <==> !p.notes.Missing?
    ensures "notes" in data ==> data["notes"] == OrNone(p.notes)
    ensures "desired_date" !in data && "time_window" !in data
  {
    (if p.status.Missing? then map[] else map["status" := OrNone(p.status)])
    + (if p.notes.Missing? then map[] else map["notes" := OrNone(p.notes)])
  }

  /** The attributes `update_my_request` lets a client set. */
  const EDITABLE_KEYS: seq<string> := ["desired_date", "time_window", "notes"]

  predicate Editable(k: string) {
    k in EDITABLE_KEYS
  }

  /** `setattr(req, k, v)` for an editable attribute. */
  function SetRequestAttr(r: WorkRequest, k: string, v: Option<string>): (n: WorkRequest)
    requires Editable(k)
  {
    if k == "desired_date" then r.(desiredDate := v)
    else if k == "time_window" then r.(timeWindow := v)
    else r.(notes := v)
  }

  /** The key loop over `keys`, first to last: each key present in `data` is set. */
  function ApplyKeys(r: WorkRequest, keys: seq<string>, data: map<string, Option<string>>): (n: WorkRequest)
    requires forall i :: 0 <= i < |keys| ==> Editable(keys[i])
    decreases |keys|
  {
    if keys == [] then r
    else
      var before := ApplyKeys(r, keys[..|keys| - 1], data);
      var k := keys[|keys| - 1];
      if k in data then SetRequestAttr(before, k, data[k]) else before
  }

  /** Whatever the data, the loop touches only the three editable attributes:
      identity, owner, listing, field and status come out as they went in, and
      an attribute changes only when the data carries it under a key of the loop. */
  lemma {:induction false} ApplyKeysKeeps(r: WorkRequest, keys: seq<string>, data: map<string, Option<string>>)
    requires forall i :: 0 <= i < |keys| ==> Editable(keys[i])
    ensures var n := ApplyKeys(r, keys, data);
            && n.id == r.id && n.clientId == r.clientId && n.listingId == r.listingId
            && n.fieldId == r.fieldId && n.status == r.status
            && (n.desiredDate != r.desiredDate ==> "desired_date" in keys && "desired_date" in data)
            && (n.timeWindow != r.timeWindow ==> "time_window" in keys && "time_window" in data)
            && (n.notes != r.notes ==> "notes" in keys && "notes" in data)
    decreases |keys|
  {
    if keys != [] {
      var front := keys[..|keys| - 1];
      ApplyKeysKeeps(r, front, data);
      assert forall k :: k in front ==> k in keys;
    }
  }

  /** The loop over the three keys with a dumped body: only `notes` can change,
      and it changes exactly when it was sent. */
  lemma ApplyUpdate(r: WorkRequest, p: WorkRequestUpdate)
    ensures var n := ApplyKeys(r, EDITABLE_KEYS, DumpUpdate(p));
            && n == r.(notes := if p.notes.Missing? then r.notes else OrNone(p.notes))
  {
    var data := DumpUpdate(p);
    assert EDITABLE_KEYS[..2][..1] == ["desired_date"];
    assert EDITABLE_KEYS[..2] == ["desired_date", "time_window"];
    assert ApplyKeys(r, EDITABLE_KEYS[..2][..1][..0], data) == r;
  }

  /** `setattr` loop of `update_my_request`, on the request's own record. */
  method SetEditable(r: WorkRequest, data: map<string, Option<string>>) returns (n: WorkRequest)
    ensures n == ApplyKeys(r, EDITABLE_KEYS, data)
  {
    n := r;
    for i := 0 to |EDITABLE_KEYS|
      invariant n == ApplyKeys(r, EDITABLE_KEYS[..i], data)
    {
      var k := EDITABLE_KEYS[i];
      assert EDITABLE_KEYS[..i + 1][..i] == EDITABLE_KEYS[..i];
      if k in data {
        n := SetRequestAttr(n, k, data[k]);
      }
    }
    assert EDITABLE_KEYS[..|EDITABLE_KEYS|] == EDITABLE_KEYS;
  }

  /** The request exists and was stored under client profile `cprof`. */
  predicate OwnsRequest(s: Db, cprof: Id, rid: Id) {
    rid in s.requests && s.requests[rid].clientId == cprof
  }

  /** `PUT /requests/{id}`: 403 without a client profile, 404 for a request the
      caller's profile does not own; otherwise only the notes can change (the
      body declares no date or time window), and a `status` in the body is ignored. */
  function UpdateMyRequest(s: Db, user: Id, rid: Id, p: WorkRequestUpdate): (st: Step<WorkRequest>)
    ensures st.result.Err? ==> st.after == s
    ensures user !in s.clientProfiles ==> st.result == Err(Forbidden)
    ensures user in s.clientProfiles && !OwnsRequest(s, s.clientProfiles[user], rid) ==> st.result == Err(NotFound)
    ensures st.result.Ok? <==> user in s.clientProfiles && OwnsRequest(s, s.clientProfiles[user], rid)
    ensures st.result.Ok? ==>
              && rid in s.requests
              && var o, n := s.requests[rid], st.result.value;
              && st.after == s.(requests := s.requests[rid := n])
              && n.id == o.id && n.clientId == o.clientId && n.listingId == o.listingId && n.fieldId == o.fieldId
              && n.status == o.status
              && n.desiredDate == o.desiredDate && n.timeWindow == o.timeWindow
              && n.notes == (if p.notes.Missing? then o.notes else OrNone(p.notes))
  {
    match ClientProfileOf(s, user)
    case Err(e) => Step(Err(e), s)
    case Ok(cprof) =>
      if !OwnsRequest(s, cprof, rid) then Step(Err(NotFound), s)
      else
        var n := ApplyKeys(s.requests[rid], EDITABLE_KEYS, DumpUpdate(p));
        ApplyUpdate(s.requests[rid], p);
        Step(Ok(n), s.(requests := s.requests[rid := n]))
  }

  /** `GET /requests/me`: 403 without a client profile; otherwise exactly the
      requests stored under the caller's client profile id, newest first. */
  function ListMyRequests(s: Db, user: Id): (r: Result<seq<WorkRequest>>)
    requires WellFormed(s)
    ensures r.Err? <==> user !in s.clientProfiles
    ensures r.Err? ==> r.error == Forbidden
    ensures r.Ok? ==> forall w :: w in r.value <==> w.id in s.requests && s.requests[w.id] == w && w.clientId == s.clientProfiles[user]
    ensures r.Ok? ==> forall i, j :: 0 <= i < j < |r.value| ==> r.value[i].id > r.value[j].id
  {
    match ClientProfileOf(s, user)
    case Err(e) => Err(e)
    case Ok(cprof) => Ok(Newest(s.requests, s.nextId, (w: WorkRequest) => w.id, (w: WorkRequest) => w.clientId == cprof))
  }

  /** `GET /requests/open`: exactly the requests still open for quotes, newest first. */
  function ListOpenRequests(s: Db): (r: seq<WorkRequest>)
    requires WellFormed(s)
    ensures forall w :: w in r <==> w.id in s.requests && s.requests[w.id] == w && w.status in {Open, Quoted}
    ensures forall i, j :: 0 <= i < j < |r| ==> r[i].id > r[j].id
  {
    Newest(s.requests, s.nextId, (w: WorkRequest) => w.id, (w: WorkRequest) => w.status in {Open, Quoted})
  }

  /** A new request is open and no quote can name it yet, so the lifecycle holds. */
  lemma CreateRequestPreserves(s: Db, user: Id, p: WorkRequestCreate)
    requires WellFormed(s) && Lifecycle(s)
    ensures var a := CreateRequest(s, user, p).after; WellFormed(a) && Lifecycle(a)
  {
    var st := CreateRequest(s, user, p);
    if st.result.Ok? {
      var a := st.after;
      forall k | k in a.quotes && a.quotes[k].requestId in a.requests
        ensures a.quotes[k].requestId in s.requests
      {
        assert a.quotes[k].requestId < s.nextId;
      }
    }
  }

  /** Editing never touches a status, so the lifecycle holds. */
  lemma UpdateMyRequestPreserves(s: Db, user: Id, rid: Id, p: WorkRequestUpdate)
    requires WellFormed(s) && Lifecycle(s)
    ensures var a := UpdateMyRequest(s, user, rid, p).after; WellFormed(a) && Lifecycle(a)
  {
  }
}
