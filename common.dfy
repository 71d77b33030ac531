/** Vocabulary shared by every router of the marketplace: identifiers,
    optional values, endpoint results, the three states of a JSON body field,
    ASCII case mapping and the newest-first listing of a table. */
module Common {

  /** Rows and principals are identified by UUIDs; here an abstract number.
      Rows created by the model draw their id from one increasing counter,
      so a larger id means a later `created_at`. */
  type Id = nat

  datatype Option<+T> = None | Some(value: T)

  /** The HTTP errors the endpoints raise. */
  datatype Error =
    | NotFound       // 404
    | Forbidden      // 403
    | BadRequest     // 400
    | Unprocessable  // 422: the request failed its schema or query validation

  /** What an endpoint returns: a value or the error it raised. */
  datatype Result<+T> = Ok(value: T) | Err(error: Error)

  /** A field of a JSON request body: left out, sent as null, or sent with a value.
      `Missing` is what pydantic's `exclude_unset` drops. */
  datatype Input<+T> = Missing | Null | Given(value: T)

  /** The value an optional body field binds to: null and absent both become None. */
  function OrNone<T>(i: Input<T>): (r: Option<T>)
    ensures r.Some? <==> i.Given?
    ensures i.Given? ==> r.value == i.value
  {
    if i.Given? then Some(i.value) else None
  }

  /** Python's `s or default` on an optional string: None and "" are falsy. */
  function OrElse(s: Option<string>, default: string): (r: string)
    ensures s.None? || s.value == "" ==> r == default
    ensures s.Some? && s.value != "" ==> r == s.value
  {
    if s.Some? && s.value != "" then s.value else default
  }

  function LowerChar(c: char): (l: char) {
    if 'A' <= c <= 'Z' then (c as int - 'A' as int + 'a' as int) as char else c
  }

  function UpperChar(c: char): (u: char) {
    if 'a' <= c <= 'z' then (c as int - 'a' as int + 'A' as int) as char else c
  }

  /** `str.lower()` and SQL `lower()`, on the ASCII letters. */
  function Lower(s: string): (r: string)
    ensures |r| == |s|
  {
    seq(|s|, i requires 0 <= i < |s| => LowerChar(s[i]))
  }

  /** `str.upper()`, on the ASCII letters. */
  function Upper(s: string): (r: string)
    ensures |r| == |s|
  {
    seq(|s|, i requires 0 <= i < |s| => UpperChar(s[i]))
  }

  /** The ids of the rows (below `n`) that satisfy `keep`, newest first:
      the `.filter(...).order_by(created_at.desc())` of every list endpoint. */
  function NewestFirst<T>(rows: map<Id, T>, n: nat, keep: T -> bool): (ids: seq<Id>)
    ensures forall i :: 0 <= i < |ids| ==> ids[i] in rows && ids[i] < n && keep(rows[ids[i]])
    ensures forall k :: k in rows && k < n && keep(rows[k]) ==> k in ids
    ensures forall i, j :: 0 <= i < j < |ids| ==> ids[i] > ids[j]
  {
    if n == 0 then []
    else
      var older := NewestFirst(rows, n - 1, keep);
      if n - 1 in rows && keep(rows[n - 1]) then [n - 1] + older else older
  }

  /** The rows named by `ids`, in that order. */
  function Select<T>(rows: map<Id, T>, ids: seq<Id>): (r: seq<T>)
    requires forall i :: 0 <= i < |ids| ==> ids[i] in rows
    ensures |r| == |ids|
    ensures forall i :: 0 <= i < |ids| ==> r[i] == rows[ids[i]]
  {
    seq(|ids|, i requires 0 <= i < |ids| => rows[ids[i]])
  }

  /** The rows themselves, newest first, for a table whose rows carry their own
      key (`idOf`) and whose keys are all below `n`. */
  function Newest<T>(rows: map<Id, T>, n: nat, idOf: T -> Id, keep: T -> bool): (r: seq<T>)
    requires forall k :: k in rows ==> k < n && idOf(rows[k]) == k
    ensures forall x :: x in r ==> idOf(x) in rows && rows[idOf(x)] == x && keep(x)
    ensures forall k :: k in rows && keep(rows[k]) ==> rows[k] in r
    ensures forall i, j :: 0 <= i < j < |r| ==> idOf(r[i]) > idOf(r[j])
  {
    var ids := NewestFirst(rows, n, keep);
    var r := Select(rows, ids);
    assert forall i :: 0 <= i < |r| ==> idOf(r[i]) == ids[i];
    assert forall k :: k in ids ==> rows[k] in r by {
      forall k | k in ids ensures rows[k] in r {
        var i :| 0 <= i < |ids| && ids[i] == k;
        assert r[i] == rows[k];
      }
    }
    r
  }
}
