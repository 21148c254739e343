/** The ownership-scoped board repository behind the `/api/boards` routes:
    a map from board id to database row, and one function per route
    handler. Every lookup is filtered by the caller's user id, so a board
    of another user is indistinguishable from a missing one. */
module Repository {
  import opened Wrappers
  import opened Json
  import opened SharedTypes
  import opened BoardSchema
  import AuthGate

  type UserId = string

  /** A database row: a wire board plus its owner. */
  datatype Row = Row(
    id: string,
    userId: UserId,
    name: string,
    data: BoardData,
    thumbnail: Option<string>,
    tags: seq<string>,
    createdAt: Timestamp,
    updatedAt: Timestamp)

  type Store = map<string, Row>

  /** Each row is filed under its own id. */
  predicate Valid(s: Store) {
    forall id :: id in s ==> s[id].id == id
  }

  datatype Outcome<T> = Ok(value: T) | NotFound | Invalid

  datatype Step<T> = Step(store: Store, outcome: Outcome<T>)

  predicate Owns(s: Store, user: UserId, id: string) {
    id in s && s[id].userId == user
  }

  function ToWire(r: Row): Board {
    Board(r.id, r.name, r.data, r.thumbnail, r.tags, r.createdAt, r.updatedAt)
  }

  /** The columns the list route selects. */
  function MetaOf(r: Row): BoardMetadata {
    Metadata(ToWire(r))
  }

  const COPY_SUFFIX: string := " (Copy)"

  /** The properties the update schema reads. */
  const UPDATE_KEYS: set<string> := {"name", "data", "thumbnail", "tags"}

  // ----- GET /:id -----

  function Get(s: Store, user: UserId, id: string): (r: Outcome<Row>)
    ensures r.Ok? <==> Owns(s, user, id)
    ensures r.Ok? ==> r.value == s[id]
    ensures !r.Invalid?
  {
    if Owns(s, user, id) then Ok(s[id]) else NotFound
  }

  // ----- POST / -----

  /** Validation first; then a new row owned by the caller, with `tags`
      defaulting to the empty list. `freshId` is the id the database
      generates, which never collides with an existing one. */
  function Create(s: Store, user: UserId, body: JValue, freshId: string, now: Timestamp): (r: Step<Row>)
    requires freshId !in s
    ensures ParseCreate(body).None? <==> r.outcome.Invalid?
    ensures r.outcome.Invalid? ==> r.store == s
    ensures !r.outcome.NotFound?
    ensures r.outcome.Ok? ==>
      var req := ParseCreate(body).value;
      var b := r.outcome.value;
      && b == Row(freshId, user, req.name, req.data, req.thumbnail, req.tags.GetOr([]), now, now)
      && r.store == s[freshId := b]
  {
    var req := ParseCreate(body);
    if req.None? then Step(s, Invalid)
    else
      var q := req.value;
      var row := Row(freshId, user, q.name, q.data, q.thumbnail,
                     if q.tags.Some? then q.tags.value else [], now, now);
      Step(s[freshId := row], Ok(row))
  }

  // ----- PUT /:id -----

  /** The partial update: a field changes only when supplied. A supplied
      name is non-empty (the schema guarantees it), data is an object and
      tags an array, so each is truthy; `thumbnail` is compared with
      `undefined`, so an empty string is stored. The update time is
      assumed to be set by the database. */
  function ApplyUpdate(row: Row, req: UpdateBoardRequest, now: Timestamp): Row {
    row.(
      name := if req.name.Some? && |req.name.value| > 0 then req.name.value else row.name,
      data := if req.data.Some? then req.data.value else row.data,
      thumbnail := if req.thumbnail.Some? then req.thumbnail else row.thumbnail,
      tags := if req.tags.Some? then req.tags.value else row.tags,
      updatedAt := now)
  }

  function Update(s: Store, user: UserId, id: string, body: JValue, now: Timestamp): (r: Step<Row>)
    ensures ParseUpdate(body).None? ==> r == Step(s, Invalid)
    ensures ParseUpdate(body).Some? && !Owns(s, user, id) ==> r == Step(s, NotFound)
    ensures ParseUpdate(body).Some? && Owns(s, user, id) ==> r.outcome.Ok?
    ensures r.outcome.Ok? ==>
      && Owns(s, user, id)
      && r.store == s[id := r.outcome.value]
      && r.outcome.value.id == s[id].id
      && r.outcome.value.userId == user
      && r.outcome.value.createdAt == s[id].createdAt
      && r.outcome.value.updatedAt == now
    ensures r.outcome.Ok? ==>
      var row := r.outcome.value;
      && (Member(body, "name").None? ==> row.name == s[id].name)
      && (Member(body, "name").Some? ==> Member(body, "name") == Some(JStr(row.name)))
      && (Member(body, "data").None? ==> row.data == s[id].data)
      && (Member(body, "data").Some? ==> ParseBoardData(Member(body, "data").value) == Some(row.data))
      && (Member(body, "thumbnail").None? ==> row.thumbnail == s[id].thumbnail)
      && (Member(body, "thumbnail").Some? ==> Member(body, "thumbnail") == OptStr(row.thumbnail))
      && (Member(body, "tags").None? ==> row.tags == s[id].tags)
      && (Member(body, "tags").Some? ==> Member(body, "tags") == Some(StrArr(row.tags)))
  {
    var req := ParseUpdate(body);
    if req.None? then Step(s, Invalid)
    else if !Owns(s, user, id) then Step(s, NotFound)
    else
      var row := ApplyUpdate(s[id], req.value, now);
      Step(s[id := row], Ok(row))
  }

  // ----- DELETE /:id -----

  function Delete(s: Store, user: UserId, id: string): (r: Step<()>)
    ensures Owns(s, user, id) ==> r == Step(s - {id}, Ok(()))
    ensures !Owns(s, user, id) ==> r == Step(s, NotFound)
  {
    if Owns(s, user, id) then Step(s - {id}, Ok(())) else Step(s, NotFound)
  }

  // ----- POST /:id/duplicate -----

  /** A copy under a new id with " (Copy)" appended to the name; the name
      is not validated again. */
  function Duplicate(s: Store, user: UserId, id: string, freshId: string, now: Timestamp): (r: Step<Row>)
    requires freshId !in s
    ensures !Owns(s, user, id) ==> r == Step(s, NotFound)
    ensures Owns(s, user, id) ==>
      && r.outcome.Ok?
      && r.store == s[freshId := r.outcome.value]
      && r.outcome.value.id == freshId != id
      && r.outcome.value.name == s[id].name + COPY_SUFFIX
      && r.outcome.value.data == s[id].data
      && r.outcome.value.thumbnail == s[id].thumbnail
      && r.outcome.value.tags == s[id].tags
      && r.outcome.value.userId == user
  {
    if !Owns(s, user, id) then Step(s, NotFound)
    else
      var o := s[id];
      var copy := Row(freshId, user, o.name + COPY_SUFFIX, o.data, o.thumbnail, o.tags, now, now);
      Step(s[freshId := copy], Ok(copy))
  }

  // ----- GET / -----

  predicate SortedByUpdatedDesc(xs: seq<BoardMetadata>) {
    forall i, j :: 0 <= i < j < |xs| ==> xs[i].updatedAt >= xs[j].updatedAt
  }

  /** Insertion into a list sorted newest first, before every entry that
      is not strictly newer. */
  method InsertByUpdated(rows: seq<BoardMetadata>, m: BoardMetadata) returns (r: seq<BoardMetadata>, k: nat)
    requires SortedByUpdatedDesc(rows)
    ensures k <= |rows| && |r| == |rows| + 1 && r[k] == m
    ensures forall i :: 0 <= i < k ==> r[i] == rows[i]
    ensures forall i :: k < i < |r| ==> r[i] == rows[i - 1]
    ensures SortedByUpdatedDesc(r)
  {
    k := 0;
    while k < |rows| && rows[k].updatedAt > m.updatedAt
      invariant 0 <= k <= |rows|
      invariant forall j :: 0 <= j < k ==> rows[j].updatedAt > m.updatedAt
    {
      k := k + 1;
    }
    r := rows[..k] + [m] + rows[k..];
  }

  predicate ListedRow(s: Store, user: UserId, row: BoardMetadata) {
    Owns(s, user, row.id) && row == MetaOf(s[row.id])
  }

  predicate HasId(rows: seq<BoardMetadata>, id: string) {
    exists i :: 0 <= i < |rows| && rows[i].id == id
  }

  predicate DistinctIds(rows: seq<BoardMetadata>) {
    forall i, j :: 0 <= i < j < |rows| ==> rows[i].id != rows[j].id
  }

  /** The caller's boards, without their data, newest update first; each
      owned board appears exactly once and nothing else does. The order of
      boards with equal update times is the database's choice. */
  method List(s: Store, user: UserId) returns (rows: seq<BoardMetadata>)
    requires Valid(s)
    ensures SortedByUpdatedDesc(rows)
    ensures forall i :: 0 <= i < |rows| ==> Owns(s, user, rows[i].id) && rows[i] == MetaOf(s[rows[i].id])
    ensures forall id :: Owns(s, user, id) ==> exists i :: 0 <= i < |rows| && rows[i].id == id
    ensures forall i, j :: 0 <= i < j < |rows| ==> rows[i].id != rows[j].id
  {
    rows := [];
    var todo := set id | id in s && s[id].userId == user;
    while todo != {}
      invariant ListInvariant(s, user, todo, rows)
      decreases todo
    {
      var id :| id in todo;
      var before := rows;
      var k;
      rows, k := InsertByUpdated(rows, MetaOf(s[id]));
      InsertKeepsInvariant(s, user, todo, before, rows, k, id);
      todo := todo - {id};
    }
  }

  /** While listing: `rows` holds, sorted and once each, exactly the
      caller's boards that are no longer in `todo`. */
  ghost predicate ListInvariant(s: Store, user: UserId, todo: set<string>, rows: seq<BoardMetadata>) {
    && (forall id :: id in todo ==> Owns(s, user, id))
    && SortedByUpdatedDesc(rows)
    && (forall i :: 0 <= i < |rows| ==> ListedRow(s, user, rows[i]))
    && (forall i :: 0 <= i < |rows| ==> rows[i].id !in todo)
    && (forall id :: Owns(s, user, id) ==> id in todo || HasId(rows, id))
    && DistinctIds(rows)
  }

  lemma InsertKeepsInvariant(s: Store, user: UserId, todo: set<string>, rows: seq<BoardMetadata>,
                             r: seq<BoardMetadata>, k: nat, id: string)
    requires Valid(s) && ListInvariant(s, user, todo, rows) && id in todo
    requires InsertedAt(rows, r, k, MetaOf(s[id])) && SortedByUpdatedDesc(r)
    ensures ListInvariant(s, user, todo - {id}, r)
  {
    var m := MetaOf(s[id]);
    assert m.id == id;
    DistinctAfterInsert(rows, r, k, m);
    forall oid | Owns(s, user, oid) && oid !in todo - {id}
      ensures HasId(r, oid)
    {
      HasIdAfterInsert(rows, r, k, m, oid);
    }
    forall i | 0 <= i < |r| ensures ListedRow(s, user, r[i]) && r[i].id !in todo - {id} {
      if i < k { assert r[i] == rows[i]; } else if i > k { assert r[i] == rows[i - 1]; }
    }
  }

  /** `r` is `rows` with `m` inserted at index `k`. */
  predicate InsertedAt(rows: seq<BoardMetadata>, r: seq<BoardMetadata>, k: nat, m: BoardMetadata) {
    && k <= |rows| && |r| == |rows| + 1 && r[k] == m
    && (forall i :: 0 <= i < k ==> r[i] == rows[i])
    && (forall i :: k < i < |r| ==> r[i] == rows[i - 1])
  }

  lemma DistinctAfterInsert(rows: seq<BoardMetadata>, r: seq<BoardMetadata>, k: nat, m: BoardMetadata)
    requires InsertedAt(rows, r, k, m) && DistinctIds(rows)
    requires forall i :: 0 <= i < |rows| ==> rows[i].id != m.id
    ensures DistinctIds(r)
  {
    forall i, j | 0 <= i < j < |r| ensures r[i].id != r[j].id {
      if i == k || j == k {
      } else {
        var i' := if i < k then i else i - 1;
        var j' := if j < k then j else j - 1;
        assert r[i] == rows[i'] && r[j] == rows[j'];
      }
    }
  }

  lemma HasIdAfterInsert(rows: seq<BoardMetadata>, r: seq<BoardMetadata>, k: nat, m: BoardMetadata, id: string)
    requires InsertedAt(rows, r, k, m)
    requires id == m.id || HasId(rows, id)
    ensures HasId(r, id)
  {
    if id == m.id {
      assert r[k].id == id;
    } else {
      var i :| 0 <= i < |rows| && rows[i].id == id;
      if i < k { assert r[i].id == id; } else { assert r[i + 1].id == id; }
    }
  }

  // ----- the router -----

  datatype Route =
    | ListRoute
    | GetRoute(id: string)
    | CreateRoute(body: JValue)
    | UpdateRoute(id: string, body: JValue)
    | DeleteRoute(id: string)
    | DuplicateRoute(id: string)

  datatype Reply =
    | Unauthorized(message: string)
    | Listed(boards: seq<BoardMetadata>)
    | Found(board: Row)
    | Created(board: Row)
    | Saved(board: Row)
    | Deleted
    | BoardNotFound
    | ValidationFailed

  /** The status code the handler sets; a validation failure is passed to
      the application's error handler, which is not part of this model. */
  function Status(r: Reply): (code: Option<int>)
    ensures code.None? <==> r.ValidationFailed?
    ensures code == Some(401) <==> r.Unauthorized?
    ensures code == Some(404) <==> r.BoardNotFound?
    ensures code == Some(201) <==> r.Created?
    ensures code.Some? ==> code.value in {200, 201, 401, 404}
  {
    match r
    case Unauthorized(_) => Some(401)
    case Created(_) => Some(201)
    case BoardNotFound => Some(404)
    case ValidationFailed => None
    case _ => Some(200)
  }

  function ToReply<T>(o: Outcome<T>, ok: T -> Reply): Reply {
    match o
    case Ok(v) => ok(v)
    case NotFound => BoardNotFound
    case Invalid => ValidationFailed
  }

  /** Every route runs behind the authentication gate: a rejected request
      touches nothing, and an accepted one acts for the verified user. */
  method Serve(s: Store, gate: AuthGate.Decision, route: Route, freshId: string, now: Timestamp)
    returns (s': Store, reply: Reply)
    requires Valid(s) && freshId !in s
    ensures gate.Reject? ==> s' == s && reply == Unauthorized(gate.message) && Status(reply) == Some(401)
    ensures Valid(s')
    ensures route.ListRoute? || route.GetRoute? ==> s' == s
    ensures reply.BoardNotFound? || reply.ValidationFailed? ==> s' == s
    ensures reply.Created? ==> gate.Next? && reply.board.userId == gate.user.userId && s' == s[freshId := reply.board]
  {
    if gate.Reject? {
      return s, Unauthorized(gate.message);
    }
    var user := gate.user.userId;
    match route {
      case ListRoute =>
        var rows := List(s, user);
        s', reply := s, Listed(rows);
      case GetRoute(id) =>
        s', reply := s, ToReply(Get(s, user, id), b => Found(b));
      case CreateRoute(body) =>
        var st := Create(s, user, body, freshId, now);
        s', reply := st.store, ToReply(st.outcome, b => Created(b));
      case UpdateRoute(id, body) =>
        var st := Update(s, user, id, body, now);
        s', reply := st.store, ToReply(st.outcome, b => Saved(b));
      case DeleteRoute(id) =>
        var st := Delete(s, user, id);
        s', reply := st.store, ToReply(st.outcome, _ => Deleted);
      case DuplicateRoute(id) =>
        var st := Duplicate(s, user, id, freshId, now);
        s', reply := st.store, ToReply(st.outcome, b => Created(b));
    }
  }

  // ----- properties across operations -----

  /** A board of one user is invisible to every other user: each
      id-addressed route answers NotFound and changes nothing. */
  lemma OtherUsersSeeNotFound(s: Store, owner: UserId, other: UserId, id: string,
                              body: JValue, freshId: string, now: Timestamp)
    requires id in s && s[id].userId == owner && other != owner && freshId !in s
    ensures Get(s, other, id) == NotFound
    ensures ParseUpdate(body).Some? ==> Update(s, other, id, body, now) == Step(s, NotFound)
    ensures Delete(s, other, id) == Step(s, NotFound)
    ensures Duplicate(s, other, id, freshId, now) == Step(s, NotFound)
  {
  }

  /** Validation precedes the ownership check: an invalid body is reported
      as invalid even for a board the caller cannot see, and never changes
      the store. */
  lemma ValidationBeforeOwnership(s: Store, user: UserId, id: string, body: JValue, now: Timestamp)
    requires ParseUpdate(body).None?
    ensures Update(s, user, id, body, now) == Step(s, Invalid)
  {
  }

  /** Partial-update semantics, for every accepted body: unknown keys play
      no part, so two bodies that agree on the four schema fields update
      alike; a body that supplies none of them changes only the update
      time; an empty thumbnail string is stored and an empty tag list
      replaces the old tags. */
  lemma UpdateChangesOnlySuppliedFields(s: Store, user: UserId, id: string, now: Timestamp,
                                        body: JValue, other: JValue)
    requires Owns(s, user, id) && ParseUpdate(body).Some? && other.JObj?
    requires forall k :: k in UPDATE_KEYS ==> Member(other, k) == Member(body, k)
    ensures Update(s, user, id, other, now) == Update(s, user, id, body, now)
    ensures (forall k :: k in UPDATE_KEYS ==> Member(body, k).None?) ==>
      Update(s, user, id, body, now).outcome == Ok(s[id].(updatedAt := now))
    ensures Member(body, "thumbnail") == Some(JStr("")) ==>
      Update(s, user, id, body, now).outcome.value.thumbnail == Some("")
    ensures Member(body, "tags") == Some(JArr([])) ==>
      Update(s, user, id, body, now).outcome.value.tags == []
  {
    assert ParseUpdate(other) == ParseUpdate(body) by {
      assert forall k :: k in UPDATE_KEYS ==> Member(other, k) == Member(body, k);
      assert Member(other, "name") == Member(body, "name");
      assert Member(other, "data") == Member(body, "data");
      assert Member(other, "thumbnail") == Member(body, "thumbnail");
      assert Member(other, "tags") == Member(body, "tags");
    }
    var r := Update(s, user, id, body, now).outcome;
    if Member(body, "tags") == Some(JArr([])) {
      assert StrArr(r.value.tags) == JArr([]);
    }
  }

  /** Deleting removes exactly one board, so a second delete of the same id
      is NotFound. */
  lemma DeleteTwice(s: Store, user: UserId, id: string)
    requires Owns(s, user, id)
    ensures var first := Delete(s, user, id);
      first.outcome.Ok? && first.store.Keys == s.Keys - {id}
      && Delete(first.store, user, id) == Step(first.store, NotFound)
  {
  }

  /** Creating and reading back returns the submitted data unchanged, with
      an update time not before the creation time. */
  lemma CreateThenGet(s: Store, user: UserId, body: JValue, freshId: string, now: Timestamp)
    requires freshId !in s && ParseCreate(body).Some?
    ensures var c := Create(s, user, body, freshId, now);
      var g := Get(c.store, user, freshId);
      g.Ok? && g.value.data == ParseCreate(body).value.data
      && g.value.data.elements == Member(body, "data").value.fields["elements"].items
      && g.value.updatedAt >= g.value.createdAt
  {
  }

  /** The copy's name is not re-validated: duplicating a board whose name
      has the maximum 255 characters yields a 262-character name that
      create and update would both reject. */
  lemma DuplicateNameMayExceedLimit(s: Store, user: UserId, id: string, freshId: string, now: Timestamp)
    requires Owns(s, user, id) && |s[id].name| == MAX_NAME_LENGTH && freshId !in s
    ensures var d := Duplicate(s, user, id, freshId, now).outcome;
      d.Ok? && |d.value.name| == 262 && !ValidName(d.value.name)
  {
  }

  /** Every operation keeps each row filed under its own id. */
  lemma OperationsKeepStoreValid(s: Store, user: UserId, id: string, body: JValue,
                                 freshId: string, now: Timestamp)
    requires Valid(s) && freshId !in s
    ensures Valid(Create(s, user, body, freshId, now).store)
    ensures Valid(Update(s, user, id, body, now).store)
    ensures Valid(Delete(s, user, id).store)
    ensures Valid(Duplicate(s, user, id, freshId, now).store)
  {
  }
}
