/** The wire types shared by the API and the web client: a board keeps its
    drawing content nested under `data`, and the list view uses a projection
    without it. Drawing elements and app-state entries are opaque JSON. */
module SharedTypes {
  import opened Wrappers
  import opened Json

  /** Milliseconds since the epoch; the ISO-8601 text form is not modelled. */
  type Timestamp = int

  datatype User = User(id: string, email: string, name: Option<string>, createdAt: Timestamp)

  /** `elements` and `appState` are required, `files` is optional. */
  datatype BoardData = BoardData(
    elements: seq<JValue>,
    appState: map<string, JValue>,
    files: Option<map<string, JValue>>)

  datatype Board = Board(
    id: string,
    name: string,
    data: BoardData,
    thumbnail: Option<string>,
    tags: seq<string>,
    createdAt: Timestamp,
    updatedAt: Timestamp)

  /** The list-view projection: every `Board` field except `data`. */
  datatype BoardMetadata = BoardMetadata(
    id: string,
    name: string,
    thumbnail: Option<string>,
    tags: seq<string>,
    createdAt: Timestamp,
    updatedAt: Timestamp)

  /** `name` and `data` are required; `thumbnail` and `tags` may be omitted. */
  datatype CreateBoardRequest = CreateBoardRequest(
    name: string,
    data: BoardData,
    thumbnail: Option<string>,
    tags: Option<seq<string>>)

  /** Every field may be omitted. */
  datatype UpdateBoardRequest = UpdateBoardRequest(
    name: Option<string>,
    data: Option<BoardData>,
    thumbnail: Option<string>,
    tags: Option<seq<string>>)

  function Metadata(b: Board): BoardMetadata {
    BoardMetadata(b.id, b.name, b.thumbnail, b.tags, b.createdAt, b.updatedAt)
  }

  function WithData(m: BoardMetadata, d: BoardData): Board {
    Board(m.id, m.name, d, m.thumbnail, m.tags, m.createdAt, m.updatedAt)
  }

  /** A board is exactly its metadata plus its `data`: splitting and
      rejoining loses nothing, in both directions. */
  lemma MetadataIsBoardWithoutData(b: Board, m: BoardMetadata, d: BoardData)
    ensures WithData(Metadata(b), b.data) == b
    ensures Metadata(WithData(m, d)) == m
    ensures WithData(m, d).data == d
  {
  }

  // ----- JSON encodings (what `JSON.stringify` sends over the wire) -----

  function TimeJson(t: Timestamp): JValue {
    JNum(t as real)
  }

  function EncodeBoardData(d: BoardData): (r: JValue)
    ensures r.JObj? && "elements" in r.fields && "appState" in r.fields
    ensures ("files" in r.fields) == d.files.Some?
  {
    JObj(Put(map["elements" := JArr(d.elements), "appState" := JObj(d.appState)],
             "files", OptObj(d.files)))
  }

  /** The wire board as a JSON object, with `data` nested. */
  function EncodeBoard(b: Board): map<string, JValue> {
    Put(map[
      "id" := JStr(b.id),
      "name" := JStr(b.name),
      "data" := EncodeBoardData(b.data),
      "tags" := StrArr(b.tags),
      "createdAt" := TimeJson(b.createdAt),
      "updatedAt" := TimeJson(b.updatedAt)], "thumbnail", OptStr(b.thumbnail))
  }

  function EncodeCreate(r: CreateBoardRequest): JValue {
    JObj(Put(Put(map["name" := JStr(r.name), "data" := EncodeBoardData(r.data)],
                 "thumbnail", OptStr(r.thumbnail)), "tags", OptStrArr(r.tags)))
  }

  function EncodeUpdate(r: UpdateBoardRequest): JValue {
    var data := if r.data.Some? then Some(EncodeBoardData(r.data.value)) else None;
    JObj(Put(Put(Put(Put(map[], "name", OptStr(r.name)), "data", data),
                 "thumbnail", OptStr(r.thumbnail)), "tags", OptStrArr(r.tags)))
  }
}
