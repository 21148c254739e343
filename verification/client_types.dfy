/** The web client's own types: a board with its content flattened to the
    top level, the settings record and the single-board export envelope. */
module ClientTypes {
  import opened Wrappers
  import opened Json
  import opened SharedTypes

  /** Unlike the wire `Board`, `tags` may be missing here. */
  datatype ClientBoard = ClientBoard(
    id: string,
    name: string,
    elements: seq<JValue>,
    appState: map<string, JValue>,
    files: Option<map<string, JValue>>,
    createdAt: Timestamp,
    updatedAt: Timestamp,
    thumbnail: Option<string>,
    tags: Option<seq<string>>)

  datatype BoardsListData = BoardsListData(boards: seq<BoardMetadata>)

  datatype Theme = Light | Dark | Auto

  datatype Settings = Settings(theme: Theme, autoSaveInterval: int, gridEnabled: bool)

  function ThemeName(t: Theme): string {
    match t
    case Light => "light"
    case Dark => "dark"
    case Auto => "auto"
  }

  function ParseTheme(s: string): (r: Option<Theme>)
    ensures r.Some? ==> ThemeName(r.value) == s
  {
    if s == "light" then Some(Light)
    else if s == "dark" then Some(Dark)
    else if s == "auto" then Some(Auto)
    else None
  }

  /** The settings theme ranges over exactly the three names. */
  lemma ThemeNamesRoundTrip(t: Theme, s: string)
    ensures ParseTheme(ThemeName(t)) == Some(t)
    ensures ParseTheme(s).Some? <==> s in {"light", "dark", "auto"}
  {
  }

  /** The export envelope of one board. */
  datatype ExportBoard = ExportBoard(
    id: string,
    name: string,
    elements: seq<JValue>,
    appState: map<string, JValue>,
    files: Option<map<string, JValue>>)

  datatype ExportMetadata = ExportMetadata(
    createdAt: Timestamp,
    updatedAt: Timestamp,
    creator: string,
    tags: Option<seq<string>>)

  datatype ExportData = ExportData(version: string, board: ExportBoard, metadata: ExportMetadata)

  /** Moving the nested `data` fields of a wire board to the top level. */
  function Flatten(b: Board): ClientBoard {
    ClientBoard(b.id, b.name, b.data.elements, b.data.appState, b.data.files,
                b.createdAt, b.updatedAt, b.thumbnail, Some(b.tags))
  }

  /** Nesting them back; missing tags become the empty list. */
  function Nest(c: ClientBoard): Board {
    Board(c.id, c.name, BoardData(c.elements, c.appState, c.files),
          c.thumbnail, c.tags.GetOr([]), c.createdAt, c.updatedAt)
  }

  /** Flattening loses nothing, and a flattened board always has tags. */
  lemma FlattenNestRoundTrip(b: Board, c: ClientBoard)
    ensures Nest(Flatten(b)) == b
    ensures Flatten(b).tags.Some?
    ensures c.tags.Some? ==> Flatten(Nest(c)) == c
    ensures c.tags.None? ==> Flatten(Nest(c)) == c.(tags := Some([]))
  {
  }

  /** The flattened board as a JSON object (optional fields left out). */
  function EncodeClient(c: ClientBoard): map<string, JValue> {
    var required := map[
      "id" := JStr(c.id),
      "name" := JStr(c.name),
      "elements" := JArr(c.elements),
      "appState" := JObj(c.appState),
      "createdAt" := TimeJson(c.createdAt),
      "updatedAt" := TimeJson(c.updatedAt)];
    Put(Put(Put(required, "files", OptObj(c.files)), "thumbnail", OptStr(c.thumbnail)), "tags", OptStrArr(c.tags))
  }
}
