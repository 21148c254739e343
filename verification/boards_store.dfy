/** The client's boards store: the list of board summaries, the open board
    in its flattened form, and the transitions the hook performs. Each API
    call's outcome is an input (`ApiResult`), so every combination of
    successes and failures can be stated. A transition that goes on to
    select or create another board returns that as a `FollowUp` instead of
    performing it, so that the follow-up call has its own API outcome. */
module BoardsStore {
  import opened Wrappers
  import opened Json
  import opened SharedTypes
  import opened ClientTypes
  import opened BoardSchema
  import opened Codec
  import opened Thumbnail
  import Repository

  const UNTITLED := "Untitled Board"
  const DEFAULT_BACKGROUND := "#ffffff"
  /** Excalidraw's first font family. */
  const DEFAULT_FONT_FAMILY: real := 1.0

  datatype ApiResult<T> = Ok(value: T) | Err(message: string)

  datatype State = State(
    boards: seq<BoardMetadata>,
    currentBoardId: Option<string>,
    currentBoard: Option<ClientBoard>,
    isLoading: bool,
    error: Option<string>,
    lastSavedAt: Option<Timestamp>,
    /** the browser-storage entry `last_board_id` */
    lastBoardId: Option<string>)

  function Initial(lastBoardId: Option<string>): State {
    State([], None, None, true, None, None, lastBoardId)
  }

  datatype FollowUp = NoFollowUp | SelectNext(id: string) | CreateUntitled

  // ----- transformBoardData -----

  function DataOf(board: map<string, JValue>): Option<JValue> {
    if "data" in board then Some(board["data"]) else None
  }

  /** The JSON-level normalisation of a board from the API: every field is
      kept, and top-level `elements`, `appState` and `files` are added from
      `data`: elements only when they form an array, the other two only
      when truthy, with `[]`, `{}` and `{}` in their place otherwise. */
  function TransformBoardData(board: map<string, JValue>): (r: map<string, JValue>)
    ensures r.Keys == board.Keys + {"elements", "appState", "files"}
    ensures forall k :: k in board && k !in {"elements", "appState", "files"} ==> r[k] == board[k]
    ensures r["elements"].JArr? && Truthy(Some(r["appState"])) && Truthy(Some(r["files"]))
  {
    var data := DataOf(board);
    var els := MemberOf(data, "elements");
    board["elements" := if IsArray(els) then els.value else JArr([])]
         ["appState" := Or(MemberOf(data, "appState"), JObj(map[]))]
         ["files" := Or(MemberOf(data, "files"), JObj(map[]))]
  }

  /** The typed counterpart: the flattened board, with missing files
      defaulted to the empty map. */
  function ToWorking(b: Board): (c: ClientBoard)
    ensures c.id == b.id && c.name == b.name && c.tags == Some(b.tags)
    ensures c.elements == b.data.elements && c.appState == b.data.appState
    ensures c.files == Some(b.data.files.GetOr(map[]))
  {
    Flatten(b).(files := Some(b.data.files.GetOr(map[])))
  }

  /** On a well-formed wire board the JSON normalisation is exactly the
      typed one, plus the nested `data` that the spread carries along. */
  lemma TransformMatchesTyped(b: Board)
    ensures TransformBoardData(EncodeBoard(b)) == EncodeClient(ToWorking(b))["data" := EncodeBoardData(b.data)]
  {
    var c := ToWorking(b);
    EncodedBoardFields(b);
    EncodedClientFields(c);
    EncodedDataFields(b.data);
    var common := CommonFields(b.id, b.name, b.tags, b.createdAt, b.updatedAt, b.thumbnail);
    var d := EncodeBoardData(b.data);
    var els, st, fs := JArr(b.data.elements), JObj(b.data.appState), JObj(c.files.value);
    assert DataOf(EncodeBoard(b)) == Some(d);
    assert TransformBoardData(EncodeBoard(b)) == common["data" := d]["elements" := els]["appState" := st]["files" := fs];
    UpdatesCommute(common, "data", d, "elements", els);
    UpdatesCommute(common["elements" := els], "data", d, "appState", st);
    UpdatesCommute(common["elements" := els]["appState" := st], "data", d, "files", fs);
  }

  lemma UpdatesCommute<V>(m: map<string, V>, k1: string, v1: V, k2: string, v2: V)
    requires k1 != k2
    ensures m[k1 := v1][k2 := v2] == m[k2 := v2][k1 := v1]
  {
  }

  /** The fields every board encoding shares. */
  function CommonFields(id: string, name: string, tags: seq<string>, createdAt: Timestamp, updatedAt: Timestamp,
                        thumbnail: Option<string>): map<string, JValue> {
    var m := map["id" := JStr(id), "name" := JStr(name), "tags" := StrArr(tags),
                 "createdAt" := TimeJson(createdAt), "updatedAt" := TimeJson(updatedAt)];
    if thumbnail.Some? then m["thumbnail" := JStr(thumbnail.value)] else m
  }

  /** An encoded wire board: the common fields and the nested content. */
  lemma EncodedBoardFields(b: Board)
    ensures EncodeBoard(b)
         == CommonFields(b.id, b.name, b.tags, b.createdAt, b.updatedAt, b.thumbnail)["data" := EncodeBoardData(b.data)]
  {
  }

  /** An encoded client board with files and tags: the common fields and
      the flattened content. */
  lemma EncodedClientFields(c: ClientBoard)
    requires c.files.Some? && c.tags.Some?
    ensures EncodeClient(c)
         == CommonFields(c.id, c.name, c.tags.value, c.createdAt, c.updatedAt, c.thumbnail)
              ["elements" := JArr(c.elements)]["appState" := JObj(c.appState)]["files" := JObj(c.files.value)]
  {
  }

  /** The property reads of encoded board content. */
  lemma EncodedDataFields(d: BoardData)
    ensures var e := EncodeBoardData(d);
      && Member(e, "elements") == Some(JArr(d.elements))
      && Member(e, "appState") == Some(JObj(d.appState))
      && Member(e, "files") == OptObj(d.files)
  {
  }

  /** Where the three added fields come from: `data.elements` only when
      it is an array, `data.appState` and `data.files` only when truthy;
      so a board without `data` gets `[]`, `{}` and `{}`. */
  lemma TransformReadsData(board: map<string, JValue>)
    ensures var r := TransformBoardData(board);
      var data := DataOf(board);
      && (IsArray(MemberOf(data, "elements")) ==> Some(r["elements"]) == MemberOf(data, "elements"))
      && (!IsArray(MemberOf(data, "elements")) ==> r["elements"] == JArr([]))
      && (Truthy(MemberOf(data, "appState")) ==> Some(r["appState"]) == MemberOf(data, "appState"))
      && (!Truthy(MemberOf(data, "appState")) ==> r["appState"] == JObj(map[]))
      && (Truthy(MemberOf(data, "files")) ==> Some(r["files"]) == MemberOf(data, "files"))
      && (!Truthy(MemberOf(data, "files")) ==> r["files"] == JObj(map[]))
    ensures var r := TransformBoardData(board - {"data"});
      r["elements"] == JArr([]) && r["appState"] == JObj(map[]) && r["files"] == JObj(map[])
  {
  }

  // ----- createBoard -----

  const NEW_BOARD_APP_STATE: map<string, JValue> :=
    map["viewBackgroundColor" := JStr(DEFAULT_BACKGROUND), "currentItemFontFamily" := JNum(DEFAULT_FONT_FAMILY)]

  /** The request a new board is created with: nothing drawn, a white
      background, the first font family, no files. */
  function NewBoardRequest(name: string): CreateBoardRequest {
    CreateBoardRequest(name, BoardData([], NEW_BOARD_APP_STATE, None), None, None)
  }

  function NewBoardPayload(name: string): JValue {
    EncodeCreate(NewBoardRequest(name))
  }

  /** The server accepts the new-board payload exactly when the name is
      valid, and stores an empty board with no thumbnail and no tags. */
  lemma NewBoardIsEmpty(s: Repository.Store, user: string, name: string, freshId: string, now: Timestamp)
    requires freshId !in s
    ensures ParseCreate(NewBoardPayload(name)).Some? <==> ValidName(name)
    ensures ValidName(UNTITLED)
    ensures ValidName(name) ==>
      var c := Repository.Create(s, user, NewBoardPayload(name), freshId, now).outcome;
      && c.Ok? && c.value.name == name && c.value.data.elements == []
      && c.value.data.appState == NEW_BOARD_APP_STATE && c.value.data.files.None?
      && c.value.thumbnail.None? && c.value.tags == []
  {
    CreateRoundTrip(NewBoardRequest(name));
  }

  // ----- loadBoards / selectBoard / createBoard -----

  predicate Listed(boards: seq<BoardMetadata>, id: string) {
    exists i :: 0 <= i < |boards| && boards[i].id == id
  }

  /** The board to open after loading: the remembered one if it is
      non-empty and still listed, else the first; a new one when there is
      none at all. */
  function ChooseBoard(boards: seq<BoardMetadata>, lastId: Option<string>): (f: FollowUp)
    ensures f.CreateUntitled? <==> |boards| == 0
    ensures !f.NoFollowUp?
    ensures f.SelectNext? ==> Listed(boards, f.id)
    ensures f.SelectNext? && lastId.Some? && |lastId.value| > 0 && Listed(boards, lastId.value) ==> f.id == lastId.value
    ensures f.SelectNext? && f.id != boards[0].id ==> Some(f.id) == lastId
  {
    if |boards| == 0 then CreateUntitled
    else if lastId.Some? && |lastId.value| > 0 && Listed(boards, lastId.value) then SelectNext(lastId.value)
    else SelectNext(boards[0].id)
  }

  function LoadBoards(s: State, listed: ApiResult<seq<BoardMetadata>>): (r: (State, FollowUp))
    ensures listed.Err? ==> r.0 == s.(isLoading := false, error := Some(listed.message)) && r.1.NoFollowUp?
    ensures listed.Ok? ==>
      r.0 == s.(boards := listed.value, isLoading := false, error := None)
      && r.1 == ChooseBoard(listed.value, s.lastBoardId)
  {
    match listed
    case Err(m) => (s.(isLoading := false, error := Some(m)), NoFollowUp)
    case Ok(bs) => (s.(boards := bs, isLoading := false, error := None), ChooseBoard(bs, s.lastBoardId))
  }

  function SelectBoard(s: State, id: string, fetched: ApiResult<Board>): (r: State)
    ensures !r.isLoading && r.boards == s.boards && r.lastSavedAt == s.lastSavedAt
    ensures fetched.Ok? ==>
      r.currentBoardId == Some(id) && r.lastBoardId == Some(id)
      && r.currentBoard == Some(ToWorking(fetched.value)) && r.error.None?
    ensures fetched.Err? ==> r == s.(isLoading := false, error := Some(fetched.message))
  {
    match fetched
    case Err(m) => s.(isLoading := false, error := Some(m))
    case Ok(b) => s.(currentBoardId := Some(id), currentBoard := Some(ToWorking(b)),
                     isLoading := false, error := None, lastBoardId := Some(id))
  }

  /** Creating a board, then refreshing the list: the new board is opened
      and remembered only when both calls succeed. */
  function CreateBoard(s: State, created: ApiResult<Board>, listed: ApiResult<seq<BoardMetadata>>): (r: State)
    ensures !r.isLoading
    ensures created.Ok? && listed.Ok? ==>
      r == s.(boards := listed.value, currentBoardId := Some(created.value.id),
              currentBoard := Some(ToWorking(created.value)), isLoading := false, error := None,
              lastBoardId := Some(created.value.id))
    ensures created.Err? ==> r == s.(isLoading := false, error := Some(created.message))
    ensures created.Ok? && listed.Err? ==> r == s.(isLoading := false, error := Some(listed.message))
  {
    match (created, listed)
    case (Err(m), _) => s.(isLoading := false, error := Some(m))
    case (Ok(_), Err(m)) => s.(isLoading := false, error := Some(m))
    case (Ok(b), Ok(bs)) =>
      s.(boards := bs, currentBoardId := Some(b.id), currentBoard := Some(ToWorking(b)),
         isLoading := false, error := None, lastBoardId := Some(b.id))
  }

  /** Opening the app with a remembered board that still exists lands on
      that board. */
  lemma ReloadReopensLastBoard(s: State, bs: seq<BoardMetadata>, i: nat, b: Board)
    requires i < |bs| && s.lastBoardId == Some(bs[i].id) && |bs[i].id| > 0
    ensures var (s1, f) := LoadBoards(s, Ok(bs));
      f == SelectNext(bs[i].id) && SelectBoard(s1, f.id, Ok(b)).currentBoardId == s.lastBoardId
  {
  }

  // ----- updateCurrentBoard -----

  /** The autosave request: the new content, and the thumbnail, which is
      left out when none could be made. */
  function UpdatePayload(elements: seq<JValue>, appState: map<string, JValue>,
                         files: Option<map<string, JValue>>, thumbnail: Option<string>): JValue {
    EncodeUpdate(UpdateBoardRequest(None, Some(BoardData(elements, appState, files)), thumbnail, None))
  }

  /** Saving the open board. Without an open board nothing happens and
      nothing is sent. The thumbnail is awaited first: when it rejects
      (the image could be rendered but not read), the `catch` swallows the
      error and this save is lost, with nothing sent. Otherwise the
      returned request is sent; a failed save changes nothing, not even
      `error`; a failed list refresh after a successful save keeps the old
      list. */
  function UpdateCurrentBoard(s: State, elements: seq<JValue>, appState: map<string, JValue>,
                              files: Option<map<string, JValue>>, render: Renderer, read: Reader,
                              updated: ApiResult<Board>, listed: ApiResult<seq<BoardMetadata>>,
                              now: Timestamp): (r: (State, Option<JValue>))
    ensures s.currentBoard.None? ==> r == (s, None)
    ensures GenerateThumbnailAsWritten(Some(elements), appState, files, render, read).Rejected? ==> r == (s, None)
    ensures s.currentBoard.Some? && GenerateThumbnailAsWritten(Some(elements), appState, files, render, read).Resolved? ==>
      r.1 == Some(UpdatePayload(elements, appState, files, GenerateThumbnail(Some(elements), appState, files, render, read)))
    ensures updated.Err? ==> r.0 == s
    ensures r.0.error == s.error && r.0.currentBoardId == s.currentBoardId
    ensures s.currentBoard.Some? && updated.Ok?
            && GenerateThumbnailAsWritten(Some(elements), appState, files, render, read).Resolved? ==>
      && r.0.currentBoard == Some(ToWorking(updated.value))
      && r.0.lastSavedAt == Some(now)
      && r.0.boards == (if listed.Ok? then listed.value else s.boards)
  {
    if s.currentBoard.None? then (s, None)
    else
      match GenerateThumbnailAsWritten(Some(elements), appState, files, render, read)
      case Rejected => (s, None)
      case Resolved(thumbnail) =>
        var payload := UpdatePayload(elements, appState, files, thumbnail);
        match updated
        case Err(_) => (s, Some(payload))
        case Ok(b) =>
          var saved := s.(currentBoard := Some(ToWorking(b)), lastSavedAt := Some(now));
          (if listed.Ok? then saved.(boards := listed.value) else saved, Some(payload))
  }

  /** The autosave lost to the thumbnail defect: a drawing that renders
      but whose image cannot be read is never sent, and the store is left
      as it was. */
  lemma ReadFailureLosesAutosave(s: State, element: JValue, appState: map<string, JValue>,
                                 updated: ApiResult<Board>, listed: ApiResult<seq<BoardMetadata>>,
                                 now: Timestamp)
    requires s.currentBoard.Some?
    ensures UpdateCurrentBoard(s, [element], appState, None, _ => Some(Blob([])), _ => None,
                               updated, listed, now) == (s, None)
  {
  }

  /** Autosaving an empty drawing sends no thumbnail, so the server keeps
      whichever thumbnail it had, while the content is replaced. */
  lemma EmptyAutosaveKeepsThumbnail(s: State, appState: map<string, JValue>, files: Option<map<string, JValue>>,
                                    render: Renderer, read: Reader, updated: ApiResult<Board>,
                                    listed: ApiResult<seq<BoardMetadata>>, now: Timestamp,
                                    store: Repository.Store, user: string)
    requires s.currentBoard.Some? && Repository.Owns(store, user, s.currentBoard.value.id)
    ensures var payload := UpdateCurrentBoard(s, [], appState, files, render, read, updated, listed, now).1;
      && payload.Some?
      && var saved := Repository.Update(store, user, s.currentBoard.value.id, payload.value, now).outcome;
      && saved.Ok?
      && saved.value.thumbnail == store[s.currentBoard.value.id].thumbnail
      && saved.value.data == BoardData([], appState, files)
      && saved.value.name == store[s.currentBoard.value.id].name
  {
    var req := UpdateBoardRequest(None, Some(BoardData([], appState, files)), None, None);
    UpdateRoundTrip(req);
  }

  // ----- removeBoard -----

  /** Deleting a board, then refreshing the list. When the deleted board
      was the open one, the first listed board is opened next, or a new
      one is created when none is left. Any failure only sets `error`. */
  function RemoveBoard(s: State, id: string, deleted: ApiResult<()>,
                       listed: ApiResult<seq<BoardMetadata>>): (r: (State, FollowUp))
    ensures deleted.Err? ==> r == (s.(error := Some(deleted.message)), NoFollowUp)
    ensures deleted.Ok? && listed.Err? ==> r == (s.(error := Some(listed.message)), NoFollowUp)
    ensures deleted.Ok? && listed.Ok? ==> r.0 == s.(boards := listed.value)
    ensures deleted.Ok? && listed.Ok? && s.currentBoardId != Some(id) ==> r.1.NoFollowUp?
    ensures deleted.Ok? && listed.Ok? && s.currentBoardId == Some(id) ==>
      (r.1.CreateUntitled? <==> |listed.value| == 0)
      && (r.1.SelectNext? ==> r.1.id == listed.value[0].id)
  {
    match (deleted, listed)
    case (Err(m), _) => (s.(error := Some(m)), NoFollowUp)
    case (Ok(_), Err(m)) => (s.(error := Some(m)), NoFollowUp)
    case (Ok(_), Ok(bs)) =>
      var next := if s.currentBoardId != Some(id) then NoFollowUp
                  else if |bs| > 0 then SelectNext(bs[0].id)
                  else CreateUntitled;
      (s.(boards := bs), next)
  }

  /** Deleting the open board never leaves the deleted id selected when the
      refreshed list no longer holds it. */
  lemma RemoveNeverReselectsDeleted(s: State, id: string, bs: seq<BoardMetadata>)
    requires s.currentBoardId == Some(id) && !Listed(bs, id)
    ensures var f := RemoveBoard(s, id, Ok(()), Ok(bs)).1;
      !f.NoFollowUp? && (f.SelectNext? ==> f.id != id && Listed(bs, f.id))
  {
    if |bs| > 0 {
      assert bs[0].id != id;
    }
  }

  // ----- importBoard / importBoards -----

  /** `Array.from` on the values an import can hold: an array is copied, a
      string becomes its characters, and anything else gives no elements. */
  function ArrayFrom(v: JValue): (r: seq<JValue>)
    ensures v.JArr? ==> r == v.items
    ensures v.JStr? ==> |r| == |v.s|
    ensures !v.JArr? && !v.JStr? ==> r == []
  {
    match v
    case JArr(xs) => xs
    case JStr(s) => seq(|s|, i requires 0 <= i < |s| => JStr([s[i]]))
    case _ => []
  }

  /** The create request for an imported board: elements default to `[]`
      and the app state to `{}` when missing or falsy; the name, files and
      tags go as they are (the server validates them); an imported board
      has no thumbnail. */
  function ImportPayload(ib: ImportedBoard): (r: JValue)
    ensures r.JObj? && "thumbnail" !in r.fields && "data" in r.fields
    ensures Member(r.fields["data"], "elements") == Some(JArr(ArrayFrom(Or(ib.elements, JArr([])))))
    ensures Member(r.fields["data"], "appState") == Some(Or(ib.appState, JObj(map[])))
  {
    var data := Put(map["elements" := JArr(ArrayFrom(Or(ib.elements, JArr([])))),
                        "appState" := Or(ib.appState, JObj(map[]))], "files", ib.files);
    JObj(Put(Put(map["data" := JObj(data)], "name", ib.name), "tags", ib.tags))
  }

  /** Export then import re-creates the board's name, content and tags,
      without its thumbnail; when the name is no longer valid the server
      rejects it. */
  lemma ImportRecreatesExport(b: ClientBoard, ids: IdSource, now: Timestamp)
    ensures var ib := ImportBoardFromFile(Some(Parsed(ExportEnvelope(b))), ids, now);
      && ib.Single?
      && ParseCreate(ImportPayload(ib.board))
         == if ValidName(b.name) then Some(CreateBoardRequest(b.name, BoardData(b.elements, b.appState, b.files), None, b.tags))
            else None
  {
    SingleExportRoundTrip(b, ids, now);
    var req := CreateBoardRequest(b.name, BoardData(b.elements, b.appState, b.files), None, b.tags);
    ImportPayloadOfExport(b, ids(0), now);
    CreateRoundTrip(req);
  }

  /** The create request for a re-imported export is the typed request
      with the board's content and tags and no thumbnail. */
  lemma ImportPayloadOfExport(b: ClientBoard, id: string, now: Timestamp)
    ensures ImportPayload(ImportedFrom(b, id, now))
         == EncodeCreate(CreateBoardRequest(b.name, BoardData(b.elements, b.appState, b.files), None, b.tags))
  {
    var ib := ImportedFrom(b, id, now);
    assert ArrayFrom(Or(ib.elements, JArr([]))) == b.elements;
    assert Or(ib.appState, JObj(map[])) == JObj(b.appState);
  }

  /** Importing one board: it is opened and remembered when both the
      create and the list refresh succeed; any failure only sets `error`. */
  function ImportBoard(s: State, created: ApiResult<Board>, listed: ApiResult<seq<BoardMetadata>>): (r: State)
    ensures created.Ok? && listed.Ok? ==>
      r == s.(boards := listed.value, currentBoardId := Some(created.value.id),
              currentBoard := Some(ToWorking(created.value)), lastBoardId := Some(created.value.id))
    ensures created.Err? ==> r == s.(error := Some(created.message))
    ensures created.Ok? && listed.Err? ==> r == s.(error := Some(listed.message))
  {
    match (created, listed)
    case (Err(m), _) => s.(error := Some(m))
    case (Ok(_), Err(m)) => s.(error := Some(m))
    case (Ok(b), Ok(bs)) =>
      s.(boards := bs, currentBoardId := Some(b.id), currentBoard := Some(ToWorking(b)), lastBoardId := Some(b.id))
  }

  /** The index of the first failed create, if any. */
  function FirstFailure<T>(outcomes: seq<ApiResult<T>>): (r: Option<nat>)
    ensures r.Some? ==> r.value < |outcomes| && outcomes[r.value].Err?
                        && forall j :: 0 <= j < r.value ==> outcomes[j].Ok?
    ensures r.None? ==> forall j :: 0 <= j < |outcomes| ==> outcomes[j].Ok?
  {
    if |outcomes| == 0 then None
    else if outcomes[0].Err? then Some(0)
    else
      var rest := FirstFailure(outcomes[1..]);
      if rest.None? then None else Some(rest.value + 1)
  }

  /** The create requests `importBoards` sends, one per board in order,
      stopping after the first that fails. */
  function ImportRequests(boards: seq<ImportedBoard>, outcomes: seq<ApiResult<Board>>): (r: seq<JValue>)
    requires |outcomes| == |boards|
    ensures FirstFailure(outcomes).None? ==> |r| == |boards|
    ensures FirstFailure(outcomes).Some? ==> |r| == FirstFailure(outcomes).value + 1
    ensures forall i :: 0 <= i < |r| ==> r[i] == ImportPayload(boards[i])
  {
    var n := if FirstFailure(outcomes).None? then |boards| else FirstFailure(outcomes).value + 1;
    seq(n, i requires 0 <= i < n => ImportPayload(boards[i]))
  }

  /** Importing a backup: after all creates succeed and the list is
      refreshed, the first listed board is opened next. A failed create
      stops the import and only sets `error`; the boards created before it
      stay. */
  function ImportBoards(s: State, outcomes: seq<ApiResult<Board>>,
                        listed: ApiResult<seq<BoardMetadata>>): (r: (State, FollowUp))
    ensures FirstFailure(outcomes).Some? ==>
      r == (s.(error := Some(outcomes[FirstFailure(outcomes).value].message)), NoFollowUp)
    ensures FirstFailure(outcomes).None? && listed.Err? ==> r == (s.(error := Some(listed.message)), NoFollowUp)
    ensures FirstFailure(outcomes).None? && listed.Ok? ==>
      r.0 == s.(boards := listed.value)
      && (|listed.value| > 0 ==> r.1 == SelectNext(listed.value[0].id))
      && (|listed.value| == 0 ==> r.1.NoFollowUp?)
  {
    var failure := FirstFailure(outcomes);
    if failure.Some? then (s.(error := Some(outcomes[failure.value].message)), NoFollowUp)
    else match listed
      case Err(m) => (s.(error := Some(m)), NoFollowUp)
      case Ok(bs) => (s.(boards := bs), if |bs| > 0 then SelectNext(bs[0].id) else NoFollowUp)
  }

  /** Dismissing the error banner: the list, the open board and the
      loading flag stay as they are. */
  function ClearError(s: State): (r: State)
    ensures r.error.None?
    ensures r.boards == s.boards && r.currentBoardId == s.currentBoardId && r.currentBoard == s.currentBoard
    ensures r.isLoading == s.isLoading && r.lastSavedAt == s.lastSavedAt && r.lastBoardId == s.lastBoardId
  {
    s.(error := None)
  }
}
