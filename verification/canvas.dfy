/** What the drawing canvas is opened with: the open board's elements, a
    reduced app state holding only six properties, and its files. The
    canvas itself is external; every change it reports is handed to the
    autosave. */
module Canvas {
  import opened Wrappers
  import opened Json
  import opened SharedTypes
  import BoardsStore
  import Thumbnail

  /** Milliseconds the autosave waits for changes to settle. */
  const AUTOSAVE_INTERVAL: nat := 5000
  const DEFAULT_BACKGROUND := "#ffffff"
  const DEFAULT_FONT_FAMILY: real := 1.0

  const PASSED_THROUGH: set<string> := {"theme", "zoom", "scrollX", "scrollY"}
  const CANVAS_KEYS: set<string> := {"viewBackgroundColor", "currentItemFontFamily"} + PASSED_THROUGH

  /** The canvas's initial data. The app state has exactly six keys, some
      of which may hold `undefined`. */
  datatype InitialData = InitialData(
    elements: seq<JValue>,
    appState: map<string, Option<JValue>>,
    files: Option<JValue>,
    scrollToContent: bool)

  /** The reduced app state: the background colour and font family replaced
      by their defaults when falsy, the view properties copied as they
      are, whatever their value, and nothing else. */
  function SanitizeAppState(raw: Option<JValue>): (r: map<string, Option<JValue>>)
    ensures r.Keys == CANVAS_KEYS
    ensures var src := Or(raw, JObj(map[]));
      && (forall k :: k in PASSED_THROUGH ==> r[k] == Member(src, k))
      && Truthy(r["viewBackgroundColor"]) && Truthy(r["currentItemFontFamily"])
      && (Truthy(Member(src, "viewBackgroundColor")) ==> r["viewBackgroundColor"] == Member(src, "viewBackgroundColor"))
      && (Truthy(Member(src, "currentItemFontFamily")) ==> r["currentItemFontFamily"] == Member(src, "currentItemFontFamily"))
      && (!Truthy(Member(src, "viewBackgroundColor")) ==> r["viewBackgroundColor"] == Some(JStr("#ffffff")))
      && (!Truthy(Member(src, "currentItemFontFamily")) ==> r["currentItemFontFamily"] == Some(JNum(1.0)))
  {
    var src := Or(raw, JObj(map[]));
    map[
      "viewBackgroundColor" := Some(Or(Member(src, "viewBackgroundColor"), JStr(DEFAULT_BACKGROUND))),
      "currentItemFontFamily" := Some(Or(Member(src, "currentItemFontFamily"), JNum(DEFAULT_FONT_FAMILY))),
      "theme" := Member(src, "theme"),
      "zoom" := Member(src, "zoom"),
      "scrollX" := Member(src, "scrollX"),
      "scrollY" := Member(src, "scrollY")]
  }

  /** The canvas's initial data for the open board (a JSON object as the
      store holds it), or `None` while no board is open. */
  function InitialDataFor(current: Option<map<string, JValue>>): (r: Option<InitialData>)
    ensures r.Some? <==> current.Some?
    ensures r.Some? ==>
      var board := JObj(current.value);
      && r.value.scrollToContent
      && (IsArray(Member(board, "elements")) ==> JArr(r.value.elements) == Member(board, "elements").value)
      && (!IsArray(Member(board, "elements")) ==> r.value.elements == [])
      && r.value.appState == SanitizeAppState(Member(board, "appState"))
      && (r.value.files.Some? <==> Truthy(Member(board, "files")) && KeyCount(Member(board, "files").value) > 0)
      && (r.value.files.Some? ==> r.value.files == Member(board, "files"))
  {
    if current.None? then None
    else
      var board := JObj(current.value);
      var els := Member(board, "elements");
      var files := Member(board, "files");
      Some(InitialData(
        if IsArray(els) then els.value.items else [],
        SanitizeAppState(Member(board, "appState")),
        if Truthy(files) && KeyCount(files.value) > 0 then files else None,
        true))
  }

  /** Falsy values are replaced even when meaningful elsewhere: a font
      family of 0 becomes 1 and an empty colour becomes white, while a
      falsy zoom or scroll position is kept. */
  lemma FalsyValuesDefaulted(zero: JValue)
    requires !Truthy(Some(zero))
    ensures var r := SanitizeAppState(Some(JObj(map[
        "viewBackgroundColor" := JStr(""), "currentItemFontFamily" := JNum(0.0),
        "scrollX" := zero])));
      && r["viewBackgroundColor"] == Some(JStr(DEFAULT_BACKGROUND))
      && r["currentItemFontFamily"] == Some(JNum(DEFAULT_FONT_FAMILY))
      && r["scrollX"] == Some(zero)
      && r["zoom"].None? && r["theme"].None?
  {
  }

  /** The defined entries of a reduced app state, as an object. */
  function Defined(m: map<string, Option<JValue>>): (r: map<string, JValue>)
    ensures forall k :: k in r <==> k in m && m[k].Some?
  {
    map k | k in m && m[k].Some? :: m[k].value
  }

  /** Reducing an already reduced app state changes nothing. */
  lemma SanitizeIdempotent(raw: Option<JValue>)
    ensures SanitizeAppState(Some(JObj(Defined(SanitizeAppState(raw))))) == SanitizeAppState(raw)
  {
    var r := SanitizeAppState(raw);
    var r2 := SanitizeAppState(Some(JObj(Defined(r))));
    forall k | k in CANVAS_KEYS ensures r2[k] == r[k] {
      assert k in Defined(r) <==> r[k].Some?;
    }
  }

  /** The canvas opens a board loaded from the server with that board's
      elements and files, except that an empty file map is left out. */
  lemma CanvasOfLoadedBoard(b: Board)
    ensures var r := InitialDataFor(Some(BoardsStore.TransformBoardData(EncodeBoard(b))));
      && r.Some?
      && r.value.elements == b.data.elements
      && r.value.appState == SanitizeAppState(Some(JObj(b.data.appState)))
      && (r.value.files.Some? <==> b.data.files.Some? && |b.data.files.value| > 0)
      && (r.value.files.Some? ==> r.value.files == Some(JObj(b.data.files.value)))
  {
    BoardsStore.TransformMatchesTyped(b);
    var t := BoardsStore.TransformBoardData(EncodeBoard(b));
    var c := BoardsStore.ToWorking(b);
    BoardsStore.EncodedClientFields(c);
    assert t["elements"] == JArr(b.data.elements);
    assert t["appState"] == JObj(b.data.appState);
    assert t["files"] == JObj(b.data.files.GetOr(map[]));
  }

  /** The arguments a canvas change hands to the autosave, which passes
      them unchanged to the store's save. */
  datatype SaveCall = SaveCall(elements: seq<JValue>, appState: map<string, JValue>,
                               files: Option<map<string, JValue>>)

  /** A change reported by the canvas at time `at` (milliseconds). */
  datatype Change = Change(at: int, call: SaveCall)

  /** The canvas re-renders at some time in `(a, b]`. Every render builds
      a new debounced save (its `onSave` is a fresh closure each time), and
      a call still pending in the previous one is not cancelled. A render
      at the very time of a change is taken to come first. */
  predicate RenderBetween(renders: seq<int>, a: int, b: int) {
    exists k :: 0 <= k < |renders| && a < renders[k] <= b
  }

  /** The debounced save of change `i` fires: no later change reaches the
      same debounced function within `AUTOSAVE_INTERVAL` of it, either
      because the next change comes later or because a render in between
      handed the next change to a new debounced function. */
  predicate Fires(cs: seq<Change>, renders: seq<int>, i: nat)
    requires i < |cs|
  {
    || i == |cs| - 1
    || cs[i + 1].at - cs[i].at >= AUTOSAVE_INTERVAL
    || RenderBetween(renders, cs[i].at, cs[i + 1].at)
  }

  /** The saves a stream of canvas changes triggers, in order, given the
      times the canvas re-renders: each change restarts the timer of the
      current debounced function, so a change is saved when the canvas
      stays quiet for the whole interval after it or re-renders before the
      next change, and the last change is always saved. */
  function AutosaveCalls(cs: seq<Change>, renders: seq<int>): (r: seq<SaveCall>)
    ensures |r| <= |cs|
    ensures |cs| > 0 ==> |r| > 0 && r[|r| - 1] == cs[|cs| - 1].call
    ensures forall i :: 0 <= i < |cs| && Fires(cs, renders, i) ==> cs[i].call in r
    ensures forall c :: c in r ==> exists i :: 0 <= i < |cs| && Fires(cs, renders, i) && cs[i].call == c
    decreases |cs|
  {
    if |cs| == 0 then []
    else
      var rest := AutosaveCalls(cs[1..], renders);
      assert forall i :: 1 <= i < |cs| ==> (Fires(cs, renders, i) <==> Fires(cs[1..], renders, i - 1));
      (if Fires(cs, renders, 0) then [cs[0].call] else []) + rest
  }

  /** Edits that follow each other more closely than the interval, with
      no re-render between them, are saved once, with the drawing as it
      stands after the last one. */
  lemma {:induction false} QuickEditsSaveOnce(cs: seq<Change>, renders: seq<int>)
    requires |cs| > 0
    requires forall i :: 0 <= i < |cs| - 1 ==> cs[i + 1].at - cs[i].at < AUTOSAVE_INTERVAL
    requires forall i :: 0 <= i < |cs| - 1 ==> !RenderBetween(renders, cs[i].at, cs[i + 1].at)
    ensures AutosaveCalls(cs, renders) == [cs[|cs| - 1].call]
  {
    if |cs| > 1 {
      assert !Fires(cs, renders, 0);
      QuickEditsSaveOnce(cs[1..], renders);
    }
  }

  /** A re-render between two quick edits saves both: the store update
      after the first save re-renders the canvas, so the edit pending in
      the previous debounced function is saved as well as the later one. */
  lemma RerenderSavesPendingChange(a: SaveCall, b: SaveCall, c: SaveCall)
    ensures AutosaveCalls([Change(0, a), Change(5100, b), Change(5300, c)], [5200]) == [a, b, c]
    ensures AutosaveCalls([Change(0, a), Change(5100, b), Change(5300, c)], []) == [a, c]
  {
    var cs := [Change(0, a), Change(5100, b), Change(5300, c)];
    assert RenderBetween([5200], 5100, 5300) by { assert 5100 < [5200][0] <= 5300; }
    assert cs[1..] == [Change(5100, b), Change(5300, c)];
    assert cs[1..][1..] == [Change(5300, c)];
    assert cs[1..][1..][1..] == [];
  }

  /** The last save of a burst sends the store the latest drawing: unless
      its thumbnail rejects, the update request carries exactly the final
      elements, app state and files. */
  lemma AutosaveSendsLatest(cs: seq<Change>, renders: seq<int>, s: BoardsStore.State, render: Thumbnail.Renderer,
                            read: Thumbnail.Reader, updated: BoardsStore.ApiResult<Board>,
                            listed: BoardsStore.ApiResult<seq<BoardMetadata>>, now: Timestamp)
    requires |cs| > 0 && s.currentBoard.Some?
    ensures var c := AutosaveCalls(cs, renders)[|AutosaveCalls(cs, renders)| - 1];
      var sent := BoardsStore.UpdateCurrentBoard(s, c.elements, c.appState, c.files, render, read, updated, listed, now).1;
      && (Thumbnail.GenerateThumbnailAsWritten(Some(c.elements), c.appState, c.files, render, read).Resolved? ==>
            sent.Some? && Member(sent.value, "data") == Some(EncodeBoardData(BoardData(c.elements, c.appState, c.files))))
      && c == cs[|cs| - 1].call
  {
  }
}
