/** The legacy browser storage of boards: one entry for the list of board
    summaries, one per board, one for the settings and one for the last
    opened board, all under keys that start with `drawboard_`. Each entry
    is a text together with the document it parses to; what the text looks
    like is given by a serializer, of which only the non-emptiness of its
    output is known. Storage-quota failures are not modelled. */
module Storage {
  import opened Wrappers
  import opened Strings
  import opened SharedTypes
  import opened ClientTypes
  import opened Seqs

  const APP_PREFIX := "drawboard_"
  const BOARDS_LIST_KEY := "drawboard_boards"
  const BOARD_PREFIX := "drawboard_board_"
  const SETTINGS_KEY := "drawboard_settings"
  const LAST_BOARD_ID_KEY := "drawboard_last_board_id"

  const DEFAULT_SETTINGS := Settings(Auto, 5000, true)

  function BoardKey(id: string): string {
    BOARD_PREFIX + id
  }

  /** What an entry's text parses to. `NotADocument` covers text that does
      not parse and JSON of any other shape. */
  datatype Doc =
    | NotADocument
    | ListDoc(boards: Option<seq<BoardMetadata>>)
    | BoardDoc(board: ClientBoard)
    | SettingsDoc(theme: Option<Theme>, autoSaveInterval: Option<int>, gridEnabled: Option<bool>)

  datatype Slot = Slot(text: string, doc: Doc)

  type LocalStore = map<string, Slot>

  /** `JSON.stringify` never produces the empty text. */
  type JsonText = s: string | |s| > 0 witness "{}"
  type Serializer = Doc -> JsonText

  function Write(ls: LocalStore, show: Serializer, key: string, doc: Doc): (r: LocalStore)
    ensures r.Keys == ls.Keys + {key}
    ensures r[key].doc == doc && |r[key].text| > 0
    ensures forall k :: k in ls && k != key ==> r[k] == ls[k]
  {
    ls[key := Slot(show(doc), doc)]
  }

  /** `getItem` followed by the falsy test: a missing entry and an empty
      text are both "nothing stored". */
  function Read(ls: LocalStore, key: string): Option<Doc> {
    if key in ls && |ls[key].text| > 0 then Some(ls[key].doc) else None
  }

  /** The four kinds of key never collide and all carry the app prefix. */
  lemma KeysDistinct(id: string, id': string)
    ensures BoardKey(id) != BOARDS_LIST_KEY && BoardKey(id) != SETTINGS_KEY && BoardKey(id) != LAST_BOARD_ID_KEY
    ensures BoardKey(id) == BoardKey(id') ==> id == id'
    ensures StartsWith(BoardKey(id), APP_PREFIX) && StartsWith(BOARDS_LIST_KEY, APP_PREFIX)
    ensures StartsWith(SETTINGS_KEY, APP_PREFIX) && StartsWith(LAST_BOARD_ID_KEY, APP_PREFIX)
  {
    assert BoardKey(id)[15] == '_' && BOARDS_LIST_KEY[15] == 's';
    assert BoardKey(id)[10] == 'b' && SETTINGS_KEY[10] == 's' && LAST_BOARD_ID_KEY[10] == 'l';
    if BoardKey(id) == BoardKey(id') {
      assert id == BoardKey(id)[|BOARD_PREFIX|..] == id';
    }
  }

  // ----- the board list -----

  /** The stored summaries; an empty list when nothing, nothing readable,
      or no `boards` field is stored. */
  function GetBoardsList(ls: LocalStore): (r: seq<BoardMetadata>)
    ensures Read(ls, BOARDS_LIST_KEY) != Some(ListDoc(Some(r))) ==> r == []
  {
    match Read(ls, BOARDS_LIST_KEY)
    case Some(ListDoc(Some(bs))) => bs
    case _ => []
  }

  function SaveBoardMetadata(ls: LocalStore, show: Serializer, boards: seq<BoardMetadata>): (r: LocalStore)
    ensures GetBoardsList(r) == boards
    ensures forall k :: k in ls && k != BOARDS_LIST_KEY ==> k in r && r[k] == ls[k]
    ensures r.Keys == ls.Keys + {BOARDS_LIST_KEY}
  {
    Write(ls, show, BOARDS_LIST_KEY, ListDoc(Some(boards)))
  }

  /** `findIndex`: the first entry with the id. */
  function FindIndex(xs: seq<BoardMetadata>, id: string): (r: Option<nat>)
    ensures r.Some? ==> r.value < |xs| && xs[r.value].id == id && forall j :: 0 <= j < r.value ==> xs[j].id != id
    ensures r.None? ==> forall j :: 0 <= j < |xs| ==> xs[j].id != id
  {
    if |xs| == 0 then None
    else if xs[0].id == id then Some(0)
    else
      var rest := FindIndex(xs[1..], id);
      if rest.None? then None else Some(rest.value + 1)
  }

  /** Replacing the first summary with the same id in place, or appending
      when there is none; every other entry is untouched. */
  function Upsert(xs: seq<BoardMetadata>, m: BoardMetadata): (r: seq<BoardMetadata>)
    ensures FindIndex(xs, m.id).Some? ==> |r| == |xs| && r[FindIndex(xs, m.id).value] == m
    ensures FindIndex(xs, m.id).Some? ==> forall j :: 0 <= j < |xs| && j != FindIndex(xs, m.id).value ==> r[j] == xs[j]
    ensures FindIndex(xs, m.id).None? ==> r == xs + [m]
    ensures exists i :: 0 <= i < |r| && r[i] == m
  {
    var i := FindIndex(xs, m.id);
    if i.Some? then
      assert xs[i.value := m][i.value] == m;
      xs[i.value := m]
    else
      assert (xs + [m])[|xs|] == m;
      xs + [m]
  }

  // ----- boards -----

  /** A stored board, or `None` when nothing readable is stored for it. */
  function GetBoard(ls: LocalStore, id: string): (r: Option<ClientBoard>)
    ensures r.Some? <==> Read(ls, BoardKey(id)).Some? && Read(ls, BoardKey(id)).value.BoardDoc?
    ensures r.Some? ==> Read(ls, BoardKey(id)) == Some(BoardDoc(r.value))
  {
    match Read(ls, BoardKey(id))
    case Some(BoardDoc(b)) => Some(b)
    case _ => None
  }

  /** The summary kept for a saved board: tags default to the empty list,
      the creation time is the board's and the update time is now. */
  function SummaryOf(b: ClientBoard, now: Timestamp): (m: BoardMetadata)
    ensures m.id == b.id && m.name == b.name && m.thumbnail == b.thumbnail
    ensures m.tags == b.tags.GetOr([]) && m.createdAt == b.createdAt && m.updatedAt == now
  {
    BoardMetadata(b.id, b.name, b.thumbnail, b.tags.GetOr([]), b.createdAt, now)
  }

  function SaveBoard(ls: LocalStore, show: Serializer, b: ClientBoard, now: Timestamp): (r: LocalStore)
    ensures GetBoard(r, b.id) == Some(b)
    ensures GetBoardsList(r) == Upsert(GetBoardsList(ls), SummaryOf(b, now))
    ensures forall k :: k in ls && k != BOARDS_LIST_KEY && k != BoardKey(b.id) ==> k in r && r[k] == ls[k]
    ensures r.Keys == ls.Keys + {BoardKey(b.id), BOARDS_LIST_KEY}
  {
    KeysDistinct(b.id, b.id);
    var withBoard := Write(ls, show, BoardKey(b.id), BoardDoc(b));
    SaveBoardMetadata(withBoard, show, Upsert(GetBoardsList(withBoard), SummaryOf(b, now)))
  }

  /** `filter(b => b.id !== id)`. */
  function Without(xs: seq<BoardMetadata>, id: string): (r: seq<BoardMetadata>)
    ensures |r| <= |xs|
    ensures forall m :: m in r <==> m in xs && m.id != id
  {
    Filter(xs, (m: BoardMetadata) => m.id != id)
  }

  /** Removing the board's entry, and every summary with its id, keeping
      the order of the others; the list entry is written even when it was
      absent. */
  function DeleteBoard(ls: LocalStore, show: Serializer, id: string): (r: LocalStore)
    ensures GetBoard(r, id).None?
    ensures GetBoardsList(r) == Without(GetBoardsList(ls), id)
    ensures forall k :: k in ls && k != BOARDS_LIST_KEY && k != BoardKey(id) ==> k in r && r[k] == ls[k]
    ensures BoardKey(id) !in r
    ensures r.Keys == (ls.Keys - {BoardKey(id)}) + {BOARDS_LIST_KEY}
  {
    KeysDistinct(id, id);
    var removed := ls - {BoardKey(id)};
    SaveBoardMetadata(removed, show, Without(GetBoardsList(removed), id))
  }

  /** Saving a board and then deleting it leaves no trace of it. */
  lemma SaveThenDelete(ls: LocalStore, show: Serializer, b: ClientBoard, now: Timestamp)
    requires forall j :: 0 <= j < |GetBoardsList(ls)| ==> GetBoardsList(ls)[j].id != b.id
    ensures var r := DeleteBoard(SaveBoard(ls, show, b, now), show, b.id);
      GetBoard(r, b.id).None? && GetBoardsList(r) == GetBoardsList(ls)
  {
    var xs := GetBoardsList(ls);
    var m := SummaryOf(b, now);
    assert Upsert(xs, m) == xs + [m];
    FilterDistributes(xs, [m], (m': BoardMetadata) => m'.id != b.id);
    FilterKeepsAll(xs, (m': BoardMetadata) => m'.id != b.id);
    assert Without([m], b.id) == [];
  }

  // ----- export -----

  /** The stored boards in summary order, skipping summaries whose board
      is not stored. */
  function Collect(ls: LocalStore, ms: seq<BoardMetadata>): (r: seq<ClientBoard>)
    ensures |r| <= |ms|
    ensures forall b :: b in r ==> exists i :: 0 <= i < |ms| && GetBoard(ls, ms[i].id) == Some(b)
  {
    if |ms| == 0 then []
    else
      var rest := Collect(ls, ms[1..]);
      assert forall b :: b in rest ==> exists i :: 0 <= i < |ms| && GetBoard(ls, ms[i].id) == Some(b) by {
        forall b | b in rest ensures exists i :: 0 <= i < |ms| && GetBoard(ls, ms[i].id) == Some(b) {
          var i :| 0 <= i < |ms[1..]| && GetBoard(ls, ms[1..][i].id) == Some(b);
          assert GetBoard(ls, ms[i + 1].id) == Some(b);
        }
      }
      var b := GetBoard(ls, ms[0].id);
      if b.Some? then [b.value] + rest else rest
  }

  function ExportAllBoards(ls: LocalStore): seq<ClientBoard> {
    Collect(ls, GetBoardsList(ls))
  }

  /** A board whose summary is listed and whose entry is stored is
      exported. */
  lemma {:induction false} CollectIncludes(ls: LocalStore, ms: seq<BoardMetadata>, i: nat)
    requires i < |ms| && GetBoard(ls, ms[i].id).Some?
    ensures GetBoard(ls, ms[i].id).value in Collect(ls, ms)
  {
    if i > 0 {
      CollectIncludes(ls, ms[1..], i - 1);
    }
  }

  /** Collecting keeps the summary order: the boards of a concatenation
      of summary lists are those of the first list, then those of the
      second. */
  lemma {:induction false} CollectKeepsOrder(ls: LocalStore, xs: seq<BoardMetadata>, ys: seq<BoardMetadata>)
    ensures Collect(ls, xs + ys) == Collect(ls, xs) + Collect(ls, ys)
  {
    if |xs| > 0 {
      assert (xs + ys)[1..] == xs[1..] + ys;
      CollectKeepsOrder(ls, xs[1..], ys);
    } else {
      assert xs + ys == ys;
    }
  }

  /** One summary contributes its stored board, or nothing. */
  lemma CollectOne(ls: LocalStore, m: BoardMetadata)
    ensures Collect(ls, [m]) == (if GetBoard(ls, m.id).Some? then [GetBoard(ls, m.id).value] else [])
  {
    assert [m][1..] == [];
  }

  /** A saved board is among the exported ones. */
  lemma SavedBoardIsExported(ls: LocalStore, show: Serializer, b: ClientBoard, now: Timestamp)
    ensures b in ExportAllBoards(SaveBoard(ls, show, b, now))
  {
    var r := SaveBoard(ls, show, b, now);
    var ms := GetBoardsList(r);
    var i :| 0 <= i < |ms| && ms[i] == SummaryOf(b, now);
    CollectIncludes(r, ms, i);
  }

  // ----- settings -----

  /** The stored settings over the defaults: each stored field wins, each
      missing one is the default; nothing readable gives the defaults. */
  function GetSettings(ls: LocalStore): (r: Settings)
    ensures Read(ls, SETTINGS_KEY).None? ==> r == DEFAULT_SETTINGS
    ensures Read(ls, SETTINGS_KEY) == Some(NotADocument) ==> r == DEFAULT_SETTINGS
    ensures Read(ls, SETTINGS_KEY).Some? && Read(ls, SETTINGS_KEY).value.SettingsDoc? ==>
      var d := Read(ls, SETTINGS_KEY).value;
      && (d.theme.Some? ==> r.theme == d.theme.value) && (d.theme.None? ==> r.theme == Auto)
      && (d.autoSaveInterval.Some? ==> r.autoSaveInterval == d.autoSaveInterval.value)
      && (d.autoSaveInterval.None? ==> r.autoSaveInterval == 5000)
      && (d.gridEnabled.Some? ==> r.gridEnabled == d.gridEnabled.value) && (d.gridEnabled.None? ==> r.gridEnabled)
  {
    match Read(ls, SETTINGS_KEY)
    case Some(SettingsDoc(t, i, g)) =>
      Settings(t.GetOr(DEFAULT_SETTINGS.theme), i.GetOr(DEFAULT_SETTINGS.autoSaveInterval),
               g.GetOr(DEFAULT_SETTINGS.gridEnabled))
    case _ => DEFAULT_SETTINGS
  }

  function SaveSettings(ls: LocalStore, show: Serializer, st: Settings): (r: LocalStore)
    ensures forall k :: k in ls && k != SETTINGS_KEY ==> k in r && r[k] == ls[k]
    ensures r.Keys == ls.Keys + {SETTINGS_KEY}
  {
    Write(ls, show, SETTINGS_KEY, SettingsDoc(Some(st.theme), Some(st.autoSaveInterval), Some(st.gridEnabled)))
  }

  /** Saved settings read back unchanged, and saving touches nothing else. */
  lemma SettingsRoundTrip(ls: LocalStore, show: Serializer, st: Settings, id: string)
    ensures GetSettings(SaveSettings(ls, show, st)) == st
    ensures GetBoardsList(SaveSettings(ls, show, st)) == GetBoardsList(ls)
    ensures GetBoard(SaveSettings(ls, show, st), id) == GetBoard(ls, id)
  {
    KeysDistinct(id, id);
  }

  // ----- last board -----

  /** The remembered board id is plain text, not JSON. */
  function GetLastBoardId(ls: LocalStore): (r: Option<string>)
    ensures r.Some? <==> LAST_BOARD_ID_KEY in ls
    ensures r.Some? ==> r.value == ls[LAST_BOARD_ID_KEY].text
  {
    if LAST_BOARD_ID_KEY in ls then Some(ls[LAST_BOARD_ID_KEY].text) else None
  }

  function SaveLastBoardId(ls: LocalStore, id: string): (r: LocalStore)
    ensures GetLastBoardId(r) == Some(id)
    ensures forall k :: k in ls && k != LAST_BOARD_ID_KEY ==> k in r && r[k] == ls[k]
    ensures r.Keys == ls.Keys + {LAST_BOARD_ID_KEY}
  {
    ls[LAST_BOARD_ID_KEY := Slot(id, NotADocument)]
  }

  // ----- clearing -----

  /** Removing exactly the entries whose key carries the app prefix. */
  function ClearAllData(ls: LocalStore): (r: LocalStore)
    ensures forall k :: k in r <==> k in ls && !StartsWith(k, APP_PREFIX)
    ensures forall k :: k in r ==> r[k] == ls[k]
  {
    map k | k in ls && !StartsWith(k, APP_PREFIX) :: ls[k]
  }

  /** After clearing, every reader sees an empty store, and clearing again
      changes nothing. */
  lemma ClearedStoreIsEmpty(ls: LocalStore, id: string)
    ensures var r := ClearAllData(ls);
      && GetBoardsList(r) == [] && GetBoard(r, id).None? && GetSettings(r) == DEFAULT_SETTINGS
      && GetLastBoardId(r).None? && ExportAllBoards(r) == []
      && ClearAllData(r) == r
  {
    KeysDistinct(id, id);
  }

  // ----- usage -----

  /** One entry's share of the usage: its key and text lengths, or nothing
      when the text is empty. */
  function SlotSize(key: string, s: Slot): nat {
    if |s.text| > 0 then |key| + |s.text| else 0
  }

  /** The usage of the entries under `keys`, summed in an arbitrary
      order. */
  ghost function UsedOver(ls: LocalStore, keys: set<string>): nat
    decreases keys
  {
    if keys == {} then 0
    else
      var k :| k in keys;
      (if k in ls then SlotSize(k, ls[k]) else 0) + UsedOver(ls, keys - {k})
  }

  ghost function Used(ls: LocalStore): nat {
    UsedOver(ls, ls.Keys)
  }

  /** The sum does not depend on the order: any key can be taken first. */
  lemma {:induction false} UsedAnyOrder(ls: LocalStore, keys: set<string>, k: string)
    requires k in keys
    ensures UsedOver(ls, keys) == (if k in ls then SlotSize(k, ls[k]) else 0) + UsedOver(ls, keys - {k})
    decreases keys
  {
    var j :| j in keys && UsedOver(ls, keys) == (if j in ls then SlotSize(j, ls[j]) else 0) + UsedOver(ls, keys - {j});
    if j != k {
      UsedAnyOrder(ls, keys - {j}, k);
      UsedAnyOrder(ls, keys - {k}, j);
      assert keys - {j} - {k} == keys - {k} - {j};
    }
  }

  /** `getStorageUsage().used`, iterating over the keys in whatever order
      the browser yields them. */
  method StorageUsed(ls: LocalStore) returns (total: nat)
    ensures total == Used(ls)
  {
    total := 0;
    var todo := ls.Keys;
    while todo != {}
      invariant todo <= ls.Keys
      invariant total + UsedOver(ls, todo) == Used(ls)
      decreases todo
    {
      var k :| k in todo;
      UsedAnyOrder(ls, todo, k);
      total := total + SlotSize(k, ls[k]);
      todo := todo - {k};
    }
  }
}
