/** The board sidebar's decisions: the search filter over names and tags,
    the tag chips, renaming, exporting everything and dispatching an
    imported file. */
module Sidebar {
  import opened Wrappers
  import opened Json
  import opened Strings
  import opened Seqs
  import opened SharedTypes
  import opened ClientTypes
  import opened BoardSchema
  import opened Codec
  import Storage

  /** Case-insensitive containment. */
  predicate Mentions(s: string, query: string) {
    Includes(ToLower(s), ToLower(query))
  }

  /** A board matches when its name or one of its tags mentions the query. */
  predicate Matches(b: BoardMetadata, query: string) {
    Mentions(b.name, query) || exists i :: 0 <= i < |b.tags| && Mentions(b.tags[i], query)
  }

  function FilterBoards(boards: seq<BoardMetadata>, query: string): (r: seq<BoardMetadata>)
    ensures forall b :: b in r <==> b in boards && Matches(b, query)
    ensures |r| <= |boards|
  {
    Filter(boards, (b: BoardMetadata) => Matches(b, query))
  }

  /** The filter keeps the list order, and the empty query keeps every
      board. */
  lemma FilterBoardsOrder(xs: seq<BoardMetadata>, ys: seq<BoardMetadata>, query: string)
    ensures FilterBoards(xs + ys, query) == FilterBoards(xs, query) + FilterBoards(ys, query)
    ensures FilterBoards(xs, "") == xs
  {
    FilterDistributes(xs, ys, (b: BoardMetadata) => Matches(b, query));
    forall i | 0 <= i < |xs| ensures Matches(xs[i], "") {
      EmptyIncludedEverywhere(ToLower(xs[i].name));
    }
    FilterKeepsAll(xs, (b: BoardMetadata) => Matches(b, ""));
  }

  /** Upper and lower case do not matter, in the query or in the board. */
  lemma MatchIgnoresCase(b: BoardMetadata, query: string)
    ensures Matches(b, query) <==> Matches(b, ToLower(query))
  {
    ToLowerIdempotent(query);
  }

  // ----- tag chips -----

  /** The chips under a board: its first two tags, then `+N` for the
      `N` others when there are more than two. */
  datatype Chips = Chips(shown: seq<string>, more: Option<nat>)

  function TagChips(tags: seq<string>): (c: Chips)
    ensures |c.shown| <= 2 && |c.shown| <= |tags| && c.shown == tags[..|c.shown|]
    ensures c.more.Some? <==> |tags| > 2
    ensures |c.shown| + c.more.GetOr(0) == |tags|
    ensures |c.shown| == if |tags| <= 2 then |tags| else 2
  {
    if |tags| <= 2 then Chips(tags, None) else Chips(tags[..2], Some(|tags| - 2))
  }

  // ----- rename -----

  /** The name a rename is sent with: the trimmed answer to the prompt,
      when the prompt was not cancelled and the answer is not blank. */
  function RenameTo(answer: Option<string>): (r: Option<string>)
    ensures r.Some? <==> answer.Some? && exists i :: 0 <= i < |answer.value| && !IsSpace(answer.value[i])
    ensures r.Some? ==> r.value == Trim(answer.value) && |r.value| > 0 && Includes(answer.value, r.value)
    ensures r.Some? ==> !IsSpace(r.value[0]) && !IsSpace(r.value[|r.value| - 1])
  {
    if answer.None? then None
    else
      TrimSpec(answer.value);
      if |answer.value| > 0 && |Trim(answer.value)| > 0 then Some(Trim(answer.value)) else None
  }

  /** A rename the sidebar sends is accepted by the server exactly when the
      trimmed name has at most 255 characters. */
  lemma RenameAcceptedUpToLimit(answer: string)
    requires RenameTo(Some(answer)).Some?
    ensures var n := RenameTo(Some(answer)).value;
      var body := EncodeUpdate(UpdateBoardRequest(Some(n), None, None, None));
      BoardSchema.ParseUpdate(body).Some? <==> |n| <= MAX_NAME_LENGTH
  {
    UpdateRoundTrip(UpdateBoardRequest(Some(RenameTo(Some(answer)).value), None, None, None));
  }

  // ----- export all -----

  /** Exporting every board: the boards come from the browser's legacy
      storage; with none there, no file is produced. */
  function ExportAll(ls: Storage.LocalStore, exportedAt: Timestamp): (r: Option<JValue>)
    ensures r.Some? <==> |Storage.ExportAllBoards(ls)| > 0
    ensures r.Some? ==> r.value == BackupEnvelope(Storage.ExportAllBoards(ls), exportedAt)
  {
    var boards := Storage.ExportAllBoards(ls);
    if |boards| > 0 then Some(BackupEnvelope(boards, exportedAt)) else None
  }

  /** Every file the sidebar exports imports back as a backup. */
  lemma ExportAllIsImportable(ls: Storage.LocalStore, exportedAt: Timestamp, ids: IdSource, now: Timestamp)
    requires ExportAll(ls, exportedAt).Some?
    ensures ImportBoardFromFile(Some(Parsed(ExportAll(ls, exportedAt).value)), ids, now).Multiple?
  {
    var bs := Storage.ExportAllBoards(ls);
    BackupRoundTrip(bs, exportedAt, ids, now);
  }

  // ----- import -----

  datatype ImportAction =
    | NoFile
    | ImportOne(board: ImportedBoard)
    | ImportMany(boards: seq<ImportedBoard>)
    | InvalidFile

  /** The store action for a chosen file: a backup goes to the batch
      import, a single board to the single import, anything else is
      reported as an invalid file. */
  function HandleImport(file: Option<Option<FileText>>, ids: IdSource, now: Timestamp): (a: ImportAction)
    ensures file.None? <==> a.NoFile?
    ensures file.Some? ==>
      var res := ImportBoardFromFile(file.value, ids, now);
      && (a.ImportOne? <==> res.Single?) && (a.ImportOne? ==> a.board == res.board)
      && (a.ImportMany? <==> res.Multiple?) && (a.ImportMany? ==> a.boards == res.boards)
      && (a.InvalidFile? <==> res.Failed?)
  {
    if file.None? then NoFile
    else match ImportBoardFromFile(file.value, ids, now)
      case Single(b) => ImportOne(b)
      case Multiple(bs) => ImportMany(bs)
      case Failed => InvalidFile
  }

  /** A file exported from one board is imported as that one board. */
  lemma SingleExportImportsOne(b: ClientBoard, ids: IdSource, now: Timestamp)
    ensures HandleImport(Some(Some(Parsed(ExportEnvelope(b)))), ids, now) == ImportOne(ImportedFrom(b, ids(0), now))
  {
    SingleExportRoundTrip(b, ids, now);
  }
}
