/** The import/export file format: a versioned JSON envelope holding one
    board or a backup of many, the structural validators applied on import,
    and the import decision (single board first, then backup, else
    failure). Imported boards always receive freshly generated ids and
    timestamps. */
module Codec {
  import opened Wrappers
  import opened Json
  import opened Strings
  import opened SharedTypes
  import opened ClientTypes

  const FORMAT_VERSION: string := "1.0"
  const CREATOR: string := "Maplify Tech v1.0"

  // ----- export -----

  /** The typed envelope built for one board. */
  function ExportDataOf(b: ClientBoard): ExportData {
    ExportData(FORMAT_VERSION,
               ExportBoard(b.id, b.name, b.elements, b.appState, b.files),
               ExportMetadata(b.createdAt, b.updatedAt, CREATOR, b.tags))
  }

  /** The envelope as JSON text would carry it: `undefined` fields vanish. */
  function EncodeExportData(e: ExportData): JValue {
    JObj(map[
      "version" := JStr(e.version),
      "board" := JObj(Put(map[
        "id" := JStr(e.board.id),
        "name" := JStr(e.board.name),
        "elements" := JArr(e.board.elements),
        "appState" := JObj(e.board.appState)], "files", OptObj(e.board.files))),
      "metadata" := JObj(Put(map[
        "createdAt" := TimeJson(e.metadata.createdAt),
        "updatedAt" := TimeJson(e.metadata.updatedAt),
        "creator" := JStr(e.metadata.creator)], "tags", OptStrArr(e.metadata.tags)))])
  }

  function ExportEnvelope(b: ClientBoard): JValue {
    EncodeExportData(ExportDataOf(b))
  }

  function ExportFileName(b: ClientBoard): string {
    b.name + ".json"
  }

  /** One entry of a backup file. */
  function BackupEntry(b: ClientBoard): JValue {
    JObj(Put(Put(map[
      "id" := JStr(b.id),
      "name" := JStr(b.name),
      "elements" := JArr(b.elements),
      "appState" := JObj(b.appState),
      "createdAt" := TimeJson(b.createdAt),
      "updatedAt" := TimeJson(b.updatedAt)], "files", OptObj(b.files)), "tags", OptStrArr(b.tags)))
  }

  /** The backup envelope for a list of boards, exported at `exportedAt`. */
  function BackupEnvelope(bs: seq<ClientBoard>, exportedAt: Timestamp): JValue {
    JObj(map[
      "version" := JStr(FORMAT_VERSION),
      "boards" := JArr(seq(|bs|, i requires 0 <= i < |bs| => BackupEntry(bs[i]))),
      "metadata" := JObj(map[
        "exportedAt" := TimeJson(exportedAt),
        "creator" := JStr(CREATOR),
        "totalBoards" := JNum(|bs| as real)])])
  }

  /** `maplify-backup-<date>.json`, where the date is the ISO timestamp's
      text before its `T`. */
  function BackupFileName(iso: string): (r: string)
    ensures StartsWith(r, "maplify-backup-")
    ensures exists date :: && r == "maplify-backup-" + date + ".json" && StartsWith(iso, date) && 'T' !in date
                           && (|date| < |iso| ==> iso[|date|] == 'T')
  {
    var date := Before(iso, 'T');
    var r := "maplify-backup-" + date + ".json";
    assert r[..15] == "maplify-backup-";
    r
  }

  /** For an ISO timestamp `<date>T<time>`, the file name carries exactly
      the date part. */
  lemma BackupFileNameOfTimestamp(date: string, time: string)
    requires 'T' !in date
    ensures BackupFileName(date + "T" + time) == "maplify-backup-" + date + ".json"
  {
    var iso := date + "T" + time;
    var d := Before(iso, 'T');
    assert iso[..|date|] == date && iso[|date|] == 'T';
  }

  // ----- validation -----

  predicate ValidateBoardFile(data: JValue) {
    var board := Member(data, "board");
    && Truthy(Some(data))
    && Truthy(Member(data, "version"))
    && Truthy(board)
    && IsArray(MemberOf(board, "elements"))
    && Truthy(MemberOf(board, "appState"))
    && Truthy(Member(data, "metadata"))
  }

  predicate ValidateMultiBoardFile(data: JValue) {
    var boards := Member(data, "boards");
    && Truthy(Some(data))
    && Truthy(Member(data, "version"))
    && IsArray(boards)
    && |boards.value.items| > 0
    && Truthy(Member(data, "metadata"))
  }

  // ----- import -----

  /** What `JSON.parse` makes of a file's text. */
  datatype FileText = SyntaxError | Parsed(value: JValue)

  /** An imported board as the import code builds it: apart from the id and
      the timestamps, every field is copied from the file without checking
      its type, and may be `undefined`. */
  datatype ImportedBoard = ImportedBoard(
    id: string,
    name: Option<JValue>,
    elements: Option<JValue>,
    appState: Option<JValue>,
    files: Option<JValue>,
    createdAt: Timestamp,
    updatedAt: Timestamp,
    tags: Option<JValue>)

  /** The ids `generateId` returns during one import, in call order. */
  type IdSource = nat -> string

  function FromFields(fields: Option<JValue>, tags: Option<JValue>, id: string, now: Timestamp): ImportedBoard {
    ImportedBoard(id, MemberOf(fields, "name"), MemberOf(fields, "elements"),
                  MemberOf(fields, "appState"), MemberOf(fields, "files"), now, now, tags)
  }

  /** `parseBoardFile`: null (never an exception) on unparsable text or a
      failed validation; otherwise a board with the fresh id, fresh
      timestamps, the `board` fields and the `metadata` tags. */
  function ParseBoardFile(text: FileText, id: string, now: Timestamp): (r: Option<ImportedBoard>)
    ensures r.Some? <==> text.Parsed? && ValidateBoardFile(text.value)
    ensures r.Some? ==> r.value.id == id && r.value.createdAt == now && r.value.updatedAt == now
    ensures r.Some? ==> IsArray(r.value.elements) && Truthy(r.value.appState)
    ensures r.Some? ==>
      var board := Member(text.value, "board");
      && r.value.name == MemberOf(board, "name")
      && r.value.elements == MemberOf(board, "elements")
      && r.value.appState == MemberOf(board, "appState")
      && r.value.files == MemberOf(board, "files")
      && r.value.tags == MemberOf(Member(text.value, "metadata"), "tags")
  {
    if text.SyntaxError? || !ValidateBoardFile(text.value) then None
    else
      var data := text.value;
      Some(FromFields(Member(data, "board"), MemberOf(Member(data, "metadata"), "tags"), id, now))
  }

  /** Some entry is `null`: reading its `name` throws. */
  predicate HasNullEntry(es: seq<JValue>) {
    exists i :: 0 <= i < |es| && es[i] == JNull
  }

  /** `parseMultiBoardFile`: one board per entry, in order, each with the
      next fresh id. The entries are not validated, but a `null` entry
      makes the property read throw, and the caught exception turns the
      whole parse into `null`. Any other entry kind reads as `undefined`
      fields. */
  function ParseMultiBoardFile(text: FileText, ids: IdSource, now: Timestamp): (r: Option<seq<ImportedBoard>>)
    ensures r.Some? <==> text.Parsed? && ValidateMultiBoardFile(text.value)
                         && !HasNullEntry(Member(text.value, "boards").value.items)
    ensures r.Some? ==> |r.value| == |Member(text.value, "boards").value.items| > 0
    ensures r.Some? ==> forall i :: 0 <= i < |r.value| ==>
      var e := Member(text.value, "boards").value.items[i];
      r.value[i] == FromFields(Some(e), Member(e, "tags"), ids(i), now)
  {
    if text.SyntaxError? || !ValidateMultiBoardFile(text.value) then None
    else if HasNullEntry(Member(text.value, "boards").value.items) then None
    else
      var es := Member(text.value, "boards").value.items;
      Some(seq(|es|, i requires 0 <= i < |es| => FromFields(Some(es[i]), Member(es[i], "tags"), ids(i), now)))
  }

  datatype ImportResult = Single(board: ImportedBoard) | Multiple(boards: seq<ImportedBoard>) | Failed

  /** `importBoardFromFile`: `None` for a file that cannot be read as text.
      The single-board parse is tried first; the backup parse only when it
      fails. */
  function ImportBoardFromFile(read: Option<FileText>, ids: IdSource, now: Timestamp): (r: ImportResult)
    ensures read.None? ==> r.Failed?
    ensures r.Single? <==> read.Some? && ParseBoardFile(read.value, ids(0), now).Some?
    ensures r.Multiple? <==> read.Some? && ParseBoardFile(read.value, ids(0), now).None?
                             && ParseMultiBoardFile(read.value, ids, now).Some?
  {
    if read.None? then Failed
    else
      var single := ParseBoardFile(read.value, ids(0), now);
      if single.Some? then Single(single.value)
      else
        var multi := ParseMultiBoardFile(read.value, ids, now);
        if multi.Some? then Multiple(multi.value) else Failed
  }

  // ----- properties -----

  /** The board an export of `b` imports as: same content, new identity. */
  function ImportedFrom(b: ClientBoard, id: string, now: Timestamp): ImportedBoard {
    ImportedBoard(id, Some(JStr(b.name)), Some(JArr(b.elements)), Some(JObj(b.appState)),
                  OptObj(b.files), now, now, OptStrArr(b.tags))
  }

  /** Reading an imported board back as a typed client board, when its
      fields have the declared types. */
  function AsClientBoard(ib: ImportedBoard): Option<ClientBoard> {
    var tagsOk := ib.tags.None? || (ib.tags.value.JArr? &&
                    forall i :: 0 <= i < |ib.tags.value.items| ==> ib.tags.value.items[i].JStr?);
    if ib.name.Some? && ib.name.value.JStr? && IsArray(ib.elements)
       && ib.appState.Some? && ib.appState.value.JObj?
       && (ib.files.None? || ib.files.value.JObj?) && tagsOk then
      var tags := if ib.tags.None? then None
                  else var xs := ib.tags.value.items;
                       Some(seq(|xs|, i requires 0 <= i < |xs| => xs[i].s));
      Some(ClientBoard(ib.id, ib.name.value.s, ib.elements.value.items, ib.appState.value.fields,
                       if ib.files.Some? then Some(ib.files.value.fields) else None,
                       ib.createdAt, ib.updatedAt, None, tags))
    else None
  }

  lemma ImportedFromTyped(b: ClientBoard, id: string, now: Timestamp)
    ensures AsClientBoard(ImportedFrom(b, id, now))
         == Some(b.(id := id, createdAt := now, updatedAt := now, thumbnail := None))
  {
    var r := AsClientBoard(ImportedFrom(b, id, now));
    if b.tags.Some? {
      assert r.value.tags.value == b.tags.value;
    }
  }

  /** Round trip of one board: an exported file validates, and importing it
      gives back the name, elements, app state, files and tags under the
      fresh id and fresh timestamps; the thumbnail is not carried. */
  lemma SingleExportRoundTrip(b: ClientBoard, ids: IdSource, now: Timestamp)
    ensures ValidateBoardFile(ExportEnvelope(b))
    ensures ParseBoardFile(Parsed(ExportEnvelope(b)), ids(0), now) == Some(ImportedFrom(b, ids(0), now))
    ensures ImportBoardFromFile(Some(Parsed(ExportEnvelope(b))), ids, now) == Single(ImportedFrom(b, ids(0), now))
    ensures AsClientBoard(ImportedFrom(b, ids(0), now))
         == Some(b.(id := ids(0), createdAt := now, updatedAt := now, thumbnail := None))
  {
    ExportedFieldsReadBack(b);
    ImportedFromTyped(b, ids(0), now);
  }

  /** The property reads the import performs on an exported file. */
  lemma ExportedFieldsReadBack(b: ClientBoard)
    ensures var e := ExportEnvelope(b);
      var board := Member(e, "board");
      && ValidateBoardFile(e)
      && MemberOf(board, "name") == Some(JStr(b.name))
      && MemberOf(board, "elements") == Some(JArr(b.elements))
      && MemberOf(board, "appState") == Some(JObj(b.appState))
      && MemberOf(board, "files") == OptObj(b.files)
      && MemberOf(Member(e, "metadata"), "tags") == OptStrArr(b.tags)
  {
    var e := ExportEnvelope(b);
    assert Member(e, "board") == Some(JObj(Put(map[
        "id" := JStr(b.id),
        "name" := JStr(b.name),
        "elements" := JArr(b.elements),
        "appState" := JObj(b.appState)], "files", OptObj(b.files))));
  }

  /** The id in the file plays no part: two files that differ only in
      `board.id` import as the same board. */
  lemma ImportIgnoresFileId(data: JValue, x: JValue, y: JValue, id: string, now: Timestamp)
    requires data.JObj? && "board" in data.fields && data.fields["board"].JObj?
    ensures var bX := JObj(data.fields["board"].fields["id" := x]);
            var bY := JObj(data.fields["board"].fields["id" := y]);
      ParseBoardFile(Parsed(JObj(data.fields["board" := bX])), id, now)
      == ParseBoardFile(Parsed(JObj(data.fields["board" := bY])), id, now)
  {
  }

  /** A file without a truthy version, or whose `board.elements` is not an
      array, is rejected outright: no board is produced. */
  lemma MalformedFilesRejected(data: JValue, ids: IdSource, now: Timestamp)
    requires !Truthy(Member(data, "version")) || !IsArray(MemberOf(Member(data, "board"), "elements"))
    ensures ParseBoardFile(Parsed(data), ids(0), now).None?
    ensures !Truthy(Member(data, "version")) ==> ImportBoardFromFile(Some(Parsed(data)), ids, now).Failed?
  {
  }

  /** A backup holding a `null` entry is not imported: the property read
      on `null` throws inside the backup parse, whose failure makes the
      whole import fail. */
  lemma NullEntryFailsImport(ids: IdSource, now: Timestamp)
    ensures var file := JObj(map["version" := JStr("1.0"), "boards" := JArr([JNull]), "metadata" := JObj(map[])]);
      && ValidateMultiBoardFile(file)
      && ParseMultiBoardFile(Parsed(file), ids, now).None?
      && ImportBoardFromFile(Some(Parsed(file)), ids, now) == Failed
  {
    var file := JObj(map["version" := JStr("1.0"), "boards" := JArr([JNull]), "metadata" := JObj(map[])]);
    assert Member(file, "boards").value.items[0] == JNull;
  }

  /** The backup envelope lists the boards in order and counts them. */
  lemma BackupEnvelopeShape(bs: seq<ClientBoard>, t: Timestamp)
    ensures var e := BackupEnvelope(bs, t);
      && Member(e, "version") == Some(JStr("1.0"))
      && Member(MemberOf(Some(e), "metadata").value, "totalBoards") == Some(JNum(|bs| as real))
      && |Member(e, "boards").value.items| == |bs|
      && forall i :: 0 <= i < |bs| ==> Member(e, "boards").value.items[i] == BackupEntry(bs[i])
  {
  }

  /** A backup is never mistaken for a single-board file (it has no
      `board`), and a backup of no boards is accepted by neither validator,
      so importing it fails. */
  lemma BackupIsNotSingle(bs: seq<ClientBoard>, t: Timestamp, ids: IdSource, now: Timestamp)
    ensures !ValidateBoardFile(BackupEnvelope(bs, t))
    ensures ValidateMultiBoardFile(BackupEnvelope(bs, t)) <==> |bs| > 0
    ensures |bs| == 0 ==> ImportBoardFromFile(Some(Parsed(BackupEnvelope(bs, t))), ids, now) == Failed
  {
    assert Member(BackupEnvelope(bs, t), "board") == None;
  }

  /** Round trip of a backup: importing a non-empty backup gives one board
      per exported board, in order, each with its own fresh id. */
  lemma BackupRoundTrip(bs: seq<ClientBoard>, t: Timestamp, ids: IdSource, now: Timestamp)
    requires |bs| > 0
    ensures ImportBoardFromFile(Some(Parsed(BackupEnvelope(bs, t))), ids, now)
         == Multiple(seq(|bs|, i requires 0 <= i < |bs| => ImportedFrom(bs[i], ids(i), now)))
  {
    var e := BackupEnvelope(bs, t);
    BackupIsNotSingle(bs, t, ids, now);
    BackupEnvelopeShape(bs, t);
    assert !HasNullEntry(Member(e, "boards").value.items) by {
      forall i | 0 <= i < |bs| ensures Member(e, "boards").value.items[i] != JNull {
        assert Member(e, "boards").value.items[i] == BackupEntry(bs[i]);
      }
    }
    var r := ParseMultiBoardFile(Parsed(e), ids, now);
    var want := seq(|bs|, i requires 0 <= i < |bs| => ImportedFrom(bs[i], ids(i), now));
    forall i | 0 <= i < |bs| ensures r.value[i] == want[i] {
      BackupEntryReadBack(bs[i], ids(i), now);
    }
  }

  /** The property reads the backup import performs on one entry. */
  lemma BackupEntryReadBack(b: ClientBoard, id: string, now: Timestamp)
    ensures FromFields(Some(BackupEntry(b)), Member(BackupEntry(b), "tags"), id, now) == ImportedFrom(b, id, now)
  {
  }
}
