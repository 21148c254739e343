/** The header's export button: the busy flag around an export and the
    condition that disables the button. The image renderers and the file
    download are external; only whether the export succeeds is an input. */
module Header {
  import opened Wrappers
  import opened Json
  import opened ClientTypes
  import opened Codec

  datatype Format = Png | Svg | JsonFile

  /** The export button is disabled while there is no open board or an
      export is running. */
  predicate ExportDisabled(currentBoard: Option<ClientBoard>, isExporting: bool) {
    currentBoard.None? || isExporting
  }

  datatype ExportResult = ExportResult(
    isExporting: bool,
    /** the file handed to the browser for a JSON export */
    file: Option<(string, JValue)>,
    /** whether the failure alert was shown */
    alerted: bool)

  /** An export: nothing without an open board; otherwise the busy flag is
      cleared afterwards whatever the outcome, and a failure is reported. A
      successful JSON export writes the board's envelope under its name. */
  function HandleExport(currentBoard: Option<ClientBoard>, isExporting: bool, format: Format,
                        succeeded: bool): (r: ExportResult)
    ensures currentBoard.None? ==> r == ExportResult(isExporting, None, false)
    ensures currentBoard.Some? ==> !r.isExporting
    ensures r.alerted <==> currentBoard.Some? && !succeeded
    ensures r.file.Some? <==> currentBoard.Some? && format.JsonFile? && succeeded
    ensures r.file.Some? ==>
      r.file.value == (ExportFileName(currentBoard.value), ExportEnvelope(currentBoard.value))
  {
    if currentBoard.None? then ExportResult(isExporting, None, false)
    else if !succeeded then ExportResult(false, None, true)
    else match format
      case JsonFile =>
        var b := currentBoard.value;
        ExportResult(false, Some((ExportFileName(b), ExportEnvelope(b))), false)
      case _ => ExportResult(false, None, false)
  }

  /** After any export the button is enabled again while the board stays
      open. */
  lemma ExportReenablesButton(b: ClientBoard, isExporting: bool, format: Format, succeeded: bool)
    ensures !ExportDisabled(Some(b), HandleExport(Some(b), isExporting, format, succeeded).isExporting)
    ensures ExportDisabled(None, isExporting)
  {
  }
}
