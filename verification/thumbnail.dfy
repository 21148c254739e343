/** Thumbnail generation: a best-effort small preview of the current
    drawing, skipped for an empty board. Rendering (`exportToBlob`) and
    reading the image as a data URL (`FileReader`) are external and are
    supplied as functions; `None` stands for their failure. */
module Thumbnail {
  import opened Wrappers
  import opened Json

  const MAX_WIDTH_OR_HEIGHT: nat := 200

  datatype RenderRequest = RenderRequest(
    elements: seq<JValue>,
    appState: map<string, JValue>,
    files: Option<map<string, JValue>>,
    maxWidthOrHeight: nat)

  /** A rendered image, opaque to this system. */
  datatype Blob = Blob(bytes: seq<int>)

  type Renderer = RenderRequest -> Option<Blob>
  type Reader = Blob -> Option<string>

  /** What the renderer is asked for: the caller's app state with the
      background forced on and dark mode forced off, bounded to 200 px. */
  function RequestFor(elements: seq<JValue>, appState: map<string, JValue>,
                      files: Option<map<string, JValue>>): (q: RenderRequest)
    ensures q.appState.Keys == appState.Keys + {"exportBackground", "exportWithDarkMode"}
    ensures q.appState["exportBackground"] == JBool(true)
    ensures q.appState["exportWithDarkMode"] == JBool(false)
    ensures forall k :: k in appState && k !in {"exportBackground", "exportWithDarkMode"} ==>
      q.appState[k] == appState[k]
    ensures q.elements == elements && q.files == files && q.maxWidthOrHeight == 200
  {
    RenderRequest(elements,
                  appState["exportBackground" := JBool(true)]["exportWithDarkMode" := JBool(false)],
                  files, MAX_WIDTH_OR_HEIGHT)
  }

  predicate IsBlank(elements: Option<seq<JValue>>) {
    elements.None? || |elements.value| == 0
  }

  /** The promise `generateThumbnail` returns, as the code is written:
      it resolves to a data URL or to `undefined`, or it rejects. */
  datatype Settled = Resolved(value: Option<string>) | Rejected

  /** As written: a rendering failure is caught, but the data-URL promise
      is returned without being awaited, so a reading failure escapes the
      `try` and rejects the returned promise. */
  function GenerateThumbnailAsWritten(elements: Option<seq<JValue>>, appState: map<string, JValue>,
                                      files: Option<map<string, JValue>>,
                                      render: Renderer, read: Reader): (r: Settled)
    ensures IsBlank(elements) ==> r == Resolved(None)
    ensures !IsBlank(elements) && render(RequestFor(elements.value, appState, files)).None? ==> r == Resolved(None)
    ensures !IsBlank(elements) && render(RequestFor(elements.value, appState, files)).Some? ==>
      var url := read(render(RequestFor(elements.value, appState, files)).value);
      && (url.Some? ==> r == Resolved(url))
      && (url.None? ==> r == Rejected)
  {
    if IsBlank(elements) then Resolved(None)
    else
      var blob := render(RequestFor(elements.value, appState, files));
      if blob.None? then Resolved(None)
      else
        var url := read(blob.value);
        if url.None? then Rejected else Resolved(url)
  }

  /** The intended behaviour: every failure, rendering or reading, degrades
      to "no thumbnail". The rest of the model uses this definition. */
  function GenerateThumbnail(elements: Option<seq<JValue>>, appState: map<string, JValue>,
                             files: Option<map<string, JValue>>,
                             render: Renderer, read: Reader): (r: Option<string>)
    ensures IsBlank(elements) ==> r.None?
    ensures !IsBlank(elements) ==>
      var blob := render(RequestFor(elements.value, appState, files));
      && (blob.None? ==> r.None?)
      && (blob.Some? ==> r == read(blob.value))
  {
    if IsBlank(elements) then None
    else
      var blob := render(RequestFor(elements.value, appState, files));
      if blob.None? then None else read(blob.value)
  }

  /** The corrected thumbnail agrees with the code wherever the code
      settles normally, and never fails where the code rejects. */
  lemma CorrectedAgreesWhereCodeResolves(elements: Option<seq<JValue>>, appState: map<string, JValue>,
                                         files: Option<map<string, JValue>>,
                                         render: Renderer, read: Reader)
    ensures var w := GenerateThumbnailAsWritten(elements, appState, files, render, read);
      && (w.Resolved? ==> GenerateThumbnail(elements, appState, files, render, read) == w.value)
      && (w.Rejected? ==> GenerateThumbnail(elements, appState, files, render, read).None?)
  {
  }

  /** A renderer that succeeds with a reader that fails: the code as
      written rejects instead of resolving to `undefined`. */
  lemma ReadFailureRejects()
    ensures GenerateThumbnailAsWritten(Some([JNull]), map[], None, _ => Some(Blob([])), _ => None) == Rejected
    ensures GenerateThumbnail(Some([JNull]), map[], None, _ => Some(Blob([])), _ => None) == None
  {
  }

  /** An empty board never reaches the renderer, whatever it would do. */
  lemma EmptyBoardHasNoThumbnail(appState: map<string, JValue>, files: Option<map<string, JValue>>,
                                 render: Renderer, read: Reader, render': Renderer)
    ensures GenerateThumbnail(Some([]), appState, files, render, read) == None
    ensures GenerateThumbnail(None, appState, files, render, read)
         == GenerateThumbnail(None, appState, files, render', read)
  {
  }

  /** The promise `debouncedGenerateThumbnail` returns. Its executor
      resolves only after awaiting `generateThumbnail`; when that rejects,
      the rejection is lost inside the timer callback and the returned
      promise never settles. */
  datatype Delayed = Settles(value: Option<string>) | NeverSettles

  /** The delayed variant, over the code as written; the delay only
      postpones the outcome and is not modelled. */
  function DebouncedGenerateThumbnail(elements: Option<seq<JValue>>, appState: map<string, JValue>,
                                      files: Option<map<string, JValue>>, delay: int,
                                      render: Renderer, read: Reader): (r: Delayed)
    ensures r.NeverSettles? <==> !IsBlank(elements)
                                 && render(RequestFor(elements.value, appState, files)).Some?
                                 && read(render(RequestFor(elements.value, appState, files)).value).None?
    ensures r.Settles? ==> r.value == GenerateThumbnail(elements, appState, files, render, read)
  {
    match GenerateThumbnailAsWritten(elements, appState, files, render, read)
    case Resolved(v) => Settles(v)
    case Rejected => NeverSettles
  }
}
