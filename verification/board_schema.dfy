/** The request-body validators of the board routes: a body either parses
    into a typed request (unknown keys dropped) or is rejected as a whole. */
module BoardSchema {
  import opened Wrappers
  import opened Json
  import opened SharedTypes

  const MAX_NAME_LENGTH: nat := 255

  predicate ValidName(s: string) {
    1 <= |s| <= MAX_NAME_LENGTH
  }

  /** `z.string().min(1).max(255)` on a required property. */
  function ParseName(v: Option<JValue>): (r: Option<string>)
    ensures r.Some? <==> v.Some? && v.value.JStr? && ValidName(v.value.s)
    ensures r.Some? ==> v == Some(JStr(r.value))
  {
    if v.Some? && v.value.JStr? && ValidName(v.value.s) then Some(v.value.s) else None
  }

  /** `z.array(z.string())`. */
  function ParseStrings(v: JValue): (r: Option<seq<string>>)
    ensures r.Some? <==> v.JArr? && forall i :: 0 <= i < |v.items| ==> v.items[i].JStr?
    ensures r.Some? ==> StrArr(r.value) == v
  {
    if v.JArr? && forall i :: 0 <= i < |v.items| ==> v.items[i].JStr? then
      var xs := seq(|v.items|, i requires 0 <= i < |v.items| => v.items[i].s);
      assert StrArr(xs).items == v.items;
      Some(xs)
    else None
  }

  lemma StringsRoundTrip(xs: seq<string>)
    ensures ParseStrings(StrArr(xs)) == Some(xs)
  {
    var r := ParseStrings(StrArr(xs));
    assert r.value == xs;
  }

  /** Result of an optional field: omitted, present and valid, or invalid. */
  datatype Field<T> = Omitted | Given(value: T) | Bad {
    function ToOption(): Option<T> {
      if Given? then Some(value) else None
    }
  }

  function OptionalString(v: Option<JValue>): Field<string> {
    if v.None? then Omitted else if v.value.JStr? then Given(v.value.s) else Bad
  }

  function OptionalStrings(v: Option<JValue>): Field<seq<string>> {
    if v.None? then Omitted
    else var t := ParseStrings(v.value); if t.Some? then Given(t.value) else Bad
  }

  /** The `data` object: `elements` an array, `appState` a record,
      `files` an optional record. */
  function ParseBoardData(v: JValue): (r: Option<BoardData>)
    ensures r.Some? ==> IsArray(Member(v, "elements"))
    ensures r.Some? ==> Member(v, "appState") == Some(JObj(r.value.appState))
    ensures r.Some? ==> Member(v, "elements") == Some(JArr(r.value.elements))
    ensures r.Some? ==> OptObj(r.value.files) == Member(v, "files")
  {
    var el := Member(v, "elements");
    var st := Member(v, "appState");
    var fs := Member(v, "files");
    if v.JObj? && IsArray(el) && st.Some? && st.value.JObj?
       && (fs.None? || fs.value.JObj?) then
      Some(BoardData(el.value.items, st.value.fields,
                     if fs.Some? then Some(fs.value.fields) else None))
    else None
  }

  function OptionalData(v: Option<JValue>): Field<BoardData> {
    if v.None? then Omitted
    else var d := ParseBoardData(v.value); if d.Some? then Given(d.value) else Bad
  }

  /** An optional `z.string()` property: absent or a string. */
  predicate StringOrAbsent(v: Option<JValue>) {
    v.None? || v.value.JStr?
  }

  /** An optional `z.array(z.string())` property: absent or a string list. */
  predicate StringsOrAbsent(v: Option<JValue>) {
    v.None? || ParseStrings(v.value).Some?
  }

  /** An optional board-data property: absent or valid board data. */
  predicate DataOrAbsent(v: Option<JValue>) {
    v.None? || ParseBoardData(v.value).Some?
  }

  /** `createBoardSchema.parse(body)`; `None` is the validation error. */
  function ParseCreate(body: JValue): (r: Option<CreateBoardRequest>)
    ensures r.Some? <==>
      && body.JObj?
      && ParseName(Member(body, "name")).Some?
      && Member(body, "data").Some? && ParseBoardData(Member(body, "data").value).Some?
      && StringOrAbsent(Member(body, "thumbnail"))
      && StringsOrAbsent(Member(body, "tags"))
    ensures r.Some? ==> ValidName(r.value.name)
    ensures r.Some? ==> Member(body, "name") == Some(JStr(r.value.name))
    ensures r.Some? ==> ParseBoardData(Member(body, "data").value) == Some(r.value.data)
    ensures r.Some? ==> OptStr(r.value.thumbnail) == Member(body, "thumbnail")
    ensures r.Some? ==> OptStrArr(r.value.tags) == Member(body, "tags")
  {
    var name := ParseName(Member(body, "name"));
    var data := OptionalData(Member(body, "data"));
    var thumb := OptionalString(Member(body, "thumbnail"));
    var tags := OptionalStrings(Member(body, "tags"));
    if body.JObj? && name.Some? && data.Given? && !thumb.Bad? && !tags.Bad? then
      Some(CreateBoardRequest(name.value, data.value, thumb.ToOption(), tags.ToOption()))
    else None
  }

  /** `updateBoardSchema.parse(body)`: the same rules, every field optional. */
  function ParseUpdate(body: JValue): (r: Option<UpdateBoardRequest>)
    ensures r.Some? <==>
      && body.JObj?
      && (Member(body, "name").None? || ParseName(Member(body, "name")).Some?)
      && DataOrAbsent(Member(body, "data"))
      && StringOrAbsent(Member(body, "thumbnail"))
      && StringsOrAbsent(Member(body, "tags"))
    ensures r.Some? && r.value.name.Some? ==> ValidName(r.value.name.value)
    ensures r.Some? ==> OptStr(r.value.name) == Member(body, "name")
    ensures r.Some? ==> OptStr(r.value.thumbnail) == Member(body, "thumbnail")
    ensures r.Some? ==> OptStrArr(r.value.tags) == Member(body, "tags")
    ensures r.Some? ==> (r.value.data.Some? <==> Member(body, "data").Some?)
    ensures r.Some? && r.value.data.Some? ==> ParseBoardData(Member(body, "data").value) == r.value.data
  {
    var nameV := Member(body, "name");
    var name := if nameV.None? then Omitted
                else var n := ParseName(nameV); if n.Some? then Given(n.value) else Bad;
    var data := OptionalData(Member(body, "data"));
    var thumb := OptionalString(Member(body, "thumbnail"));
    var tags := OptionalStrings(Member(body, "tags"));
    if body.JObj? && !name.Bad? && !data.Bad? && !thumb.Bad? && !tags.Bad? then
      Some(UpdateBoardRequest(name.ToOption(), data.ToOption(), thumb.ToOption(), tags.ToOption()))
    else None
  }

  /** Encoding board data and validating it gives it back unchanged. */
  lemma BoardDataRoundTrip(d: BoardData)
    ensures ParseBoardData(EncodeBoardData(d)) == Some(d)
  {
  }

  /** A create request survives encoding and validation exactly when its
      name has 1 to 255 characters. */
  lemma CreateRoundTrip(req: CreateBoardRequest)
    ensures ParseCreate(EncodeCreate(req)) == (if ValidName(req.name) then Some(req) else None)
  {
    var body := EncodeCreate(req);
    BoardDataRoundTrip(req.data);
    if req.tags.Some? {
      StringsRoundTrip(req.tags.value);
    }
  }

  /** An update request survives encoding and validation exactly when a
      supplied name has 1 to 255 characters. */
  lemma UpdateRoundTrip(req: UpdateBoardRequest)
    ensures ParseUpdate(EncodeUpdate(req))
         == (if req.name.None? || ValidName(req.name.value) then Some(req) else None)
  {
    var body := EncodeUpdate(req);
    assert Member(body, "name") == OptStr(req.name);
    assert Member(body, "thumbnail") == OptStr(req.thumbnail);
    assert Member(body, "tags") == OptStrArr(req.tags);
    if req.data.Some? {
      BoardDataRoundTrip(req.data.value);
      assert Member(body, "data") == Some(EncodeBoardData(req.data.value));
      assert OptionalData(Member(body, "data")) == Given(req.data.value);
    } else {
      assert Member(body, "data") == None;
    }
    if req.tags.Some? {
      StringsRoundTrip(req.tags.value);
      assert OptionalStrings(Member(body, "tags")) == Given(req.tags.value);
    }
  }

  /** Create needs both `name` and `data`; update accepts the empty object,
      and board data needs `elements` and `appState` but not `files`. */
  lemma RequiredFields(body: JValue, d: BoardData)
    ensures Member(body, "name").None? ==> ParseCreate(body).None?
    ensures Member(body, "data").None? ==> ParseCreate(body).None?
    ensures ParseUpdate(JObj(map[])) == Some(UpdateBoardRequest(None, None, None, None))
    ensures ParseBoardData(JObj(map["elements" := JArr(d.elements), "appState" := JObj(d.appState)]))
         == Some(d.(files := None))
    ensures ParseBoardData(JObj(map["appState" := JObj(d.appState)])).None?
    ensures ParseBoardData(JObj(map["elements" := JArr(d.elements)])).None?
  {
  }

  /** Names outside 1..255 characters, non-array elements and non-record
      app state are rejected by both validators. */
  lemma RejectsMalformed(body: JValue, other: JValue)
    requires body.JObj?
    ensures (Member(body, "name").Some? && Member(body, "name").value.JStr?
             && !ValidName(Member(body, "name").value.s))
            ==> ParseCreate(body).None? && ParseUpdate(body).None?
    ensures !other.JArr? ==> ParseBoardData(JObj(map["elements" := other, "appState" := JObj(map[])])).None?
    ensures !other.JObj? ==> ParseBoardData(JObj(map["elements" := JArr([]), "appState" := other])).None?
  {
  }
}
