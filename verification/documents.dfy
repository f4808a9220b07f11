/** The FinancialDocument record of app/types.py and the JSON form pydantic's
    `model_dump` gives it, which the ingestor copies into every stored payload. */
module Documents {
  import opened Wrappers

  /** A JSON-like value: the `Any` of the annotation dictionary and the dumped fields. */
  datatype Json =
    | JNull
    | JBool(b: bool)
    | JInt(i: int)
    | JStr(s: string)
    | JArr(items: seq<Json>)
    | JObj(fields: map<string, Json>)

  /** One source document; every field may be null. */
  datatype FinancialDocument = FinancialDocument(
    preText: Option<seq<string>>,
    postText: Option<seq<string>>,
    filename: Option<string>,
    table: Option<seq<seq<string>>>,
    tableOri: Option<seq<seq<string>>>,
    id: Option<string>,
    annotation: Option<map<string, Json>>)

  /** The keys `model_dump` produces, one per declared field. */
  const FieldNames: set<string> :=
    {"pre_text", "post_text", "filename", "table", "table_ori", "id", "annotation"}

  function StringsJson(ss: seq<string>): Json
  {
    JArr(seq(|ss|, k requires 0 <= k < |ss| => JStr(ss[k])))
  }

  function TableJson(t: seq<seq<string>>): Json
  {
    JArr(seq(|t|, k requires 0 <= k < |t| => StringsJson(t[k])))
  }

  function OptionalJson<T>(o: Option<T>, encode: T -> Json): Json
  {
    match o
    case None => JNull
    case Some(v) => encode(v)
  }

  /** `document.model_dump()`. */
  function Dump(d: FinancialDocument): (m: map<string, Json>)
    ensures m.Keys == FieldNames
  {
    map[
      "pre_text" := OptionalJson(d.preText, StringsJson),
      "post_text" := OptionalJson(d.postText, StringsJson),
      "filename" := OptionalJson(d.filename, s => JStr(s)),
      "table" := OptionalJson(d.table, TableJson),
      "table_ori" := OptionalJson(d.tableOri, TableJson),
      "id" := OptionalJson(d.id, s => JStr(s)),
      "annotation" := OptionalJson(d.annotation, f => JObj(f))]
  }

  function AsString(j: Json): Option<string>
  {
    if j.JStr? then Some(j.s) else None
  }

  function AsStrings(j: Json): Option<seq<string>>
  {
    if j.JArr? && forall k :: 0 <= k < |j.items| ==> j.items[k].JStr?
    then Some(seq(|j.items|, k requires 0 <= k < |j.items| && j.items[k].JStr? => j.items[k].s))
    else None
  }

  function AsTable(j: Json): Option<seq<seq<string>>>
  {
    if j.JArr? && forall k :: 0 <= k < |j.items| ==> AsStrings(j.items[k]).Some?
    then Some(seq(|j.items|, k requires 0 <= k < |j.items| && AsStrings(j.items[k]).Some? =>
                                AsStrings(j.items[k]).value))
    else None
  }

  function AsObject(j: Json): Option<map<string, Json>>
  {
    if j.JObj? then Some(j.fields) else None
  }

  /** One nullable field: outer None when the key is missing or of the wrong shape. */
  function Field<T>(m: map<string, Json>, key: string, decode: Json -> Option<T>): Option<Option<T>>
  {
    if key !in m then None
    else if m[key] == JNull then Some(None)
    else match decode(m[key])
      case None => None
      case Some(v) => Some(Some(v))
  }

  /** Validation of a dictionary as a FinancialDocument: every declared key must be
      present (null allowed) and well-shaped; other keys are ignored. */
  function Load(m: map<string, Json>): Option<FinancialDocument>
  {
    var preText := Field(m, "pre_text", AsStrings);
    var postText := Field(m, "post_text", AsStrings);
    var filename := Field(m, "filename", AsString);
    var table := Field(m, "table", AsTable);
    var tableOri := Field(m, "table_ori", AsTable);
    var id := Field(m, "id", AsString);
    var annotation := Field(m, "annotation", AsObject);
    if preText.Some? && postText.Some? && filename.Some? && table.Some? && tableOri.Some?
       && id.Some? && annotation.Some?
    then Some(FinancialDocument(preText.value, postText.value, filename.value, table.value,
                                tableOri.value, id.value, annotation.value))
    else None
  }

  lemma StringsRoundTrip(ss: seq<string>)
    ensures AsStrings(StringsJson(ss)) == Some(ss)
  {
    var j := StringsJson(ss);
    assert forall k :: 0 <= k < |j.items| ==> j.items[k] == JStr(ss[k]);
    var back := seq(|j.items|, k requires 0 <= k < |j.items| && j.items[k].JStr? => j.items[k].s);
    assert back == ss;
  }

  lemma TableRoundTrip(t: seq<seq<string>>)
    ensures AsTable(TableJson(t)) == Some(t)
  {
    var items := TableJson(t).items;
    forall k | 0 <= k < |t| ensures AsStrings(items[k]) == Some(t[k]) {
      assert items[k] == StringsJson(t[k]);
      StringsRoundTrip(t[k]);
    }
    var back := seq(|items|, k requires 0 <= k < |items| && AsStrings(items[k]).Some? =>
                                AsStrings(items[k]).value);
    assert back == t;
  }

  /** A dumped document validates back to itself. */
  lemma LoadDump(d: FinancialDocument)
    ensures Load(Dump(d)) == Some(d)
  {
    if d.preText.Some? { StringsRoundTrip(d.preText.value); }
    if d.postText.Some? { StringsRoundTrip(d.postText.value); }
    if d.table.Some? { TableRoundTrip(d.table.value); }
    if d.tableOri.Some? { TableRoundTrip(d.tableOri.value); }
  }

  /** Keys outside the declared fields do not affect validation (`extra = 'ignore'`). */
  lemma LoadIgnoresExtraKeys(m: map<string, Json>, key: string, v: Json)
    requires key !in FieldNames
    ensures Load(m[key := v]) == Load(m)
  {
  }
}
