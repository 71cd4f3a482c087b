/** JSON values as the payment rows store them, and how the services read and merge them. */
module Json {
  import opened JsText
  import opened Fees

  type Record = map<string, Json>

  datatype Json =
    | Null
    | Bool(b: bool)
    | Number(n: real)
    | Text(s: string)
    | List(items: seq<Json>)
    | Obj(fields: Record)

  /** Null unless the value is an object that is no array. */
  function AsRecord(j: Option<Json>): Option<Record> {
    if j.Some? && j.value.Obj? then Some(j.value.fields) else None
  }

  /** record?.key */
  function Field(r: Option<Record>, key: string): Option<Json> {
    if r.Some? && key in r.value then Some(r.value[key]) else None
  }

  function Root(raw: Json): Option<Record> {
    AsRecord(Some(raw))
  }

  /** The ?? operator: null and undefined give way. */
  function Coalesce(a: Option<Json>, b: Option<Json>): Option<Json> {
    if a.None? || a.value.Null? then b else a
  }

  function TrimText(j: Option<Json>): (r: Option<string>)
    ensures r.Some? ==> r.value != "" && Trimmed(r.value)
  {
    if j.Some? && j.value.Text? then TrimToNull(Some(j.value.s)) else None
  }

  function TextOrNull(s: Option<string>): Json {
    if s.Some? then Text(s.value) else Null
  }

  /** Number(value), where a text or a list counts as no number. */
  function ToNumber(j: Option<Json>): Num {
    if j.None? then NotFinite
    else match j.value
      case Null => Finite(0.0)
      case Bool(b) => Finite(if b then 1.0 else 0.0)
      case Number(n) => Finite(n)
      case _ => NotFinite
  }

  /** { ...existing, ...patch }, where an existing value that is no object counts as empty. */
  function Merge(existing: Json, patch: Record): Json {
    var root := Root(existing);
    Obj((if root.Some? then root.value else map[]) + patch)
  }

  /** A merge sets what the patch names and keeps every other field. */
  lemma MergeField(existing: Json, patch: Record, key: string)
    ensures Field(Root(Merge(existing, patch)), key)
         == if key in patch then Some(patch[key]) else Field(Root(existing), key)
  {
  }

  lemma TrimTextOfTrimmed(s: Option<string>)
    requires s.Some? ==> s.value != "" && Trimmed(s.value)
    ensures TrimText(Some(TextOrNull(s))) == s
  {
    if s.Some? { TrimKeepsTrimmed(s.value); }
  }
}
