/** Board elements as JSON records, and the codec between an element in Redis
    and its row in Postgres. */
module Elements {
  type Id = string
  type Time = int

  datatype Option<+T> = None | Some(value: T)

  /** A JSON value; a missing key and an undefined value are the same thing. */
  datatype Json =
    | Null
    | Bool(b: bool)
    | Num(n: real)
    | Str(s: string)
    | Arr(items: seq<Json>)
    | Obj(fields: map<string, Json>)

  type Fields = map<string, Json>

  predicate IsPatch(f: Fields) {
    && ("id" in f ==> f["id"].Str?)
    && ("kind" in f ==> f["kind"].Str?)
  }

  /** Fields that may be spread over an element: `{ ...existing, ...patch }` is an element again. */
  type Patch = f: Fields | IsPatch(f)

  datatype Record = Record(fields: Fields)

  predicate IsElement(r: Record) {
    "id" in r.fields && "kind" in r.fields && IsPatch(r.fields)
  }

  type Element = r: Record | IsElement(r) witness Record(map["id" := Str(""), "kind" := Str("")])

  function IdOf(e: Element): Id {
    e.fields["id"].s
  }

  function Merge(e: Element, patch: Patch): Element {
    Record(e.fields + patch)
  }

  /** Set the timestamp of an element. */
  function Stamp(e: Element, now: Time): Element {
    Record(e.fields["updatedAt" := Num(now as real)])
  }

  /** An element up to its timestamp. */
  function Content(e: Element): Fields {
    e.fields - {"updatedAt"}
  }

  function Contents(m: map<Id, Element>): map<Id, Fields> {
    map k | k in m :: Content(m[k])
  }

  /** Every element is stored under its own id. */
  ghost predicate Keyed(m: map<Id, Element>) {
    forall k | k in m :: IdOf(m[k]) == k
  }

  const ROW_COLUMNS: set<string> := {"id", "kind", "updatedAt"}

  /** A row of the elements table; `kind` is its type column. */
  datatype Row = Row(id: Id, kind: string, data: Patch, updatedAt: Time)

  function ToElementRow(e: Element, now: Time): Row {
    Row(IdOf(e), e.fields["kind"].s, e.fields - ROW_COLUMNS, now)
  }

  function FromElementRow(row: Row): Element {
    Record(map["id" := Str(row.id), "kind" := Str(row.kind)] + row.data + map["updatedAt" := Num(row.updatedAt as real)])
  }

  /** Stored data never repeats a column. */
  predicate CleanRow(row: Row) {
    row.data.Keys !! ROW_COLUMNS
  }

  /** What a row holds of an element, timestamps aside. */
  function RowContent(row: Row): (string, Fields) {
    (row.kind, row.data)
  }

  /** Decoding undoes encoding, up to the timestamp, which becomes the row's. */
  lemma DecodeEncode(e: Element, now: Time)
    ensures CleanRow(ToElementRow(e, now))
    ensures FromElementRow(ToElementRow(e, now)) == Stamp(e, now)
    ensures Content(FromElementRow(ToElementRow(e, now))) == Content(e)
  {
    var back := FromElementRow(ToElementRow(e, now)).fields;
    assert back == Stamp(e, now).fields;
  }

  /** Encoding undoes decoding exactly for the rows whose data repeats no column. */
  lemma EncodeDecode(row: Row)
    ensures ToElementRow(FromElementRow(row), row.updatedAt) == row <==> CleanRow(row)
  {
    var e := FromElementRow(row);
    if CleanRow(row) {
      assert e.fields - ROW_COLUMNS == row.data;
    } else {
      DecodeEncode(e, row.updatedAt);
    }
  }

  /** Two elements with the same id give rows with the same content exactly when they agree up to the timestamp. */
  lemma RowContentIsContent(a: Element, b: Element, s: Time, t: Time)
    requires IdOf(a) == IdOf(b)
    ensures RowContent(ToElementRow(a, s)) == RowContent(ToElementRow(b, t)) <==> Content(a) == Content(b)
  {
    if Content(a) == Content(b) {
      assert a.fields["kind"] == Content(a)["kind"] && b.fields["kind"] == Content(b)["kind"];
      assert a.fields - ROW_COLUMNS == Content(a) - ROW_COLUMNS && b.fields - ROW_COLUMNS == Content(b) - ROW_COLUMNS;
    }
    if RowContent(ToElementRow(a, s)) == RowContent(ToElementRow(b, t)) {
      DecodeEncode(a, s);
      DecodeEncode(b, s);
      assert ToElementRow(a, s) == ToElementRow(b, s);
    }
  }
}
