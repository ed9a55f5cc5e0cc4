/** The shapes both parser generations share: the per-row accumulator (field name to
    the list of text chunks seen for it), a promoted row (field name to joined
    string) and the records map (Document id to the rows promoted under it). */
module Rows {
  import opened PyStrings

  type Accum = map<string, seq<string>>
  type Row = map<string, string>
  type Records = map<string, seq<Row>>

  /** `RECORD_TYPES`: the record-type names the scraper can query, with their codes. */
  const RecordTypes: map<string, string> :=
    map["DEED" := "001", "DEED_OF_TRUST" := "002", "DEED_OF_TRUST_WITH_RENTS" := "003"]

  /** The field both parsers key their records by. */
  const JoinKey: string := "Document"

  /** `d.get(k, default)`. */
  function Get(row: Row, k: string, default: string): string
  {
    if k in row then row[k] else default
  }

  /** The rows stored under `key` so far (none when the key is new). */
  function RowsAt(records: Records, key: string): seq<Row>
  {
    if key in records then records[key] else []
  }

  /** Append one more chunk to a field, creating its list on first use. */
  function AddChunk(data: Accum, field: string, chunk: string): (r: Accum)
    ensures r.Keys == data.Keys + {field}
    ensures r[field] == (if field in data then data[field] else []) + [chunk]
    ensures forall f :: f in data && f != field ==> r[f] == data[f]
  {
    data[field := (if field in data then data[field] else []) + [chunk]]
  }

  /** Every field's chunks joined with `sep`. */
  function JoinedRow(data: Accum, sep: string): Row
  {
    map k | k in data :: Join(data[k], sep)
  }

  /** The per-field joining loop both flushes run over the accumulator; `n` counts
      its iterations, one per field. */
  method JoinAccumulator(data: Accum, sep: string) returns (row: Row, n: nat)
    ensures row == JoinedRow(data, sep)
    ensures n == |data.Keys|
  {
    row, n := map[], 0;
    var pending := data.Keys;
    while pending != {}
      invariant pending <= data.Keys
      invariant row.Keys == data.Keys - pending
      invariant forall k :: k in row ==> row[k] == Join(data[k], sep)
      invariant n + |pending| == |data.Keys|
      decreases pending
    {
      var k :| k in pending;
      row := row[k := Join(data[k], sep)];
      n := n + 1;
      pending := pending - {k};
    }
    assert row.Keys == JoinedRow(data, sep).Keys;
    assert forall k :: k in row ==> row[k] == JoinedRow(data, sep)[k];
  }
}
