/** The older table parser of deedScraperLib.py. It has no `</tr>` flush: a row-group
    is emitted when captured text next appears in column 0, its chunks joined with
    newlines, and `get_records` returns what has been emitted so far. */
module DeedParser {
  import opened Outcome
  import opened PageInput
  import opened Rows
  import opened RecordsParser

  /** The old parser joins a field's chunks with a newline. */
  const NewlineKey: string := "\n"

  /** The old column maps; column 0 is mapped in neither. */
  function DeedColumnToField(schema: Schema): (m: map<int, string>)
    ensures 0 !in m
  {
    match schema
    case DateQuery => map[2 := "RecordDate", 3 := "Document", 4 := "DocType", 5 := "GrantorGrantee", 6 := "Name"]
    case ApnQuery => map[2 := "Document", 3 := "Reel", 5 := "Image", 6 := "APN"]
  }

  /** The old parser's fields; `record` counts rows and is never read. */
  datatype DeedState = DeedState(
    inRecordsTable: bool, record: int, column: int, inFont: bool, data: Accum, records: Records)

  const DeedInitial: DeedState := DeedState(false, -1, -1, false, map[], map[])

  /** Stores `row` under its Document value, after the rows already there. */
  function AppendRow(records: Records, row: Row): Records
    requires JoinKey in row
  {
    records[row[JoinKey] := RowsAt(records, row[JoinKey]) + [row]]
  }

  function DeedOnStartTag(schema: Schema, s: DeedState, tag: string, attrs: seq<Attr>): DeedState
  {
    var s1 :=
      if tag == "table" && GetAttribute(attrs, "class") == Some("records") then
        s.(inRecordsTable := true, record := -1, column := -1)
      else if tag == "tr" then s.(record := s.record + 1, column := -1)
      else if tag == "td" then s.(column := s.column + 1)
      else if tag == "font" && GetAttribute(attrs, "color") == None then s.(inFont := true)
      else s;
    if schema.DateQuery? && tag == "a" && s1.inRecordsTable && s1.column == 1
       && GetAttribute(attrs, "href").Some?
    then s1.(data := s1.data["APNLink" := [GetAttribute(attrs, "href").value]])
    else s1
  }

  function DeedOnEndTag(s: DeedState, tag: string): DeedState
  {
    if tag == "table" && s.inRecordsTable then s.(inRecordsTable := false)
    else if tag == "font" then s.(inFont := false)
    else s
  }

  /** Returning to column 0: the accumulated group is stored if it has a Document,
      and the accumulator is emptied either way. */
  function EmitGroup(s: DeedState): DeedState
  {
    var row := JoinedRow(s.data, NewlineKey);
    s.(data := map[], records := if JoinKey in s.data then AppendRow(s.records, row) else s.records)
  }

  function DeedOnData(schema: Schema, s: DeedState, celldata: string): DeedState
  {
    if s.inRecordsTable && s.inFont then
      var s1 := if s.column == 0 then EmitGroup(s) else s;
      if s1.column in DeedColumnToField(schema)
      then s1.(data := AddChunk(s1.data, DeedColumnToField(schema)[s1.column], celldata))
      else s1
    else s
  }

  function DeedApply(schema: Schema, s: DeedState, e: Event): DeedState
  {
    match e
    case StartTag(tag, attrs) => DeedOnStartTag(schema, s, tag, attrs)
    case EndTag(tag) => DeedOnEndTag(s, tag)
    case Text(t) => DeedOnData(schema, s, t)
  }

  function DeedRun(schema: Schema, s: DeedState, events: seq<Event>): DeedState
  {
    if |events| == 0 then s else DeedApply(schema, DeedRun(schema, s, events[..|events| - 1]), events[|events| - 1])
  }

  /** What `parse_datequery_record_list` returns for a page whose trimmed text the
      HTML tokeniser turns into `lex(trimmed)`. */
  function ParsedDateRecords(page: string, lex: string -> seq<Event>): Records
  {
    var trimmed := TrimmedPage(page);
    DeedRun(DateQuery, DeedInitial, if trimmed == "" then [] else lex(trimmed)).records
  }

  class DeedRecordsParser {
    const schema: Schema
    var inRecordsTable: bool
    var record: int
    var column: int
    var inFont: bool
    var data: Accum
    var records: Records

    function State(): DeedState
      reads this
    {
      DeedState(inRecordsTable, record, column, inFont, data, records)
    }

    constructor (schema: Schema)
      ensures this.schema == schema && State() == DeedInitial
    {
      this.schema := schema;
      inRecordsTable, record, column, inFont := false, -1, -1, false;
      data, records := map[], map[];
    }

    method HandleStartTag(tag: string, attrs: seq<Attr>)
      modifies this
      ensures State() == DeedOnStartTag(schema, old(State()), tag, attrs)
    {
      if tag == "table" && GetAttribute(attrs, "class") == Some("records") {
        inRecordsTable := true;
        record := -1;
        column := -1;
      } else if tag == "tr" {
        record := record + 1;
        column := -1;
      } else if tag == "td" {
        column := column + 1;
      } else if tag == "font" && GetAttribute(attrs, "color") == None {
        inFont := true;
      }
      if schema.DateQuery? && tag == "a" && inRecordsTable && column == 1 {
        var href := GetAttribute(attrs, "href");
        if href.Some? {
          data := data["APNLink" := [href.value]];
        }
      }
    }

    method HandleEndTag(tag: string)
      modifies this
      ensures State() == DeedOnEndTag(old(State()), tag)
    {
      if tag == "table" && inRecordsTable {
        inRecordsTable := false;
      } else if tag == "font" {
        inFont := false;
      }
    }

    method HandleData(celldata: string)
      modifies this
      ensures State() == DeedOnData(schema, old(State()), celldata)
    {
      if inRecordsTable && inFont {
        if column == 0 {
          if JoinKey in data {
            var row, _ := JoinAccumulator(data, NewlineKey);
            var joinkeyvalue := row[JoinKey];
            records := records[joinkeyvalue := RowsAt(records, joinkeyvalue) + [row]];
          }
          data := map[];
        }
        var columnToField := DeedColumnToField(schema);
        if column in columnToField {
          var fieldname := columnToField[column];
          if fieldname in data {
            data := data[fieldname := data[fieldname] + [celldata]];
          } else {
            assert [] + [celldata] == [celldata];
            data := data[fieldname := [celldata]];
          }
        }
      }
    }

    /** No final flush: the group still being accumulated stays out. */
    method GetRecords() returns (r: Records)
      ensures r == records
    {
      r := records;
    }
  }

  /** Trims the page, feeds its events to a fresh date-query parser and returns its records. */
  method ParseDatequeryRecordList(page: string, lex: string -> seq<Event>) returns (records: Records)
    ensures records == ParsedDateRecords(page, lex)
  {
    var trimmed := TrimHeader(page);
    var parser := new DeedRecordsParser(DateQuery);
    var events := if trimmed == "" then [] else lex(trimmed);
    for i := 0 to |events|
      invariant parser.State() == DeedRun(DateQuery, DeedInitial, events[..i])
    {
      assert events[..i + 1][..i] == events[..i];
      match events[i] {
        case StartTag(tag, attrs) => parser.HandleStartTag(tag, attrs);
        case EndTag(tag) => parser.HandleEndTag(tag);
        case Text(t) => parser.HandleData(t);
      }
    }
    assert events[..|events|] == events;
    records := parser.GetRecords();
  }
}
