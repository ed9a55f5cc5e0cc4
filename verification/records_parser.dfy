/** The newer row-accumulating table parser (`HTMLRecordsParser` and its date-query
    and APN subclasses). The two subclasses differ in their column map and in two
    hooks, so the model has one parser whose `schema` selects them: the date-query
    parser also captures the APN link from an anchor, the APN parser also keeps every
    text token of the table and sniffs fields out of them when a row is incomplete.

    Each handler is specified by a pure transition on a `ParserState` value; the
    class methods update the fields in place and are proved to agree with it. */
module RecordsParser {
  import opened Outcome
  import opened PyStrings
  import opened PageInput
  import opened Rows
  import opened Sniffing

  /** The separator joining several chunks of one field. */
  const MultilineKey: string := "|||"

  datatype Schema = DateQuery | ApnQuery

  /** Which table column feeds which field. */
  function ColumnToField(schema: Schema): map<int, string>
  {
    match schema
    case DateQuery => map[2 := "RecordDate", 3 := "Document", 4 := "DocType", 5 := "GrantorGrantee", 6 := "Name"]
    case ApnQuery => map[1 := "Document", 3 := "Reel", 4 := "Image", 9 := "APN"]
  }

  /** The fields a row needs before it is promoted: the values of the column map. */
  function RequiredFields(schema: Schema): (r: set<string>)
    ensures schema.DateQuery? ==> r == {"RecordDate", "Document", "DocType", "GrantorGrantee", "Name"}
    ensures schema.ApnQuery? ==> r == {"Document", "Reel", "Image", "APN"}
  {
    var m := ColumnToField(schema);
    if schema.DateQuery? then
      assert m[2] == "RecordDate" && m[3] == "Document" && m[4] == "DocType" && m[5] == "GrantorGrantee" && m[6] == "Name";
      m.Values
    else
      assert m[1] == "Document" && m[3] == "Reel" && m[4] == "Image" && m[9] == "APN";
      m.Values
  }

  predicate Complete(schema: Schema, data: Accum)
  {
    RequiredFields(schema) <= data.Keys
  }

  /** The parser's fields. `sniffed` is `all_data_for_sniffing`, which only the APN
      parser fills. */
  datatype ParserState = ParserState(
    inRecordsTable: bool,
    column: int,
    inFont: bool,
    data: Accum,
    records: Records,
    sniffed: seq<string>)

  /** A handler's outcome: the new state, or `raised` with the state it left behind. */
  datatype Step = Step(state: ParserState, raised: bool)

  const Initial: ParserState := ParserState(false, -1, false, map[], map[], [])

  /** The row stored `n` times under `key`. */
  function AppendRows(records: Records, key: string, row: Row, n: nat): Records
  {
    records[key := RowsAt(records, key) + seq(n, _ => row)]
  }

  /** `flush_data_to_records` of the base class. An incomplete accumulator is dropped.
      A complete one is joined field by field; the row is stored under its Document
      value once per field, because the append sits inside the per-field loop and
      every append is the same dict. The model iterates Document first, so each
      append sees the joined Document value. */
  function BaseFlush(schema: Schema, s: ParserState): ParserState
  {
    if !Complete(schema, s.data) then s.(data := map[])
    else
      var row := JoinedRow(s.data, MultilineKey);
      s.(data := map[], records := AppendRows(s.records, row[JoinKey], row, |s.data.Keys|))
  }

  /** The records after the per-field loop of `flush_data_to_records` visits the
      fields in `order`, as the code does in dict order. Each iteration joins one
      field, reads the Document value again (its first chunk while Document is still
      an unjoined list) and appends the row there; `docJoined` says whether Document
      was visited already. Every append is the same dict, which ends fully joined. */
  function AppendInOrder(records: Records, data: Accum, order: seq<string>, docJoined: bool): Records
    requires JoinKey in data && |data[JoinKey]| > 0
    decreases |order|
  {
    if order == [] then records
    else
      var joined := docJoined || order[0] == JoinKey;
      var key := if joined then Join(data[JoinKey], MultilineKey) else data[JoinKey][0];
      AppendInOrder(AppendRows(records, key, JoinedRow(data, MultilineKey), 1), data, order[1..], joined)
  }

  /** The base flush with its per-field loop taken in `order`. `BaseFlush` is the
      case where Document comes first. */
  function BaseFlushInOrder(schema: Schema, s: ParserState, order: seq<string>): ParserState
    requires Complete(schema, s.data) ==> |s.data[JoinKey]| > 0
  {
    if !Complete(schema, s.data) then s.(data := map[])
    else s.(data := map[], records := AppendInOrder(s.records, s.data, order, false))
  }

  /** `flush_data_to_records` as dispatched: the APN parser first rebuilds an
      incomplete accumulator from the sniffed tokens (raising ValueError, with nothing
      changed, when the year cannot be removed) and always empties its token list. */
  function Flush(schema: Schema, s: ParserState): Step
  {
    match schema
    case DateQuery => Step(BaseFlush(DateQuery, s), false)
    case ApnQuery =>
      if Complete(ApnQuery, s.data) then Step(BaseFlush(ApnQuery, s.(sniffed := [])), false)
      else match Sniff(s.sniffed)
        case Raised(_) => Step(s, true)
        case Ok(newdata) => Step(BaseFlush(ApnQuery, s.(data := newdata, sniffed := [])), false)
  }

  /** `handle_starttag`, with the date-query parser's anchor capture after it. */
  function OnStartTag(schema: Schema, s: ParserState, tag: string, attrs: seq<Attr>): ParserState
  {
    var s1 :=
      if tag == "table" && GetAttribute(attrs, "class") == Some("records") then
        s.(inRecordsTable := true, column := -1)
      else if tag == "tr" then s.(column := -1)
      else if tag == "td" then s.(column := s.column + 1)
      else if tag == "font" && GetAttribute(attrs, "color") == None then s.(inFont := true)
      else s;
    if schema.DateQuery? && tag == "a" && s1.inRecordsTable && s1.column == 1
       && GetAttribute(attrs, "href").Some?
    then s1.(data := s1.data["APNLink" := [GetAttribute(attrs, "href").value]])
    else s1
  }

  /** `handle_endtag`: only a row end inside the table flushes. */
  function OnEndTag(schema: Schema, s: ParserState, tag: string): Step
  {
    if tag == "table" && s.inRecordsTable then Step(s.(inRecordsTable := false), false)
    else if tag == "tr" && s.inRecordsTable then Flush(schema, s)
    else if tag == "font" then Step(s.(inFont := false), false)
    else Step(s, false)
  }

  /** `handle_data`: the APN parser first keeps every non-empty token seen in the
      table; then text inside the table, inside a font and at a mapped column is
      appended to its field. */
  function OnData(schema: Schema, s: ParserState, celldata: string): ParserState
  {
    var s1 :=
      if schema.ApnQuery? && s.inRecordsTable && celldata != "" then s.(sniffed := s.sniffed + [celldata])
      else s;
    if s1.inRecordsTable && s1.inFont && s1.column in ColumnToField(schema) then
      s1.(data := AddChunk(s1.data, ColumnToField(schema)[s1.column], celldata))
    else s1
  }

  function Apply(schema: Schema, s: ParserState, e: Event): Step
  {
    match e
    case StartTag(tag, attrs) => Step(OnStartTag(schema, s, tag, attrs), false)
    case EndTag(tag) => OnEndTag(schema, s, tag)
    case Text(t) => Step(OnData(schema, s, t), false)
  }

  /** The events handled in order; an exception stops the run. */
  function Run(schema: Schema, s: ParserState, events: seq<Event>): Step
  {
    if |events| == 0 then Step(s, false)
    else
      var r := Run(schema, s, events[..|events| - 1]);
      if r.raised then r else Apply(schema, r.state, events[|events| - 1])
  }

  /** `feed`: empty the accumulator and the records (the position flags carry over),
      then handle the events of the trimmed page; an empty trimmed page yields none. */
  function FeedPage(schema: Schema, s: ParserState, page: string, lex: string -> seq<Event>): Step
  {
    var trimmed := TrimmedPage(page);
    Run(schema, s.(data := map[], records := map[]), if trimmed == "" then [] else lex(trimmed))
  }

  /** Every stored row has all the required fields and sits under its own Document value. */
  ghost predicate WellFormed(schema: Schema, records: Records)
  {
    forall k, i :: k in records && 0 <= i < |records[k]| ==>
      RequiredFields(schema) <= records[k][i].Keys && records[k][i][JoinKey] == k
  }

  class HTMLRecordsParser {
    const schema: Schema
    var inRecordsTable: bool
    var column: int
    var inFont: bool
    var data: Accum
    var records: Records
    var allDataForSniffing: seq<string>

    function State(): ParserState
      reads this
    {
      ParserState(inRecordsTable, column, inFont, data, records, allDataForSniffing)
    }

    constructor (schema: Schema)
      ensures this.schema == schema && State() == Initial
    {
      this.schema := schema;
      inRecordsTable, column, inFont := false, -1, false;
      data, records, allDataForSniffing := map[], map[], [];
    }

    method HandleStartTag(tag: string, attrs: seq<Attr>)
      modifies this
      ensures State() == OnStartTag(schema, old(State()), tag, attrs)
    {
      if tag == "table" && GetAttribute(attrs, "class") == Some("records") {
        inRecordsTable := true;
        column := -1;
      } else if tag == "tr" {
        column := -1;
      } else if tag == "td" {
        column := column + 1;
      } else if tag == "font" && GetAttribute(attrs, "color") == None {
        inFont := true;
      }
      if schema.DateQuery? && tag == "a" && inRecordsTable && column == 1 {
        var href := GetAttribute(attrs, "href");
        if href.Some? {
          data := data["APNLink" := [href.value]];
        }
      }
    }

    method HandleEndTag(tag: string) returns (raised: bool)
      modifies this
      ensures Step(State(), raised) == OnEndTag(schema, old(State()), tag)
    {
      raised := false;
      if tag == "table" && inRecordsTable {
        inRecordsTable := false;
      } else if tag == "tr" && inRecordsTable {
        raised := FlushDataToRecords();
      } else if tag == "font" {
        inFont := false;
      }
    }

    method HandleData(celldata: string)
      modifies this
      ensures State() == OnData(schema, old(State()), celldata)
    {
      if schema.ApnQuery? && inRecordsTable && celldata != "" {
        allDataForSniffing := allDataForSniffing + [celldata];
      }
      if inRecordsTable && inFont && column in ColumnToField(schema) {
        var fieldname := ColumnToField(schema)[column];
        if fieldname in data {
          data := data[fieldname := data[fieldname] + [celldata]];
        } else {
          assert [] + [celldata] == [celldata];
          data := data[fieldname := [celldata]];
        }
      }
    }

    /** The base class's flush; `promoted` is its True/False result. */
    method BaseFlushDataToRecords() returns (promoted: bool)
      modifies this
      ensures promoted == Complete(schema, old(data))
      ensures State() == BaseFlush(schema, old(State()))
    {
      var required := RequiredFields(schema);
      if !(required <= data.Keys) {
        data := map[];
        return false;
      }
      var row, n := JoinAccumulator(data, MultilineKey);
      var joinkeyvalue := row[JoinKey];
      records := records[joinkeyvalue := RowsAt(records, joinkeyvalue) + seq(n, _ => row)];
      data := map[];
      promoted := true;
    }

    /** `flush_data_to_records` as dispatched on the parser's class. */
    method FlushDataToRecords() returns (raised: bool)
      modifies this
      ensures Step(State(), raised) == Flush(schema, old(State()))
    {
      raised := false;
      if schema.ApnQuery? {
        var sniffingNeeded := !(RequiredFields(schema) <= data.Keys);
        if sniffingNeeded {
          var newdata := SniffData(allDataForSniffing);
          if newdata.Raised? {
            return true;
          }
          data := newdata.value;
        }
        allDataForSniffing := [];
      }
      var _ := BaseFlushDataToRecords();
    }

    /** `get_records`: one last flush, then the records. */
    method GetRecords() returns (raised: bool, result: Records)
      modifies this
      ensures Step(State(), raised) == Flush(schema, old(State()))
      ensures result == records
    {
      raised := FlushDataToRecords();
      result := records;
    }

    /** `feed`: trim the page, then hand its events to the handlers in order. */
    method Feed(page: string, lex: string -> seq<Event>) returns (raised: bool)
      modifies this
      ensures Step(State(), raised) == FeedPage(schema, old(State()), page, lex)
    {
      data := map[];
      records := map[];
      var trimmed := TrimHeader(page);
      var events := if trimmed == "" then [] else lex(trimmed);
      ghost var start := State();
      raised := false;
      var i := 0;
      while i < |events| && !raised
        invariant 0 <= i <= |events|
        invariant Run(schema, start, events[..i]) == Step(State(), raised)
      {
        assert events[..i + 1][..i] == events[..i];
        match events[i] {
          case StartTag(tag, attrs) => HandleStartTag(tag, attrs);
          case EndTag(tag) => raised := HandleEndTag(tag);
          case Text(t) => HandleData(t);
        }
        i := i + 1;
      }
      RunStopsAtRaise(schema, start, events, i);
    }
  }

  /** Once a run has raised, later events change nothing. */
  lemma {:induction false} RunStopsAtRaise(schema: Schema, s: ParserState, events: seq<Event>, i: nat)
    requires i <= |events|
    requires i == |events| || Run(schema, s, events[..i]).raised
    ensures Run(schema, s, events) == Run(schema, s, events[..i])
    decreases |events| - i
  {
    if i < |events| {
      assert events[..i + 1][..i] == events[..i];
      RunStopsAtRaise(schema, s, events, i + 1);
    } else {
      assert events[..i] == events;
    }
  }
}
