/** What the newer parser promises: all-or-nothing promotion, the separator round
    trip, the shape of every stored row, the sniffing fallback and the final flush. */
module RecordsParserFacts {
  import opened Outcome
  import opened PyStrings
  import opened PageInput
  import opened Rows
  import opened Sniffing
  import opened RecordsParser

  /** Flushing empties the accumulator and changes the records exactly when every
      required field was present; it never removes or reorders a stored row. */
  lemma FlushAllOrNothing(schema: Schema, s: ParserState)
    ensures BaseFlush(schema, s).data == map[]
    ensures BaseFlush(schema, s).records != s.records <==> Complete(schema, s.data)
    ensures forall k :: k in s.records ==>
              k in BaseFlush(schema, s).records && s.records[k] <= BaseFlush(schema, s).records[k]
  {
    if Complete(schema, s.data) {
      var row := JoinedRow(s.data, MultilineKey);
      var key := row[JoinKey];
      var after := BaseFlush(schema, s).records;
      assert |after[key]| == |RowsAt(s.records, key)| + |s.data.Keys|;
      assert JoinKey in s.data.Keys;
      assert |s.data.Keys| > 0;
      assert after != s.records by {
        if key in s.records { assert |after[key]| != |s.records[key]|; }
        else { assert key in after; }
      }
    }
  }

  /** A promoted row lands at the end of the rows under its Document value, as many
      times as it has fields, and each field splits back into its chunks. */
  lemma PromotedRowSplitsBack(schema: Schema, s: ParserState, f: string)
    requires Complete(schema, s.data)
    requires f in s.data && |s.data[f]| >= 1 && Separable(s.data[f], MultilineKey)
    ensures var row := JoinedRow(s.data, MultilineKey);
            var after := BaseFlush(schema, s).records;
            && row.Keys == s.data.Keys
            && row[JoinKey] in after
            && after[row[JoinKey]] == RowsAt(s.records, row[JoinKey]) + seq(|s.data.Keys|, _ => row)
            && Split(row[f], MultilineKey) == s.data[f]
  {
    SplitJoin(s.data[f], MultilineKey);
  }

  /** A flush keeps every stored row well formed. */
  lemma BaseFlushWellFormed(schema: Schema, s: ParserState)
    requires WellFormed(schema, s.records)
    ensures WellFormed(schema, BaseFlush(schema, s).records)
  {
    if Complete(schema, s.data) {
      var row := JoinedRow(s.data, MultilineKey);
      var key := row[JoinKey];
      var after: Records := BaseFlush(schema, s).records;
      forall k: string, i: int | k in after && 0 <= i < |after[k]|
        ensures RequiredFields(schema) <= after[k][i].Keys && after[k][i][JoinKey] == k
      {
        if k == key && i >= |RowsAt(s.records, key)| {
          assert after[k][i] == row;
        } else {
          assert after[k][i] == s.records[k][i];
        }
      }
    }
  }

  /** Two appends of the same row under one key are one longer append. */
  lemma AppendRowsTwice(records: Records, key: string, row: Row, m: nat, n: nat)
    ensures AppendRows(AppendRows(records, key, row, m), key, row, n) == AppendRows(records, key, row, m + n)
  {
    var once := AppendRows(records, key, row, m);
    assert RowsAt(once, key) == RowsAt(records, key) + seq(m, _ => row);
    assert seq(m, _ => row) + seq(n, _ => row) == seq(m + n, _ => row);
    assert RowsAt(once, key) + seq(n, _ => row) == RowsAt(records, key) + seq(m + n, _ => row);
  }

  /** With a one-chunk Document, every iteration of the loop appends under that chunk. */
  lemma {:induction false} AppendInOrderOneChunk(records: Records, data: Accum, order: seq<string>, docJoined: bool)
    requires JoinKey in data && |data[JoinKey]| == 1
    requires |order| > 0
    ensures AppendInOrder(records, data, order, docJoined)
            == AppendRows(records, data[JoinKey][0], JoinedRow(data, MultilineKey), |order|)
    decreases |order|
  {
    var key, row := data[JoinKey][0], JoinedRow(data, MultilineKey);
    var joined := docJoined || order[0] == JoinKey;
    var next := AppendRows(records, key, row, 1);
    assert AppendInOrder(records, data, order, docJoined) == AppendInOrder(next, data, order[1..], joined);
    if |order| > 1 {
      AppendInOrderOneChunk(next, data, order[1..], joined);
      AppendRowsTwice(records, key, row, 1, |order| - 1);
    }
  }

  /** When Document has one chunk, the dict order of the join loop does not matter:
      any listing of the fields gives the flush with Document joined first. */
  lemma SingleChunkOrderIrrelevant(schema: Schema, s: ParserState, order: seq<string>)
    requires Complete(schema, s.data) ==> |s.data[JoinKey]| == 1
    requires forall k :: k in order <==> k in s.data
    requires |order| == |s.data.Keys|
    ensures BaseFlushInOrder(schema, s, order) == BaseFlush(schema, s)
  {
    if Complete(schema, s.data) {
      assert JoinKey in order;
      AppendInOrderOneChunk(s.records, s.data, order, false);
    }
  }

  /** The loop never removes or reorders rows already stored. */
  lemma {:induction false} AppendInOrderGrows(records: Records, data: Accum, order: seq<string>, docJoined: bool, k: string)
    requires JoinKey in data && |data[JoinKey]| > 0
    requires k in records
    ensures var after := AppendInOrder(records, data, order, docJoined);
            k in after && records[k] <= after[k]
    decreases |order|
  {
    if order != [] {
      var joined := docJoined || order[0] == JoinKey;
      var key := if joined then Join(data[JoinKey], MultilineKey) else data[JoinKey][0];
      var next := AppendRows(records, key, JoinedRow(data, MultilineKey), 1);
      AppendInOrderGrows(next, data, order[1..], joined, k);
    }
  }

  /** When Document has several chunks and the loop visits another field first, the
      row is stored under Document's first chunk, which is not its own Document
      value: the records are no longer well formed. */
  lemma SplitDocumentBreaksWellFormed(schema: Schema, s: ParserState, order: seq<string>)
    requires Complete(schema, s.data) && |s.data[JoinKey]| >= 2
    requires |order| > 0 && order[0] != JoinKey
    ensures var first := s.data[JoinKey][0];
            var row := JoinedRow(s.data, MultilineKey);
            var after := BaseFlushInOrder(schema, s, order).records;
            && first in after && row in after[first]
            && row[JoinKey] != first
            && !WellFormed(schema, after)
  {
    var chunks := s.data[JoinKey];
    var first, row := chunks[0], JoinedRow(s.data, MultilineKey);
    assert row[JoinKey] == first + MultilineKey + Join(chunks[1..], MultilineKey);
    assert |row[JoinKey]| > |first|;
    var next := AppendRows(s.records, first, row, 1);
    assert next[first] == RowsAt(s.records, first) + [row];
    assert AppendInOrder(s.records, s.data, order, false) == AppendInOrder(next, s.data, order[1..], false);
    AppendInOrderGrows(next, s.data, order[1..], false, first);
    var after := BaseFlushInOrder(schema, s, order).records;
    var i := |next[first]| - 1;
    assert after[first][i] == row;
  }

  /** Every flush, sniffing or not, keeps the stored rows well formed. */
  lemma FlushWellFormed(schema: Schema, s: ParserState)
    requires WellFormed(schema, s.records)
    ensures WellFormed(schema, Flush(schema, s).state.records)
  {
    match schema
    case DateQuery => BaseFlushWellFormed(schema, s);
    case ApnQuery =>
      if Complete(ApnQuery, s.data) {
        BaseFlushWellFormed(schema, s.(sniffed := []));
      } else if Sniff(s.sniffed).Ok? {
        BaseFlushWellFormed(schema, s.(data := Sniff(s.sniffed).value, sniffed := []));
      }
  }

  /** Only a row end inside the records table can change the records. */
  lemma OnlyRowEndFlushes(schema: Schema, s: ParserState, e: Event)
    requires Apply(schema, s, e).state.records != s.records
    ensures e == EndTag("tr") && s.inRecordsTable
  {
  }

  /** Whatever the page, every row the parser stores has all the required fields and
      sits under its own Document value. */
  lemma {:induction false} RunWellFormed(schema: Schema, s: ParserState, events: seq<Event>)
    requires WellFormed(schema, s.records)
    ensures WellFormed(schema, Run(schema, s, events).state.records)
  {
    if |events| > 0 {
      var init := events[..|events| - 1];
      RunWellFormed(schema, s, init);
      var r := Run(schema, s, init);
      if !r.raised {
        var e := events[|events| - 1];
        if e.EndTag? && e.tag == "tr" && r.state.inRecordsTable {
          FlushWellFormed(schema, r.state);
        } else if Apply(schema, r.state, e).state.records != r.state.records {
          OnlyRowEndFlushes(schema, r.state, e);
        }
      }
    }
  }

  /** `feed` starts the records afresh, so what it produces is always well formed. */
  lemma FeedWellFormed(schema: Schema, s: ParserState, page: string, lex: string -> seq<Event>)
    ensures WellFormed(schema, FeedPage(schema, s, page, lex).state.records)
  {
    var trimmed := TrimmedPage(page);
    RunWellFormed(schema, s.(data := map[], records := map[]), if trimmed == "" then [] else lex(trimmed));
  }

  /** Text is only ever appended to a field's chunk list: no chunk is overwritten or
      lost, and the accumulator changes exactly when the text is captured. */
  lemma DataNeverOverwritten(schema: Schema, s: ParserState, celldata: string)
    ensures forall f :: f in s.data ==> f in OnData(schema, s, celldata).data
                                         && s.data[f] <= OnData(schema, s, celldata).data[f]
    ensures OnData(schema, s, celldata).data != s.data
            <==> s.inRecordsTable && s.inFont && s.column in ColumnToField(schema)
    ensures OnData(schema, s, celldata).records == s.records
  {
    if s.inRecordsTable && s.inFont && s.column in ColumnToField(schema) {
      var f := ColumnToField(schema)[s.column];
      var after := OnData(schema, s, celldata).data;
      assert |after[f]| == |if f in s.data then s.data[f] else []| + 1;
      assert after != s.data by {
        if f in s.data { assert |after[f]| != |s.data[f]|; }
      }
    }
  }

  /** The APN parser's flush raises exactly when the accumulator is incomplete, some
      token holds a date, and no token is that date's year on its own; a raise
      changes nothing, and any other outcome leaves the token list empty. */
  lemma ApnFlushRaisesIff(s: ParserState)
    ensures Flush(ApnQuery, s).raised
            <==> !Complete(ApnQuery, s.data) && SniffYear(s.sniffed) != ""
                 && SniffYear(s.sniffed) !in s.sniffed
    ensures Flush(ApnQuery, s).raised ==> Flush(ApnQuery, s).state == s
    ensures !Flush(ApnQuery, s).raised ==> Flush(ApnQuery, s).state.sniffed == []
  {
    if !Complete(ApnQuery, s.data) {
      var year := SniffYear(s.sniffed);
      if year != "" {
        assert DropYear(s.sniffed) == RemoveFirst(s.sniffed, year);
        assert DropYear(s.sniffed).Raised? <==> year !in s.sniffed;
      } else {
        assert DropYear(s.sniffed) == Ok(s.sniffed);
      }
      assert Sniff(s.sniffed).Raised? <==> DropYear(s.sniffed).Raised?;
    }
  }

  /** When sniffing runs without raising, a row is promoted exactly when some token
      fits the Document rule and some token fits the block-lot rule. */
  lemma ApnSniffPromotesIff(s: ParserState, rest: seq<string>)
    requires !Complete(ApnQuery, s.data)
    requires DropYear(s.sniffed) == Ok(rest)
    ensures !Flush(ApnQuery, s).raised
    ensures Flush(ApnQuery, s).state.records != s.records
            <==> Claimed(rest, "Document") != [] && Claimed(rest, "APN") != []
  {
    var nd := SniffedFields(rest);
    assert Sniff(s.sniffed) == Ok(nd);
    assert Flush(ApnQuery, s) == Step(BaseFlush(ApnQuery, s.(data := nd, sniffed := [])), false);
    FlushAllOrNothing(ApnQuery, s.(data := nd, sniffed := []));
    assert Complete(ApnQuery, nd) <==> Claimed(rest, "Document") != [] && Claimed(rest, "APN") != [] by {
      SniffedFieldPresent(rest, 0);
      SniffedFieldPresent(rest, 1);
      assert RuleFields[0] == "Document" && RuleFields[1] == "APN";
      SniffedFieldsClaimed(rest);
      assert "Image" in nd && "Reel" in nd;
    }
  }

  /** `get_records` leaves nothing behind: a second call changes nothing, so the
      final flush cannot promote a row twice. */
  lemma GetRecordsIdempotent(schema: Schema, s: ParserState)
    requires !Flush(schema, s).raised
    ensures Flush(schema, Flush(schema, s).state) == Step(Flush(schema, s).state, false)
  {
    var t := Flush(schema, s).state;
    assert t.data == map[];
    assert !Complete(schema, t.data) by { assert JoinKey in RequiredFields(schema); }
    if schema.ApnQuery? {
      assert t.sniffed == [];
      assert SniffYear([]) == "";
      assert SniffedFields([]) == map["Image" := [], "Reel" := []];
      assert !Complete(ApnQuery, SniffedFields([]));
    }
  }
}
