/** Properties of the older parser: where rows come from, what they hold, and the
    row-group it never emits. */
module DeedParserFacts {
  import opened Outcome
  import opened PyStrings
  import opened PageInput
  import opened Rows
  import opened RecordsParser
  import opened DeedParser

  /** Every stored row has a Document and sits under its value. */
  ghost predicate DeedWellFormed(records: Records)
  {
    forall k, i :: k in records && 0 <= i < |records[k]| ==> JoinKey in records[k][i] && records[k][i][JoinKey] == k
  }

  /** Rows are emitted only by captured text in column 0, only when the accumulator has
      a Document, and then exactly one row, its fields joined with newlines, is added
      after the rows already stored under that Document. Captured column-0 text empties
      the accumulator whether or not a row is emitted. */
  lemma OnlyColumnZeroTextEmits(schema: Schema, s: DeedState, e: Event)
    ensures DeedApply(schema, s, e).records != s.records ==>
              && e.Text? && s.inRecordsTable && s.inFont && s.column == 0 && JoinKey in s.data
    ensures e.Text? && s.inRecordsTable && s.inFont && s.column == 0 && JoinKey in s.data ==>
              var row := JoinedRow(s.data, NewlineKey);
              DeedApply(schema, s, e).records == s.records[row[JoinKey] := RowsAt(s.records, row[JoinKey]) + [row]]
    ensures e.Text? && s.inRecordsTable && s.inFont && s.column == 0 ==>
              DeedApply(schema, s, e).data == map[]
  {
    if e.Text? && s.inRecordsTable && s.inFont {
      assert 0 !in DeedColumnToField(schema);
    }
  }

  /** Each emitted field splits back on the newline into the chunks captured for it,
      provided no chunk itself contains a newline. */
  lemma EmittedRowSplitsBack(s: DeedState, f: string)
    requires JoinKey in s.data && f in s.data && |s.data[f]| >= 1
    requires forall i :: 0 <= i < |s.data[f]| ==> '\n' !in s.data[f][i]
    ensures Split(JoinedRow(s.data, NewlineKey)[f], NewlineKey) == s.data[f]
  {
    var chunks := s.data[f];
    forall i | 0 <= i < |chunks| ensures !Contains(chunks[i], NewlineKey) {
      SplitWithoutSep(chunks[i], NewlineKey);
    }
    forall i | 0 <= i < |chunks| - 1 ensures NoStraddle(chunks[i], NewlineKey) {
      OneCharNoStraddle(chunks[i], NewlineKey);
    }
    SplitJoin(chunks, NewlineKey);
  }

  /** Captured text outside column 0 is appended to its field's chunks; nothing is overwritten. */
  lemma CaptureAppends(schema: Schema, s: DeedState, celldata: string)
    requires s.inRecordsTable && s.inFont && s.column != 0 && s.column in DeedColumnToField(schema)
    ensures var f := DeedColumnToField(schema)[s.column];
            var after := DeedOnData(schema, s, celldata);
            && after.records == s.records
            && after.data.Keys == s.data.Keys + {f}
            && after.data[f] == (if f in s.data then s.data[f] else []) + [celldata]
            && forall g :: g in s.data && g != f ==> after.data[g] == s.data[g]
  {
  }

  /** An anchor with an href at column 1 of the records table replaces any earlier
      APN link with a one-chunk list; the parcel listing has no such rule. */
  lemma AnchorSetsLink(schema: Schema, s: DeedState, attrs: seq<Attr>, href: string)
    requires s.inRecordsTable && s.column == 1 && GetAttribute(attrs, "href") == Some(href)
    ensures schema.DateQuery? ==> DeedOnStartTag(schema, s, "a", attrs).data == s.data["APNLink" := [href]]
    ensures schema.ApnQuery? ==> DeedOnStartTag(schema, s, "a", attrs) == s
  {
  }

  /** Closing tags never emit or touch the accumulator, `</tr>` included. */
  lemma EndTagsKeepGroup(s: DeedState, tag: string)
    ensures DeedOnEndTag(s, tag).records == s.records && DeedOnEndTag(s, tag).data == s.data
  {
  }

  lemma DeedApplyWellFormed(schema: Schema, s: DeedState, e: Event)
    requires DeedWellFormed(s.records)
    ensures DeedWellFormed(DeedApply(schema, s, e).records)
  {
    if e.Text? && s.inRecordsTable && s.inFont && s.column == 0 && JoinKey in s.data {
      OnlyColumnZeroTextEmits(schema, s, e);
      var row := JoinedRow(s.data, NewlineKey);
      var key := row[JoinKey];
      var after := DeedApply(schema, s, e).records;
      forall k: string, i: int | k in after && 0 <= i < |after[k]|
        ensures JoinKey in after[k][i] && after[k][i][JoinKey] == k
      {
        if k == key && i == |RowsAt(s.records, key)| {
          assert after[k][i] == row;
        } else if k == key {
          assert after[k][i] == s.records[k][i];
        }
      }
    } else {
      OnlyColumnZeroTextEmits(schema, s, e);
    }
  }

  lemma {:induction false} DeedRunWellFormed(schema: Schema, s: DeedState, events: seq<Event>)
    requires DeedWellFormed(s.records)
    ensures DeedWellFormed(DeedRun(schema, s, events).records)
  {
    if |events| > 0 {
      DeedRunWellFormed(schema, s, events[..|events| - 1]);
      DeedApplyWellFormed(schema, DeedRun(schema, s, events[..|events| - 1]), events[|events| - 1]);
    }
  }

  /** Every row `parse_datequery_record_list` returns is stored under its own Document. */
  lemma ParsedDateRecordsWellFormed(page: string, lex: string -> seq<Event>)
    ensures DeedWellFormed(ParsedDateRecords(page, lex))
  {
    var trimmed := TrimmedPage(page);
    DeedRunWellFormed(DateQuery, DeedInitial, if trimmed == "" then [] else lex(trimmed));
  }

  /** A run over two event lists is the run over the second from where the first ended. */
  lemma {:induction false} DeedRunConcat(schema: Schema, s: DeedState, a: seq<Event>, b: seq<Event>)
    ensures DeedRun(schema, s, a + b) == DeedRun(schema, DeedRun(schema, s, a), b)
    decreases |b|
  {
    if |b| > 0 {
      var n := |b| - 1;
      assert (a + b)[..|a + b| - 1] == a + b[..n];
      DeedRunConcat(schema, s, a, b[..n]);
    } else {
      assert a + b == a;
    }
  }

  /** A one-row table: its Document is captured but, with no later column-0 text, the
      row-group is never emitted. The table is taken in four parts. */
  const OpenRow: seq<Event> := [StartTag("table", [Attr("class", Some("records"))]), StartTag("tr", []), StartTag("td", [])]
  const ToDocument: seq<Event> := [StartTag("td", []), StartTag("td", []), StartTag("td", [])]
  const DocumentCell: seq<Event> := [StartTag("font", []), Text("A1-23"), EndTag("font")]
  const CloseRow: seq<Event> := [EndTag("tr"), EndTag("table")]
  const OneRowTable: seq<Event> := OpenRow + ToDocument + DocumentCell + CloseRow

  const CapturedDocument: Accum := map["Document" := ["A1-23"]]

  lemma OpenRowRun()
    ensures DeedRun(DateQuery, DeedInitial, OpenRow) == DeedState(true, 0, 0, false, map[], map[])
  {
    assert GetAttribute([Attr("class", Some("records"))], "class") == Some("records");
    assert OpenRow[..2][..1] == OpenRow[..1] && OpenRow[..1][..0] == [] && OpenRow[..3] == OpenRow;
    assert DeedRun(DateQuery, DeedInitial, OpenRow[..1]) == DeedState(true, -1, -1, false, map[], map[]);
    assert DeedRun(DateQuery, DeedInitial, OpenRow[..2]) == DeedState(true, 0, -1, false, map[], map[]);
  }

  lemma ToDocumentRun()
    ensures DeedRun(DateQuery, DeedState(true, 0, 0, false, map[], map[]), ToDocument)
            == DeedState(true, 0, 3, false, map[], map[])
  {
    var s := DeedState(true, 0, 0, false, map[], map[]);
    assert ToDocument[..2][..1] == ToDocument[..1] && ToDocument[..1][..0] == [] && ToDocument[..3] == ToDocument;
    assert DeedRun(DateQuery, s, ToDocument[..1]) == s.(column := 1);
    assert DeedRun(DateQuery, s, ToDocument[..2]) == s.(column := 2);
  }

  lemma DocumentCellRun()
    ensures DeedRun(DateQuery, DeedState(true, 0, 3, false, map[], map[]), DocumentCell)
            == DeedState(true, 0, 3, false, CapturedDocument, map[])
  {
    assert GetAttribute([], "color") == None;
    assert AddChunk(map[], "Document", "A1-23") == CapturedDocument by {
      assert [] + ["A1-23"] == ["A1-23"];
    }
    var s := DeedState(true, 0, 3, false, map[], map[]);
    assert DocumentCell[..2][..1] == DocumentCell[..1] && DocumentCell[..1][..0] == [] && DocumentCell[..3] == DocumentCell;
    assert DeedRun(DateQuery, s, DocumentCell[..1]) == s.(inFont := true);
    assert DeedRun(DateQuery, s, DocumentCell[..2]) == s.(inFont := true, data := CapturedDocument);
  }

  lemma CloseRowRun()
    ensures DeedRun(DateQuery, DeedState(true, 0, 3, false, CapturedDocument, map[]), CloseRow)
            == DeedState(false, 0, 3, false, CapturedDocument, map[])
  {
    assert CloseRow[..1][..0] == [];
  }

  lemma LastGroupNeverEmitted()
    ensures DeedRun(DateQuery, DeedInitial, OneRowTable).records == map[]
    ensures DeedRun(DateQuery, DeedInitial, OneRowTable).data == map["Document" := ["A1-23"]]
  {
    DeedRunConcat(DateQuery, DeedInitial, OpenRow + ToDocument + DocumentCell, CloseRow);
    DeedRunConcat(DateQuery, DeedInitial, OpenRow + ToDocument, DocumentCell);
    DeedRunConcat(DateQuery, DeedInitial, OpenRow, ToDocument);
    OpenRowRun();
    ToDocumentRun();
    DocumentCellRun();
    CloseRowRun();
  }
}
