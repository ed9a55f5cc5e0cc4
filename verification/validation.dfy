/** The two `validate_records` checks run over a parser's records. Both fold a flag
    over every row without stopping early; a row that lacks a field the check reads
    with `row[...]` raises KeyError out of the check. */
module RecordsValidation {
  import opened Outcome
  import opened PyStrings
  import opened Patterns
  import opened Rows
  import opened RecordsParser

  /** `s.replace(" ", "_")`. */
  function ReplaceSpaces(s: string): (r: string)
    ensures |r| == |s|
    ensures forall i :: 0 <= i < |s| ==> r[i] == if s[i] == ' ' then '_' else s[i]
  {
    if |s| == 0 then "" else ReplaceSpaces(s[..|s| - 1]) + [if s[|s| - 1] == ' ' then '_' else s[|s| - 1]]
  }

  /** The fields the date-query check reads with `v[...]`. */
  const DateIndexedFields: set<string> := {"Document", "DocType", "APNLink", "GrantorGrantee"}

  /** The date-query checks on one row under `key`. */
  predicate DateRowValid(key: string, row: Row)
    requires DateIndexedFields <= row.Keys
  {
    && row["Document"] == key
    && Get(row, "RecordDate", "") != "" && MatchesSlashDate(row["RecordDate"])
    && ReplaceSpaces(row["DocType"]) in RecordTypes
    && ' ' !in row["APNLink"]
    && (row["GrantorGrantee"] == "E" || row["GrantorGrantee"] == "R")
  }

  /** The loop over one key's rows, folding the flag. */
  function CheckDateRows(key: string, rows: seq<Row>): Result<bool>
  {
    if |rows| == 0 then Ok(true)
    else match CheckDateRows(key, rows[..|rows| - 1])
      case Raised(e) => Raised(e)
      case Ok(valid) =>
        var v := rows[|rows| - 1];
        if !(DateIndexedFields <= v.Keys) then Raised(KeyError) else Ok(valid && DateRowValid(key, v))
  }

  /** `HTMLRecordsDateQueryParser.validate_records`. */
  function ValidateDateQueryRecords(records: Records): Result<bool>
  {
    if exists k :: k in records && CheckDateRows(k, records[k]).Raised? then Raised(KeyError)
    else Ok(forall k :: k in records ==> CheckDateRows(k, records[k]).value)
  }

  ghost predicate DateRowsOk(key: string, rows: seq<Row>)
  {
    forall i :: 0 <= i < |rows| ==> DateIndexedFields <= rows[i].Keys && DateRowValid(key, rows[i])
  }

  lemma {:induction false} CheckDateRowsIff(key: string, rows: seq<Row>)
    ensures CheckDateRows(key, rows).Raised? <==> exists i :: 0 <= i < |rows| && !(DateIndexedFields <= rows[i].Keys)
    ensures CheckDateRows(key, rows) == Ok(true) <==> DateRowsOk(key, rows)
  {
    if |rows| > 0 {
      var init := rows[..|rows| - 1];
      CheckDateRowsIff(key, init);
      assert forall i :: 0 <= i < |init| ==> init[i] == rows[i];
      if CheckDateRows(key, init) == Ok(false) {
        var i :| 0 <= i < |init| && !(DateIndexedFields <= init[i].Keys && DateRowValid(key, init[i]));
        assert !DateRowsOk(key, rows) by { assert rows[i] == init[i]; }
      }
    }
  }

  /** The date-query check raises KeyError exactly when some row lacks one of the
      fields it indexes, and otherwise passes exactly when every row under every key
      carries its own key as Document, a `NN/NN/NNNN` date, a known record type (spaces
      read as underscores), an APN link without spaces and a grantor/grantee code of E or R. */
  lemma ValidateDateQueryRecordsIff(records: Records)
    ensures ValidateDateQueryRecords(records).Raised?
            <==> exists k, i :: k in records && 0 <= i < |records[k]| && !(DateIndexedFields <= records[k][i].Keys)
    ensures ValidateDateQueryRecords(records) == Ok(true)
            <==> forall k :: k in records ==> DateRowsOk(k, records[k])
  {
    forall k | k in records {
      CheckDateRowsIff(k, records[k]);
    }
  }

  /** Rows the date-query parser stores always have their Document, DocType and
      GrantorGrantee, so its check can only raise for a row without an APN link. */
  lemma ParsedDateRecordsRaiseOnlyWithoutLink(records: Records)
    requires WellFormed(DateQuery, records)
    ensures ValidateDateQueryRecords(records).Raised?
            <==> exists k, i :: k in records && 0 <= i < |records[k]| && "APNLink" !in records[k][i]
  {
    ValidateDateQueryRecordsIff(records);
    assert RequiredFields(DateQuery) == {"RecordDate", "Document", "DocType", "GrantorGrantee", "Name"};
    if exists k, i :: k in records && 0 <= i < |records[k]| && "APNLink" !in records[k][i] {
      var k, i :| k in records && 0 <= i < |records[k]| && "APNLink" !in records[k][i];
      assert !(DateIndexedFields <= records[k][i].Keys);
    }
  }

  /** The fields the APN check requires of every row (its parser's column map values). */
  const ApnFields: set<string> := {"Document", "Reel", "Image", "APN"}

  /** The loop over one key's rows: a row missing a field clears the flag, and
      reading its APN for the (log-only) block-lot check raises when it has none. */
  function CheckApnRows(rows: seq<Row>): Result<bool>
  {
    if |rows| == 0 then Ok(true)
    else match CheckApnRows(rows[..|rows| - 1])
      case Raised(e) => Raised(e)
      case Ok(valid) =>
        var v := rows[|rows| - 1];
        if "APN" !in v then Raised(KeyError) else Ok(valid && ApnFields <= v.Keys)
  }

  /** `HTMLRecordsAPNParser.validate_records`: false for a page without records. */
  function ValidateApnRecords(records: Records): Result<bool>
  {
    if exists k :: k in records && CheckApnRows(records[k]).Raised? then Raised(KeyError)
    else Ok(|records| > 0 && forall k :: k in records ==> CheckApnRows(records[k]).value)
  }

  lemma {:induction false} CheckApnRowsIff(rows: seq<Row>)
    ensures CheckApnRows(rows).Raised? <==> exists i :: 0 <= i < |rows| && "APN" !in rows[i]
    ensures CheckApnRows(rows) == Ok(true) <==> forall i :: 0 <= i < |rows| ==> ApnFields <= rows[i].Keys
  {
    if |rows| > 0 {
      var init := rows[..|rows| - 1];
      CheckApnRowsIff(init);
      assert forall i :: 0 <= i < |init| ==> init[i] == rows[i];
      if CheckApnRows(init) == Ok(false) {
        var i :| 0 <= i < |init| && !(ApnFields <= init[i].Keys);
        assert rows[i] == init[i];
      }
    }
  }

  /** The APN check raises exactly when a row has no APN, and otherwise passes exactly
      when there is at least one key and every row has all four fields; whether an
      APN looks like a block and lot never changes the outcome. */
  lemma ValidateApnRecordsIff(records: Records)
    ensures ValidateApnRecords(records).Raised?
            <==> exists k, i :: k in records && 0 <= i < |records[k]| && "APN" !in records[k][i]
    ensures ValidateApnRecords(records) == Ok(true)
            <==> |records| > 0 && forall k, i :: k in records && 0 <= i < |records[k]| ==> ApnFields <= records[k][i].Keys
  {
    forall k | k in records {
      CheckApnRowsIff(records[k]);
    }
    if ValidateApnRecords(records) == Ok(true) {
      forall k, i | k in records && 0 <= i < |records[k]| ensures ApnFields <= records[k][i].Keys {
        CheckApnRowsIff(records[k]);
      }
    }
  }

  /** Whatever the APN parser stores passes its check whenever there is a record. */
  lemma ParsedApnRecordsValidate(records: Records)
    requires WellFormed(ApnQuery, records)
    ensures ValidateApnRecords(records) == Ok(|records| > 0)
  {
    ValidateApnRecordsIff(records);
    assert RequiredFields(ApnQuery) == ApnFields;
  }

  /** With a single key, the whole check is that key's row loop. */
  lemma ValidateSingleKey(key: string, rows: seq<Row>)
    requires CheckDateRows(key, rows).Ok?
    ensures ValidateDateQueryRecords(map[key := rows]) == CheckDateRows(key, rows)
  {
    var records := map[key := rows];
    assert forall k :: k in records ==> k == key && records[k] == rows;
    assert !exists k :: k in records && CheckDateRows(k, records[k]).Raised?;
    if !CheckDateRows(key, rows).value {
      assert key in records && !CheckDateRows(key, records[key]).value;
    }
  }

  /** A typical date-query row. */
  const ExampleRow: Row := map["Document" := "A1-23", "RecordDate" := "01/02/2013", "DocType" := "DEED",
                               "APNLink" := "/cgi-bin/x?y=1", "GrantorGrantee" := "E"]

  lemma ExampleRowPasses()
    ensures CheckDateRows("A1-23", [ExampleRow]) == Ok(true)
  {
    assert ReplaceSpaces("DEED") == "DEED";
    assert MatchesSlashDate("01/02/2013");
    assert |[ExampleRow][..0]| == 0;
  }

  lemma ExampleRowWrongCode()
    ensures CheckDateRows("A1-23", [ExampleRow["GrantorGrantee" := "X"]]) == Ok(false)
  {
    var bad: Row := ExampleRow["GrantorGrantee" := "X"];
    assert bad["GrantorGrantee"] == "X";
    assert |[bad][..0]| == 0;
  }

  /** A typical row passes, and fails once its code is not E or R. */
  lemma DateRowExample()
    ensures ValidateDateQueryRecords(map["A1-23" := [ExampleRow]]) == Ok(true)
    ensures ValidateDateQueryRecords(map["A1-23" := [ExampleRow["GrantorGrantee" := "X"]]]) == Ok(false)
  {
    ExampleRowPasses();
    ExampleRowWrongCode();
    ValidateSingleKey("A1-23", [ExampleRow]);
    ValidateSingleKey("A1-23", [ExampleRow["GrantorGrantee" := "X"]]);
  }
}
