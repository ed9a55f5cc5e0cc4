/** What a normalised record holds, stated row by row, and why repeated rows and
    repeated names collapse. */
module NormalizationFacts {
  import opened PyStrings
  import opened Rows
  import opened RecordsParser
  import opened Normalization

  lemma {:induction false} NamesMembership(rows: seq<Row>, code: string, n: string)
    ensures n in Names(rows, code) <==> exists i :: 0 <= i < |rows| && n in RowNames(rows[i], code)
  {
    if |rows| > 0 {
      var init := rows[..|rows| - 1];
      NamesMembership(init, code, n);
      assert forall i :: 0 <= i < |init| ==> init[i] == rows[i];
    }
  }

  /** Grantees are the `|||` pieces of the non-empty names on rows coded E, and
      grantors those on rows coded R; rows with another code contribute to neither. */
  lemma PartiesIff(key: string, rows: seq<Row>, parcel: Records, n: string)
    requires Normalizable(rows)
    ensures n in NormalizeKey(key, rows, parcel).grantees <==>
            exists i :: 0 <= i < |rows| && Get(rows[i], "Name", "") != "" && Get(rows[i], "GrantorGrantee", "") == "E"
                        && n in Split(rows[i]["Name"], MultilineKey)
    ensures n in NormalizeKey(key, rows, parcel).grantors <==>
            exists i :: 0 <= i < |rows| && Get(rows[i], "Name", "") != "" && Get(rows[i], "GrantorGrantee", "") == "R"
                        && n in Split(rows[i]["Name"], MultilineKey)
  {
    NamesMembership(rows, "E", n);
    NamesMembership(rows, "R", n);
  }

  lemma {:induction false} RowsReelImagesMembership(rows: seq<Row>, x: string)
    ensures x in RowsReelImages(rows) <==> exists i :: 0 <= i < |rows| && x in RowReelImage(rows[i])
  {
    if |rows| > 0 {
      var init := rows[..|rows| - 1];
      RowsReelImagesMembership(init, x);
      assert forall i :: 0 <= i < |init| ==> init[i] == rows[i];
    }
  }

  lemma {:induction false} RowsApnsMembership(rows: seq<Row>, x: string)
    ensures x in RowsApns(rows) <==> exists i :: 0 <= i < |rows| && x in Split(Get(rows[i], "APN", ""), MultilineKey)
  {
    if |rows| > 0 {
      var init := rows[..|rows| - 1];
      RowsApnsMembership(init, x);
      assert forall i :: 0 <= i < |init| ==> init[i] == rows[i];
    }
  }

  lemma ReelImagesOfIff(parcel: Records, x: string)
    ensures x in ReelImagesOf(parcel, parcel.Keys) <==>
            exists k, i :: k in parcel && 0 <= i < |parcel[k]| && x in RowReelImage(parcel[k][i])
  {
    if x in ReelImagesOf(parcel, parcel.Keys) {
      var k :| k in parcel && x in RowsReelImages(parcel[k]);
      RowsReelImagesMembership(parcel[k], x);
    }
    if exists k, i :: k in parcel && 0 <= i < |parcel[k]| && x in RowReelImage(parcel[k][i]) {
      var k, i :| k in parcel && 0 <= i < |parcel[k]| && x in RowReelImage(parcel[k][i]);
      RowsReelImagesMembership(parcel[k], x);
      assert x in RowsReelImages(parcel[k]);
    }
  }

  lemma ApnsOfIff(parcel: Records, x: string)
    ensures x in ApnsOf(parcel, parcel.Keys) <==>
            exists k, i :: k in parcel && 0 <= i < |parcel[k]| && x in Split(Get(parcel[k][i], "APN", ""), MultilineKey)
  {
    if x in ApnsOf(parcel, parcel.Keys) {
      var k :| k in parcel && x in RowsApns(parcel[k]);
      RowsApnsMembership(parcel[k], x);
    }
    if exists k, i :: k in parcel && 0 <= i < |parcel[k]| && x in Split(Get(parcel[k][i], "APN", ""), MultilineKey) {
      var k, i :| k in parcel && 0 <= i < |parcel[k]| && x in Split(Get(parcel[k][i], "APN", ""), MultilineKey);
      RowsApnsMembership(parcel[k], x);
      assert x in RowsApns(parcel[k]);
    }
  }

  /** Every row of the parcel listing counts, under whatever key it was stored: a reel
      and an image that are both non-empty give `reel,image`, and each `|||` piece of its
      APN (of "" when it has none) is a parcel number. */
  lemma ParcelsIff(key: string, rows: seq<Row>, parcel: Records, x: string)
    requires Normalizable(rows)
    ensures x in NormalizeKey(key, rows, parcel).reelImage <==>
            exists k, i :: k in parcel && 0 <= i < |parcel[k]|
                           && Get(parcel[k][i], "Reel", "") != "" && Get(parcel[k][i], "Image", "") != ""
                           && x == Get(parcel[k][i], "Reel", "") + "," + Get(parcel[k][i], "Image", "")
    ensures x in NormalizeKey(key, rows, parcel).apn <==>
            exists k, i :: k in parcel && 0 <= i < |parcel[k]| && x in Split(Get(parcel[k][i], "APN", ""), MultilineKey)
  {
    ReelImagesOfIff(parcel, x);
    ApnsOfIff(parcel, x);
  }

  /** A parcel row without an APN puts the empty parcel number into the record. */
  lemma MissingApnAddsEmpty(key: string, rows: seq<Row>, parcel: Records, k: string, i: int)
    requires Normalizable(rows)
    requires k in parcel && 0 <= i < |parcel[k]| && "APN" !in parcel[k][i]
    ensures "" in NormalizeKey(key, rows, parcel).apn
  {
    SplitWithoutSep("", MultilineKey);
    ParcelsIff(key, rows, parcel, "");
  }

  /** Repeating one of a document's rows changes nothing in its record. */
  lemma DuplicateRowChangesNothing(key: string, rows: seq<Row>, parcel: Records, j: int)
    requires Normalizable(rows) && 0 <= j < |rows|
    ensures NormalizeKey(key, rows + [rows[j]], parcel) == NormalizeKey(key, rows, parcel)
  {
    var more := rows + [rows[j]];
    assert more[..|more| - 1] == rows;
    forall n ensures n in Names(more, "E") <==> n in Names(rows, "E") {
      NamesMembership(rows, "E", n);
    }
    forall n ensures n in Names(more, "R") <==> n in Names(rows, "R") {
      NamesMembership(rows, "R", n);
    }
    assert Setify(Names(more, "E")) == Setify(Names(rows, "E"));
    assert Setify(Names(more, "R")) == Setify(Names(rows, "R"));
  }

  /** A document with a grantor row for Smith and a grantee row for Jones, whose
      parcel listing has reel A100, image 1234 and APN 001-002. */
  const ExampleCommon: Row := map["Document" := "A1-23", "RecordDate" := "01/02/2013",
                                  "DocType" := "DEED", "APNLink" := "/apn?doc=A1-23"]
  const ExampleGrantor: Row := ExampleCommon["GrantorGrantee" := "R"]["Name" := "Smith"]
  const ExampleGrantee: Row := ExampleCommon["GrantorGrantee" := "E"]["Name" := "Jones"]
  const ExampleParcelRow: Row := map["Document" := "A1-23", "Reel" := "A100", "Image" := "1234", "APN" := "001-002"]

  lemma ExampleNames()
    ensures Names([ExampleGrantor, ExampleGrantee], "R") == ["Smith"]
    ensures Names([ExampleGrantor, ExampleGrantee], "E") == ["Jones"]
  {
    var rows := [ExampleGrantor, ExampleGrantee];
    SplitWithoutSep("Smith", MultilineKey);
    SplitWithoutSep("Jones", MultilineKey);
    assert RowNames(ExampleGrantor, "R") == ["Smith"] && RowNames(ExampleGrantor, "E") == [];
    assert RowNames(ExampleGrantee, "E") == ["Jones"] && RowNames(ExampleGrantee, "R") == [];
    assert rows[..1] == [ExampleGrantor] && [ExampleGrantor][..0] == [];
    assert Names([ExampleGrantor], "R") == Names([], "R") + RowNames(ExampleGrantor, "R");
    assert Names([ExampleGrantor], "E") == Names([], "E") + RowNames(ExampleGrantor, "E");
    assert Names(rows, "R") == Names([ExampleGrantor], "R") + RowNames(ExampleGrantee, "R");
    assert Names(rows, "E") == Names([ExampleGrantor], "E") + RowNames(ExampleGrantee, "E");
  }

  lemma ExampleParcels()
    ensures ReelImagesOf(map["A1-23" := [ExampleParcelRow]], {"A1-23"}) == {"A100,1234"}
    ensures ApnsOf(map["A1-23" := [ExampleParcelRow]], {"A1-23"}) == {"001-002"}
  {
    var prow := ExampleParcelRow;
    var parcel := map["A1-23" := [prow]];
    SplitWithoutSep("001-002", MultilineKey);
    assert [prow][..0] == [];
    assert RowReelImage(prow) == ["A100" + "," + "1234"];
    assert "A100" + "," + "1234" == "A100,1234";
    assert RowsReelImages([prow]) == RowsReelImages([]) + RowReelImage(prow);
    assert RowsApns([prow]) == ["001-002"];
    forall x ensures x in ReelImagesOf(parcel, {"A1-23"}) <==> x == "A100,1234" {
      assert x in ReelImagesOf(parcel, {"A1-23"}) <==> x in RowsReelImages(parcel["A1-23"]);
    }
    forall x ensures x in ApnsOf(parcel, {"A1-23"}) <==> x == "001-002" {
      assert x in ApnsOf(parcel, {"A1-23"}) <==> x in RowsApns(parcel["A1-23"]);
    }
  }

  lemma SetifySingle(x: string)
    ensures Setify([x]) == {x}
  {
    assert forall y :: y in Setify([x]) <==> y == x;
  }

  /** The aggregation of that document and listing. */
  lemma AggregatorExample()
    ensures NormalizeKey("A1-23", [ExampleGrantor, ExampleGrantee], map["A1-23" := [ExampleParcelRow]])
            == NormRecord("A1-23", "01/02/2013", "DEED", {"Smith"}, {"Jones"}, {"A100,1234"}, {"001-002"})
  {
    var rows := [ExampleGrantor, ExampleGrantee];
    var parcel := map["A1-23" := [ExampleParcelRow]];
    ExampleNames();
    ExampleParcels();
    SetifySingle("Smith");
    SetifySingle("Jones");
    assert parcel.Keys == {"A1-23"};
    var rec := NormalizeKey("A1-23", rows, parcel);
    assert rows[0]["RecordDate"] == "01/02/2013" && rows[0]["DocType"] == "DEED";
    assert rec.grantors == {"Smith"} && rec.grantees == {"Jones"};
    assert rec.reelImage == {"A100,1234"} && rec.apn == {"001-002"};
  }
}
