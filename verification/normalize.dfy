/** The aggregation in `fetch_records_for_daterange`: each usable document of a
    date-range listing becomes one normalised record, merged with the parcel listing
    fetched from the document's APN link. Fetching and parsing that listing is the
    parameter `parcels`: it maps an APN link to what the parcel parser's `get_records`
    returns for the page behind it, including the ValueError its sniffing may raise.
    The parse is taken as the same for a link whichever document asks for it: the
    reused parser's position flags, which carry from one listing to the next, are
    not modelled. */
module Normalization {
  import opened Outcome
  import opened PyStrings
  import opened Rows
  import opened RecordsParser

  /** A normalised record; `list(set(...))` makes the four collections duplicate-free,
      in no particular order, so they are sets here. */
  datatype NormRecord = NormRecord(
    id: string, date: string, doctype: string,
    grantors: set<string>, grantees: set<string>,
    reelImage: set<string>, apn: set<string>)

  function Setify(s: seq<string>): (r: set<string>)
    ensures forall x :: x in r <==> x in s
  {
    set x | x in s
  }

  /** A key is skipped when it has no rows or its first row lacks RecordDate, DocType or APNLink. */
  predicate Normalizable(rows: seq<Row>)
  {
    |rows| > 0 && "RecordDate" in rows[0] && "DocType" in rows[0] && "APNLink" in rows[0]
  }

  /** The names a row contributes under grantor/grantee code `code`. */
  function RowNames(row: Row, code: string): seq<string>
  {
    if Get(row, "Name", "") != "" && Get(row, "GrantorGrantee", "") == code
    then Split(row["Name"], MultilineKey) else []
  }

  /** The names the row loop collects under `code`, in order. */
  function Names(rows: seq<Row>, code: string): seq<string>
  {
    if |rows| == 0 then [] else Names(rows[..|rows| - 1], code) + RowNames(rows[|rows| - 1], code)
  }

  /** What one parcel row adds to the reel/image list. */
  function RowReelImage(row: Row): seq<string>
  {
    var reel := Get(row, "Reel", "");
    var image := Get(row, "Image", "");
    if reel != "" && image != "" then [reel + "," + image] else []
  }

  function RowsReelImages(rows: seq<Row>): seq<string>
  {
    if |rows| == 0 then [] else RowsReelImages(rows[..|rows| - 1]) + RowReelImage(rows[|rows| - 1])
  }

  /** Every parcel row adds the pieces of its APN; a row without one adds "". */
  function RowsApns(rows: seq<Row>): seq<string>
  {
    if |rows| == 0 then [] else RowsApns(rows[..|rows| - 1]) + Split(Get(rows[|rows| - 1], "APN", ""), MultilineKey)
  }

  /** The reel/image tokens of the rows under the given keys of a parcel listing. */
  function ReelImagesOf(parcel: Records, keys: set<string>): set<string>
  {
    set k, x | k in keys && k in parcel && x in RowsReelImages(parcel[k]) :: x
  }

  function ApnsOf(parcel: Records, keys: set<string>): set<string>
  {
    set k, x | k in keys && k in parcel && x in RowsApns(parcel[k]) :: x
  }

  function Link(rows: seq<Row>): string
    requires Normalizable(rows)
  {
    rows[0]["APNLink"]
  }

  /** The record built for `key`; every parcel key counts, matching the document or not. */
  function NormalizeKey(key: string, rows: seq<Row>, parcel: Records): NormRecord
    requires Normalizable(rows)
  {
    NormRecord(key, rows[0]["RecordDate"], rows[0]["DocType"],
               Setify(Names(rows, "R")), Setify(Names(rows, "E")),
               ReelImagesOf(parcel, parcel.Keys), ApnsOf(parcel, parcel.Keys))
  }

  /** The grantor/grantee loop over one key's rows. */
  method CollectNames(rows: seq<Row>) returns (grantors: seq<string>, grantees: seq<string>)
    ensures grantors == Names(rows, "R") && grantees == Names(rows, "E")
  {
    grantors, grantees := [], [];
    for i := 0 to |rows|
      invariant grantors == Names(rows[..i], "R") && grantees == Names(rows[..i], "E")
    {
      assert rows[..i + 1][..i] == rows[..i];
      var row := rows[i];
      if Get(row, "Name", "") != "" {
        var names := Split(row["Name"], MultilineKey);
        if Get(row, "GrantorGrantee", "") == "E" {
          grantees := grantees + names;
        } else if Get(row, "GrantorGrantee", "") == "R" {
          grantors := grantors + names;
        }
      }
    }
    assert rows[..|rows|] == rows;
  }

  /** The loop over one parcel key's rows. */
  method ScanParcelRows(rows: seq<Row>) returns (reelImage: seq<string>, apn: seq<string>)
    ensures reelImage == RowsReelImages(rows) && apn == RowsApns(rows)
  {
    reelImage, apn := [], [];
    for i := 0 to |rows|
      invariant reelImage == RowsReelImages(rows[..i]) && apn == RowsApns(rows[..i])
    {
      assert rows[..i + 1][..i] == rows[..i];
      var reel := Get(rows[i], "Reel", "");
      var image := Get(rows[i], "Image", "");
      if reel != "" && image != "" {
        reelImage := reelImage + [reel + "," + image];
      }
      apn := apn + Split(Get(rows[i], "APN", ""), MultilineKey);
    }
    assert rows[..|rows|] == rows;
  }

  /** The loop over every key of a parcel listing. */
  method CollectParcels(parcel: Records) returns (reelImage: seq<string>, apn: seq<string>)
    ensures Setify(reelImage) == ReelImagesOf(parcel, parcel.Keys)
    ensures Setify(apn) == ApnsOf(parcel, parcel.Keys)
  {
    reelImage, apn := [], [];
    var pending := parcel.Keys;
    ghost var done: set<string> := {};
    while pending != {}
      invariant pending + done == parcel.Keys && pending !! done
      invariant Setify(reelImage) == ReelImagesOf(parcel, done)
      invariant Setify(apn) == ApnsOf(parcel, done)
      decreases |pending|
    {
      var k :| k in pending;
      var ri, ap := ScanParcelRows(parcel[k]);
      reelImage := reelImage + ri;
      apn := apn + ap;
      pending := pending - {k};
      done := done + {k};
    }
  }

  /** The loop body for one usable key: names, then the parcel listing behind its APN link. */
  method NormalizeOne(joinkey: string, rows: seq<Row>, parcels: string -> Result<Records>) returns (r: Result<NormRecord>)
    requires Normalizable(rows)
    ensures r.Raised? <==> parcels(Link(rows)).Raised?
    ensures r.Ok? ==> r.value == NormalizeKey(joinkey, rows, parcels(Link(rows)).value)
  {
    var grantors, grantees := CollectNames(rows);
    var fetched := parcels(rows[0]["APNLink"]);
    if fetched.Raised? {
      return Raised(fetched.error);
    }
    var reelImage, apn := CollectParcels(fetched.value);
    return Ok(NormRecord(joinkey, rows[0]["RecordDate"], rows[0]["DocType"],
                         Setify(grantors), Setify(grantees), Setify(reelImage), Setify(apn)));
  }

  /** A key of the date-range listing that the loop turns into a record. */
  predicate Usable(denorm: Records, k: string)
  {
    k in denorm && Normalizable(denorm[k])
  }

  /** `rec` is the record built for its own id, whose parcel listing parsed without a raise. */
  predicate Produced(denorm: Records, parcels: string -> Result<Records>, rec: NormRecord)
  {
    Usable(denorm, rec.id) && parcels(Link(denorm[rec.id])).Ok?
    && rec == NormalizeKey(rec.id, denorm[rec.id], parcels(Link(denorm[rec.id])).value)
  }

  predicate HasRecordFor(out: seq<NormRecord>, k: string)
  {
    exists i :: 0 <= i < |out| && out[i].id == k
  }

  /** The loop invariant: `out` holds one record for each usable key in `done`, and nothing else. */
  predicate Covers(denorm: Records, parcels: string -> Result<Records>, done: set<string>, out: seq<NormRecord>)
  {
    && (forall k :: k in done && Usable(denorm, k) ==> parcels(Link(denorm[k])).Ok? && HasRecordFor(out, k))
    && (forall i :: 0 <= i < |out| ==> out[i].id in done && Produced(denorm, parcels, out[i]))
    && (forall i, j :: 0 <= i < j < |out| ==> out[i].id != out[j].id)
  }

  lemma CoversSkip(denorm: Records, parcels: string -> Result<Records>, done: set<string>, out: seq<NormRecord>, k: string)
    requires Covers(denorm, parcels, done, out) && !Usable(denorm, k)
    ensures Covers(denorm, parcels, done + {k}, out)
  {
  }

  lemma CoversAppend(denorm: Records, parcels: string -> Result<Records>, done: set<string>, out: seq<NormRecord>, record: NormRecord)
    requires Covers(denorm, parcels, done, out) && record.id !in done
    requires Produced(denorm, parcels, record)
    ensures Covers(denorm, parcels, done + {record.id}, out + [record])
  {
    var after := out + [record];
    assert HasRecordFor(after, record.id) by { assert after[|out|].id == record.id; }
    forall k | k in done && Usable(denorm, k) ensures HasRecordFor(after, k) {
      var i :| 0 <= i < |out| && out[i].id == k;
      assert after[i] == out[i];
    }
  }

  /** Once every key is done, the invariant is the method's promise. */
  lemma CoversComplete(denorm: Records, parcels: string -> Result<Records>, out: seq<NormRecord>)
    requires Covers(denorm, parcels, denorm.Keys, out)
    ensures !exists k :: Usable(denorm, k) && parcels(Link(denorm[k])).Raised?
    ensures forall i :: 0 <= i < |out| ==> Produced(denorm, parcels, out[i])
    ensures forall k :: Usable(denorm, k) ==> HasRecordFor(out, k)
    ensures forall i, j :: 0 <= i < j < |out| ==> out[i].id != out[j].id
  {
  }

  /** The normalisation loop over the date-range records: a ValueError from the parcel
      parser ends it; otherwise it yields one record per usable key, each once. */
  method NormalizeRecords(denorm: Records, parcels: string -> Result<Records>) returns (r: Result<seq<NormRecord>>)
    ensures r.Raised? <==> exists k :: Usable(denorm, k) && parcels(Link(denorm[k])).Raised?
    ensures r.Ok? ==> forall i :: 0 <= i < |r.value| ==> Produced(denorm, parcels, r.value[i])
    ensures r.Ok? ==> forall k :: Usable(denorm, k) ==> HasRecordFor(r.value, k)
    ensures r.Ok? ==> forall i, j :: 0 <= i < j < |r.value| ==> r.value[i].id != r.value[j].id
  {
    var out: seq<NormRecord> := [];
    var pending := denorm.Keys;
    ghost var done: set<string> := {};
    while pending != {}
      invariant pending + done == denorm.Keys && pending !! done
      invariant Covers(denorm, parcels, done, out)
      decreases pending
    {
      var joinkey :| joinkey in pending;
      if Normalizable(denorm[joinkey]) {
        var made := NormalizeOne(joinkey, denorm[joinkey], parcels);
        if made.Raised? {
          assert Usable(denorm, joinkey) && parcels(Link(denorm[joinkey])).Raised?;
          return Raised(made.error);
        }
        CoversAppend(denorm, parcels, done, out, made.value);
        out := out + [made.value];
      } else {
        CoversSkip(denorm, parcels, done, out, joinkey);
      }
      pending := pending - {joinkey};
      done := done + {joinkey};
    }
    CoversComplete(denorm, parcels, out);
    return Ok(out);
  }
}
