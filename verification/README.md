# deedscraper — a Dafny model of the record extraction core

deedscraper pulls property-deed filings out of a legacy web service that only
serves human-oriented HTML tables. It turns them into normalised records keyed
by document number. This project models the part that does the real work. Each
module below is written in the same style as its source: pure code becomes
functions, and code that changes state step by step becomes methods and classes.

- **The newer table parser** (`RecordsParser`, recordScraperLib.py).
  - Class `HTMLRecordsParser` keeps the parser's fields: `inRecordsTable`, `column`, `inFont`, the accumulator `data`, `records` and the APN parser's sniff buffer.
  - One `schema` constant stands for the two subclasses: the date query and the APN query.
  - Each handler method is proved equal to a pure transition on a `ParserState` value.
  - On `</tr>` a row is promoted all or nothing. Its chunks are joined with the triple-bar separator `|||`, and it is stored under its Document value.
  - When the APN parser's row is incomplete, the fields are sniffed out of the row's text tokens (`Sniffing`, `Patterns`). This includes the ValueError that `list.remove(year)` raises.
  - `feed` strips the page header (`PageInput.TrimHeader`) before tokenising.
- **The two `validate_records` checks** (`RecordsValidation`).
  - Both are folds over every row with no short-circuit.
  - A row that lacks a field the check reads with `row[...]` raises KeyError.
- **The aggregation loop of `fetch_records_for_daterange`** (`Normalization`).
  - It builds one record per usable document: grantors and grantees from the `|||` pieces of the names, plus reel/image pairs and parcel numbers from every row of the document's parcel listing.
  - The four collections are deduplicated.
- **The older parser of deedScraperLib.py** (`DeedParser`).
  - A row-group is emitted only when captured text next appears in column 0. Its chunks are joined with newlines.
  - There is no flush on `</tr>` and none in `get_records`, so a page's last group is never emitted.
- **The script helpers** (`Dates`, `CommandLine`).
  - The inclusive day range written `MMDDYYYY`. A range ending on 9999-12-31 raises OverflowError, because the loop steps one day past `date.max`.
  - The per-day output file name and its `_BAD_READ` marker.
  - The argument checks of both scripts. A malformed range in either script goes through `raise Exception(..., arvg[1])`. The misspelt `arvg` raises NameError instead, which is also caught and ends in the same usage exit.

Python exceptions are values: `Outcome.Result` is either `Ok(value)` or `Raised(error)`.

## Model

| member | source | states |
|---|---|---|
| PyStrings.SplitJoin | recordScraperLib.py:336-341 | Splitting a field joined with the triple-bar separator gives back its chunks when no chunk contains the separator and no chunk but the last ends inside a separator prefix |
| PyStrings.PipeSuffixBreaksRoundTrip | recordScraperLib.py:339-340 | The chunks `a` plus one bar, and `b`, contain no separator, yet joining and splitting them gives `a`, and one bar plus `b` |
| PyStrings.PipeStraddle | recordScraperLib.py:339-340 | For the triple bar, a chunk that does not end in a bar cannot form a separator with the chunk joined after it |
| PyStrings.SplitWithoutSep | recordScraperLib.py:75 | A string without the separator's first character does not contain it and splits into just itself |
| Patterns.MatchesDocumentIff | recordScraperLib.py:480 | The greedy check for `[A-Z]\d+\-\d{2}` at the start of a token holds exactly when some split of the token matches the regular expression |
| Patterns.MatchesBlockLotIff | recordScraperLib.py:481 | The greedy check for `[\d\w]+\-\d+` holds exactly when some split of the token matches the regular expression |
| Patterns.SearchSlashDate | recordScraperLib.py:472 | `re.search` for `\d{2}/\d{2}/\d{4}` finds the leftmost position where the pattern occurs, and finds none when it occurs nowhere |
| Patterns.SearchYear | recordScraperLib.py:472-474 | None exactly when no `NN/NN/NNNN` date occurs. Otherwise the four digits after the second slash of the leftmost date |
| PageInput.GetAttribute | recordScraperLib.py:290-295 | Returns None when no attribute has the name, otherwise the value of the first one that has it |
| PageInput.GetAttributeExamples | testRecordScraper.py:34-38 | The empty list gives None; `c` in `[(a,b),(c,d),(e,f)]` gives `d` |
| PageInput.FirstBodyLine | recordScraperLib.py:282-286 | Finds the first line holding `<body `, and none when no line holds it |
| PageInput.TrimHeader | recordScraperLib.py:279-287 | The line loop computes the trimmed page: `<html>` and a newline, then every line from the first `<body ` line on, each followed by a newline |
| PageInput.TrimLines | recordScraperLib.py:282-287 | Nothing is kept before the first line holding `<body `. From that line on, every line is kept with a newline after `<html>` and a newline |
| PageInput.TrimmedPageShape | recordScraperLib.py:279-287 | The trimmed page is empty exactly when no line holds `<body `; otherwise it starts with `<html>`, a newline, the first such line and a newline, and ends in a newline |
| Rows.AddChunk | recordScraperLib.py:320-327 | Captured text is appended to its field's chunk list, creating the list if needed; other fields are untouched |
| Rows.JoinAccumulator | recordScraperLib.py:336-341 | Every field's chunks are joined with the separator, and the loop runs once per field |
| Sniffing.FirstRule | recordScraperLib.py:485-492 | A token goes to the first pattern in Document, APN, Reel, Image order that matches it, and to none when none matches |
| Sniffing.FindYear | recordScraperLib.py:470-474 | The loop keeps the year of the last token that holds a date |
| Sniffing.SniffYearFound | recordScraperLib.py:470-474 | The year is non-empty exactly when some token holds a date |
| Sniffing.SniffYearIsLastDate | recordScraperLib.py:470-474 | A non-empty year is the year of a token after which no token holds a date |
| Sniffing.RemoveFirst | recordScraperLib.py:475-476 | `list.remove` raises ValueError exactly when the value is absent. Otherwise it drops the first element equal to the value, and the rest keep their order |
| Sniffing.ClassifyTokens | recordScraperLib.py:485-492 | The classification loop computes the sniffed fields of the remaining tokens |
| Sniffing.SniffData | recordScraperLib.py:462-493 | The sniff drops the year, raising when it is not a whole token, and then classifies the rest |
| Sniffing.SniffedFieldsClaimed | recordScraperLib.py:466-492 | Image and Reel are always present; Document and APN are present exactly when some token is claimed by them; each field holds its claimed tokens in order |
| Sniffing.ClaimedPartition | recordScraperLib.py:485-492 | The four fields and the unmatched tokens together hold each token exactly as often as the tokens do, as multisets |
| Sniffing.ClaimedCount | recordScraperLib.py:485-492 | The four fields and the unmatched tokens together are exactly as many as the tokens |
| Sniffing.ClaimedByFirstRule | recordScraperLib.py:478-492 | A token in a field matches that field's pattern and none of the earlier patterns |
| Sniffing.ClaimedClassified | recordScraperLib.py:485-492 | A token stored in a field is classified as that field |
| Sniffing.ClassifyDocumentExample | recordScraperLib.py:480-481 | `A1234-56` also matches the APN pattern, but goes to Document because Document is tried first |
| Sniffing.ClassifyApnExample | recordScraperLib.py:481 | `12-34-56-7` goes to APN |
| Sniffing.ClassifyReelExample | recordScraperLib.py:482 | `B123` goes to Reel |
| Sniffing.ClassifyImageExample | recordScraperLib.py:483 | `4567` goes to Image |
| RecordsParser.RequiredFields | recordScraperLib.py:359-427 | The fields a row needs are the column map's values: date, document, type, grantor/grantee code and name for the date query; document, reel, image and APN for the APN query |
| RecordsParser.HTMLRecordsParser.constructor | recordScraperLib.py:264-273 | A new parser is outside the table at column -1, not in a font, and holds no data, records or sniff tokens |
| RecordsParser.HTMLRecordsParser.HandleStartTag | recordScraperLib.py:297-376 | A records table resets the column, `tr` resets it, `td` advances it, and a font without a colour starts capture. In the date query, an anchor with an href at column 1 of the table then sets the APN link to that one href |
| RecordsParser.HTMLRecordsParser.HandleEndTag | recordScraperLib.py:308-314 | Closing the table leaves it, `</tr>` in the table flushes, `</font>` ends capture |
| RecordsParser.HTMLRecordsParser.HandleData | recordScraperLib.py:320-450 | Text in the table and a font at a mapped column is appended to that field. The APN parser also keeps every non-empty text token of the table for sniffing |
| RecordsParser.HTMLRecordsParser.BaseFlushDataToRecords | recordScraperLib.py:329-349 | Returns True exactly when every required field is present; the state becomes the all-or-nothing promotion |
| RecordsParser.HTMLRecordsParser.FlushDataToRecords | recordScraperLib.py:452-495 | The APN parser sniffs an incomplete row first; a raise leaves the state as it was |
| RecordsParser.HTMLRecordsParser.GetRecords | recordScraperLib.py:352-355 | Performs the final flush, then returns the records |
| RecordsParser.HTMLRecordsParser.Feed | recordScraperLib.py:276-288 | Empties data and records, trims the page, and handles its events in order until one raises |
| RecordsParser.RunStopsAtRaise | recordScraperLib.py:288 | Once a handler raises, the events after it change nothing |
| RecordsParserFacts.FlushAllOrNothing | recordScraperLib.py:329-349 | A flush always empties the accumulator; it changes the records exactly when every required field is present; it never removes a stored row |
| RecordsParserFacts.PromotedRowSplitsBack | recordScraperLib.py:336-347 | A promoted row has the accumulator's fields, and each field splits back into its chunks. With Document joined first, the row is appended once per field after the rows already under its Document value |
| RecordsParserFacts.BaseFlushWellFormed | recordScraperLib.py:329-349 | With Document joined first, a flush keeps every stored row complete and under its own Document value |
| RecordsParserFacts.SingleChunkOrderIrrelevant | recordScraperLib.py:336-347 | When Document has one chunk, the join loop gives the same records in every order of the fields as with Document first |
| RecordsParserFacts.SplitDocumentBreaksWellFormed | recordScraperLib.py:336-347 | When Document has several chunks and another field is joined first, the row is stored under Document's first chunk, which differs from its joined Document value, so the records are not well formed |
| RecordsParserFacts.FlushWellFormed | recordScraperLib.py:452-495 | With Document joined first, the same holds for the APN parser's sniffing flush |
| RecordsParserFacts.OnlyRowEndFlushes | recordScraperLib.py:308-314 | Only `</tr>` inside the records table changes the records |
| RecordsParserFacts.RunWellFormed | recordScraperLib.py:276-288 | With Document joined first in every flush, handling any sequence of events keeps the records well formed |
| RecordsParserFacts.FeedWellFormed | recordScraperLib.py:276-288 | With Document joined first in every flush, after any page every stored row is complete and under its own Document value |
| RecordsParserFacts.DataNeverOverwritten | recordScraperLib.py:320-327 | Text never removes or shortens a field's chunks; it changes the accumulator exactly when captured at a mapped column, and never the records |
| RecordsParserFacts.ApnFlushRaisesIff | recordScraperLib.py:456-494 | The APN flush raises exactly when the row is incomplete and the sniffed year is not itself a token; the buffer is emptied whenever it does not raise |
| RecordsParserFacts.ApnSniffPromotesIff | recordScraperLib.py:462-495 | After sniffing, the row is promoted exactly when some token was claimed as a Document and some as an APN |
| RecordsParserFacts.GetRecordsIdempotent | recordScraperLib.py:352-355 | A second `get_records` changes nothing |
| RecordsValidation.ReplaceSpaces | recordScraperLib.py:400 | Every space becomes an underscore and every other character stays |
| RecordsValidation.CheckDateRowsIff | recordScraperLib.py:383-411 | The row loop raises exactly when a row lacks an indexed field, and passes exactly when every row passes every check |
| RecordsValidation.ValidateDateQueryRecordsIff | recordScraperLib.py:380-413 | Raises KeyError exactly when a row lacks Document, DocType, APNLink or GrantorGrantee. Otherwise true exactly when every row has: its own key as Document; a `NN/NN/NNNN` date; a known record type, with spaces read as underscores; a link without spaces; code E or R |
| RecordsValidation.ParsedDateRecordsRaiseOnlyWithoutLink | recordScraperLib.py:405 | On the date parser's own output, the check can only raise for a row that has no APN link |
| RecordsValidation.DateRowExample | recordScraperLib.py:380-413 | A well-formed row passes, and the same row with code X fails |
| RecordsValidation.CheckApnRowsIff | recordScraperLib.py:436-444 | The row loop raises exactly when a row has no APN, and passes exactly when every row has all four fields |
| RecordsValidation.ValidateApnRecordsIff | recordScraperLib.py:430-445 | Raises KeyError exactly when a row has no APN; otherwise true exactly when there is a record and every row has all four fields; the block-lot pattern never matters |
| RecordsValidation.ParsedApnRecordsValidate | recordScraperLib.py:430-445 | The APN parser's own output passes whenever it is non-empty |
| Normalization.CollectNames | recordScraperLib.py:72-79 | The row loop collects the triple-bar pieces of non-empty names, as grantees for code E and grantors for code R |
| Normalization.ScanParcelRows | recordScraperLib.py:108-115 | Each parcel row adds `reel,image` when both are non-empty, and the pieces of its APN, or `""` when it has none |
| Normalization.CollectParcels | recordScraperLib.py:104-118 | The loop over the parcel keys gathers the reel/image pairs and parcel numbers of every row under every key |
| Normalization.NormalizeOne | recordScraperLib.py:59-119 | One document's record: date and type from its first row, names from all rows, parcels from the listing behind its link; raises exactly when that listing's parse raises |
| Normalization.NormalizeRecords | recordScraperLib.py:48-120 | Raises exactly when the parcel parse of some usable document raises. Otherwise there is one record per usable document, none for skipped ones, no id twice, and each record is built from its document's rows and listing |
| NormalizationFacts.NamesMembership | recordScraperLib.py:72-79 | A name is collected exactly when some row contributes it |
| NormalizationFacts.PartiesIff | recordScraperLib.py:72-81 | A grantee is exactly a piece of a non-empty name on a row coded E; a grantor is one on a row coded R |
| NormalizationFacts.RowsReelImagesMembership | recordScraperLib.py:110-113 | A reel/image pair is collected exactly when some row has it |
| NormalizationFacts.RowsApnsMembership | recordScraperLib.py:114-115 | A parcel number is collected exactly when it is a piece of some row's APN |
| NormalizationFacts.ReelImagesOfIff | recordScraperLib.py:104-113 | A reel/image pair is collected exactly when some row under some key of the listing has it |
| NormalizationFacts.ApnsOfIff | recordScraperLib.py:104-115 | A parcel number is collected exactly when it is a piece of the APN of some row under some key of the listing |
| NormalizationFacts.ParcelsIff | recordScraperLib.py:104-118 | Reel/image pairs and parcel numbers come from every row of the listing, whichever key it is under, including a mismatched one |
| NormalizationFacts.MissingApnAddsEmpty | recordScraperLib.py:114-115 | A parcel row without an APN puts `""` among the parcel numbers |
| NormalizationFacts.DuplicateRowChangesNothing | recordScraperLib.py:80-81 | Repeating one of a document's rows leaves its record unchanged |
| NormalizationFacts.ExampleNames | recordScraperLib.py:72-79 | A grantor row for Smith and a grantee row for Jones give grantors Smith and grantees Jones |
| NormalizationFacts.ExampleParcels | recordScraperLib.py:104-118 | A listing row with reel A100, image 1234 and APN 001-002 gives `A100,1234` and `001-002` |
| NormalizationFacts.AggregatorExample | recordScraperLib.py:48-120 | Together these give the record A1-23 with grantors {Smith}, grantees {Jones}, reel/image {A100,1234} and APN {001-002} |
| DeedParser.DeedColumnToField | deedScraperLib.py:161-185 | Column 0 is mapped in neither of the old column maps |
| DeedParser.DeedRecordsParser.constructor | deedScraperLib.py:90-98 | A new parser is outside the table at record and column -1, with nothing accumulated or stored |
| DeedParser.DeedRecordsParser.HandleStartTag | deedScraperLib.py:107-175 | A records table resets record and column, `tr` advances the record and resets the column, `td` advances the column, a font without a colour starts capture. In the date query, an anchor with an href at column 1 of the table then sets the APN link |
| DeedParser.DeedRecordsParser.HandleEndTag | deedScraperLib.py:120-124 | Only closing the table and `</font>` change anything |
| DeedParser.DeedRecordsParser.HandleData | deedScraperLib.py:130-151 | Text in column 0 first emits the group if it has a Document and empties it; text at a mapped column is appended to its field |
| DeedParser.DeedRecordsParser.GetRecords | deedScraperLib.py:154-155 | Returns the stored records without flushing |
| DeedParser.ParseDatequeryRecordList | deedScraperLib.py:74-86 | Trims the page as `feed` does, feeds it to a new date-query parser and returns its records |
| DeedParserFacts.OnlyColumnZeroTextEmits | deedScraperLib.py:133-145 | Rows are emitted only by captured text in column 0 with a Document present, and exactly one newline-joined row is then appended under its Document. Captured column-0 text empties the accumulator whether or not a row is emitted |
| DeedParserFacts.EmittedRowSplitsBack | deedScraperLib.py:136-139 | Each emitted field splits back on newlines into its chunks when no chunk contains a newline |
| DeedParserFacts.CaptureAppends | deedScraperLib.py:146-151 | Text at a mapped column other than 0 is appended to its field and nothing else changes |
| DeedParserFacts.AnchorSetsLink | deedScraperLib.py:170-175 | The anchor replaces any earlier APN link with a one-element list; the APN parser ignores anchors |
| DeedParserFacts.EndTagsKeepGroup | deedScraperLib.py:120-124 | No closing tag, `</tr>` included, emits anything or touches the accumulator |
| DeedParserFacts.DeedApplyWellFormed | deedScraperLib.py:130-151 | Every event keeps each stored row under its own Document value |
| DeedParserFacts.DeedRunWellFormed | deedScraperLib.py:130-151 | The same holds for any sequence of events |
| DeedParserFacts.ParsedDateRecordsWellFormed | deedScraperLib.py:74-86 | Every row the old date-list parse returns sits under its own Document value |
| DeedParserFacts.LastGroupNeverEmitted | deedScraperLib.py:153-155 | A one-row table captures its Document, but no later column-0 text comes, so the records stay empty |
| Dates.ParseDigitsOfDigits | recordScraper.py:48-51 | Reading a zero-padded number back gives the number when it fits the width |
| Dates.DigitsOfParseDigits | recordScraper.py:39-44 | A digit string read as a number and padded to its width gives the string back |
| Dates.OrdinalOrder | recordScraper.py:47 | Comparing two valid dates is comparing their day numbers, and they are equal exactly when their day numbers are |
| Dates.SuccOrdinal | recordScraper.py:52 | Adding one day to a valid date before 9999-12-31 gives a valid date one day number later |
| Dates.AddDaysOrdinal | recordScraper.py:46-52 | Adding n days within range gives a valid date n day numbers later |
| Dates.DayStringsAt | recordScraper.py:48-51 | The i-th entry is the start plus i days, written `MMDDYYYY` |
| Dates.ExpandDatesToMmddyyyyList | recordScraper.py:37-53 | The loop returns the inclusive range of days, or OverflowError for a non-empty range ending on 9999-12-31 |
| Dates.ExpandedDatesShape | recordScraper.py:46-53 | The result has the inclusive day count of entries. The i-th entry is the start plus i days, a valid day within the range, written as eight digits |
| Dates.ExpandedDatesEmpty | recordScraper.py:47 | A start after the end gives the empty list |
| Dates.ExpandedDatesSingle | recordScraper.py:46-53 | A start equal to the end gives exactly that day |
| Dates.FormatMmddyyyyParses | recordScraper.py:48-51 | The written day reads back as month, day and year |
| Dates.ExpandedSingleDayExample | testRecordScraper.py:12-17 | `20130102` to `20130102` gives `01022013` |
| Dates.ExpandedYearEndExample | testRecordScraper.py:19-26 | `20121231` to `20130102` gives `12312012`, `01012013`, `01022013` |
| Dates.OutputFilenameExample | testRecordScraper.py:28-31 | `outpath`, `prefix`, `01022013` give `outpath/prefix_20130102.json` |
| Dates.FormatAsReordered | recordScraper.py:39-51 | A valid `YYYYMMDD` day written `MMDDYYYY` is the same string with the year moved to the end |
| Dates.FilenameRoundTrip | recordScraper.py:55-60 | Expanding a valid single day and naming its file gives `path/prefix_YYYYMMDD.json` with the same `YYYYMMDD` |
| Dates.TombstoneIsNoOutputFile | recordScraper.py:82-83 | A failed day's `_BAD_READ` name is never the name of a day's output file |
| CommandLine.RecordArgsAccepted | recordScraper.py:18-33 | Accepted exactly with four entries or more, a 17-character range with a colon at index 8, and a known record type. The two returned dates are 8 characters and rejoin into the range |
| CommandLine.RecordArgsRoundTrip | recordScraper.py:33 | Two 8-character dates, a record type and a path parse back into themselves |
| CommandLine.DeedArgsShape | deedScraper.py:30-52 | Accepted exactly with two entries or more, a well-shaped range and, with exactly three entries, a throttle that parses. The dates are the two halves reordered to `MMDDYYYY`, and the throttle is 200 otherwise |
| CommandLine.DeedDatesAgreeWithExpansion | deedScraper.py:42-43 | For two valid days, the old script's dates are the strings the newer script's expansion writes for them |

## Left out

- The HTTP callers (the `CRIISCaller` classes of both libraries) and their retry, back-off and sleep loops are not modelled: network I/O. The date-range page's records are an input, and the parcel listing behind a link is the parameter `parcels`.
- Normalization.NormalizeRecords: the fetch of a parcel listing is left out. Its retry counter is never incremented (recordScraperLib.py:87-98), so the fetch retries without bound, and a fetch that keeps failing never returns. `parcels` does not represent that non-termination.
- Normalization.NormalizeRecords: every listing is parsed by one reused APN parser, and its `feed` resets only `data` and `records` (recordScraperLib.py:21, 100-101, 277-278). The position flags `in_records_table`, `column` and `in_font` therefore carry over from one listing to the next, and so does HTMLParser's own buffer of unfinished input. The model does not capture this: `parcels` gives each link's listing independently of the order of documents. A listing that leaves its table or a font open can change how the next listing parses, so two documents with the same link can get different parcels in the code but never in the model.
- The `main` functions (output files, JSON encoding, timing), `write_data` (CSV output), `print`, `usage` text and all logging are not modelled: they are I/O. So is the logging side effect of constructing `DSException`.
- HTMLParser's own tokenising becomes the parameter `lex`, which maps the trimmed page to tag and text events. An empty trimmed page gives no events. Errors HTMLParser itself raises are not modelled.
- The `re` engine is replaced by hand-written checks for the fixed patterns used.
- Dates.ExpandDatesToMmddyyyyList: it requires both arguments to be eight digits naming a valid day. Python's `int` would also accept signs and spaces, and `datetime.date` raises ValueError for an invalid day.
- CommandLine.ParseDeedArgs: Python's `float` becomes the parameter `parseFloat`, and the throttle is a `real`.
- RecordsParser.BaseFlush: the per-field join loop (recordScraperLib.py:336-347) takes the fields in dict order, which depends on CPython's string hashes and is not modelled. The loop reads the Document value again after each field. Until Document itself is joined, that value is still a list, and the row is appended under its first chunk.
  - `BaseFlush`, and the class method `BaseFlushDataToRecords` that follows it, join Document first. So every append goes under the joined Document value.
  - `BaseFlushInOrder` models the loop in any given order. `SingleChunkOrderIrrelevant` proves that every order gives `BaseFlush` when Document has a single chunk.
  - When Document has several chunks and another field comes first, the code stores the row under both the first chunk and the joined value. `SplitDocumentBreaksWellFormed` proves that the records are then not well formed. The date check at recordScraperLib.py:384 reports exactly this mismatch.
  - RecordsParserFacts.BaseFlushWellFormed, FlushWellFormed, RunWellFormed and FeedWellFormed therefore hold for the code only when Document is joined first or has a single chunk. So does the statement of PromotedRowSplitsBack that the row sits after the rows already under its Document value. The older parser reads the key after its loop (deedScraperLib.py:140) and is not affected.
  - The appended row is modelled as a value. In the code the same dict object is appended once per field and ends fully joined, which is what the model stores.
- The output order of `NormalizeRecords` is not modelled. It takes the date-range keys in an arbitrary order, and it keeps the four collections of a record as sets, because `list(set(...))` fixes no order.
- The test files' HTML-fixture tests are not modelled, because the fixture pages are not part of this model.
