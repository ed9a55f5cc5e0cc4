/** What both parser generations see of a fetched page: the header trimming done
    before parsing, and the tag/attribute/text events HTMLParser delivers. */
module PageInput {
  import opened Outcome
  import opened PyStrings

  /** An attribute as HTMLParser reports it; a bare attribute has no value. */
  datatype Attr = Attr(name: string, value: Option<string>)

  /** The callbacks HTMLParser makes while tokenising a page. */
  datatype Event =
    | StartTag(tag: string, attrs: seq<Attr>)
    | EndTag(tag: string)
    | Text(text: string)

  /** `get_attribute`: the value of the first attribute with the given name, or
      None when there is none (a bare attribute's missing value reads as None too). */
  function GetAttribute(attrs: seq<Attr>, attribute: string): (r: Option<string>)
    ensures (forall i :: 0 <= i < |attrs| ==> attrs[i].name != attribute) ==> r == None
    ensures forall i :: 0 <= i < |attrs| && attrs[i].name == attribute
                        && (forall j :: 0 <= j < i ==> attrs[j].name != attribute)
                        ==> r == attrs[i].value
  {
    if |attrs| == 0 then None
    else if attrs[0].name == attribute then attrs[0].value
    else GetAttribute(attrs[1..], attribute)
  }

  /** The two cases the test suite pins for `get_attribute`. */
  lemma GetAttributeExamples()
    ensures GetAttribute([], "r") == None
    ensures GetAttribute([Attr("a", Some("b")), Attr("c", Some("d")), Attr("e", Some("f"))], "c") == Some("d")
  {
  }

  /** The line that opens the page body; everything before it is broken header markup. */
  const BodyMarker: string := "<body "

  predicate HasBodyMarker(line: string)
  {
    Contains(line, BodyMarker)
  }

  /** The index of the first line holding the body marker. */
  function FirstBodyLine(lines: seq<string>): (r: Option<nat>)
    ensures r.Some? ==> r.value < |lines| && HasBodyMarker(lines[r.value])
    ensures r.Some? ==> forall j :: 0 <= j < r.value ==> !HasBodyMarker(lines[j])
    ensures r.None? ==> forall j :: 0 <= j < |lines| ==> !HasBodyMarker(lines[j])
  {
    if |lines| == 0 then None
    else if HasBodyMarker(lines[0]) then Some(0)
    else match FirstBodyLine(lines[1..])
      case None => None
      case Some(k) => Some(k + 1)
  }

  /** Every line followed by a newline. */
  function ConcatLines(lines: seq<string>): string
  {
    if |lines| == 0 then "" else ConcatLines(lines[..|lines| - 1]) + lines[|lines| - 1] + "\n"
  }

  /** Python's `page.split("\n")`. */
  function PageLines(page: string): seq<string>
  {
    Split(page, "\n")
  }

  /** The text handed to HTMLParser: `<html>` and a newline, then every line from the
      first one holding the body marker on, each with a newline; empty when no line
      holds the marker. */
  function TrimmedPage(page: string): string
  {
    TrimmedLines(PageLines(page))
  }

  function TrimmedLines(lines: seq<string>): string
  {
    match FirstBodyLine(lines)
    case None => ""
    case Some(k) => "<html>\n" + ConcatLines(lines[k..])
  }

  /** Nothing reaches the parser exactly when no line holds the body marker; otherwise
      the text starts with `<html>`, then the first body line, and ends in a newline. */
  lemma TrimmedPageShape(page: string)
    ensures TrimmedPage(page) == "" <==> forall i :: 0 <= i < |PageLines(page)| ==> !HasBodyMarker(PageLines(page)[i])
    ensures TrimmedPage(page) != "" ==>
              && TrimmedPage(page)[|TrimmedPage(page)| - 1] == '\n'
              && exists k :: 0 <= k < |PageLines(page)| && HasBodyMarker(PageLines(page)[k])
                   && (forall j :: 0 <= j < k ==> !HasBodyMarker(PageLines(page)[j]))
                   && "<html>\n" + PageLines(page)[k] + "\n" <= TrimmedPage(page)
  {
    var lines := PageLines(page);
    match FirstBodyLine(lines)
    case None =>
    case Some(k) =>
      ConcatLinesHead(lines[k..]);
      assert lines[k..][0] == lines[k];
  }

  /** Concatenated lines start with the first line and its newline. */
  lemma {:induction false} ConcatLinesHead(lines: seq<string>)
    requires |lines| > 0
    ensures |ConcatLines(lines)| >= |lines[0]| + 1
    ensures lines[0] + "\n" <= ConcatLines(lines)
    ensures ConcatLines(lines)[|ConcatLines(lines)| - 1] == '\n'
  {
    if |lines| > 1 {
      ConcatLinesHead(lines[..|lines| - 1]);
      assert lines[..|lines| - 1][0] == lines[0];
    }
  }

  /** The header-dropping loop of `feed` (and of the older `parse_datequery_record_list`). */
  method TrimHeader(page: string) returns (trimmed: string)
    ensures trimmed == TrimmedPage(page)
  {
    trimmed := TrimLines(PageLines(page));
  }

  method TrimLines(lines: seq<string>) returns (trimmed: string)
    ensures trimmed == TrimmedLines(lines)
  {
    trimmed := "";
    var i := 0;
    ghost var first: Option<nat> := None;
    while i < |lines|
      invariant Trimming(lines, i, first, trimmed)
      decreases |lines| - i
    {
      var line := lines[i];
      if |trimmed| == 0 {
        if !HasBodyMarker(line) {
          TrimSkip(lines, i, first, trimmed);
          i := i + 1;
          continue;
        }
        TrimStart(lines, i, first, trimmed);
        first := Some(i);
        trimmed := "<html>\n";
      } else {
        TrimContinue(lines, i, first, trimmed);
      }
      trimmed := trimmed + line + "\n";
      i := i + 1;
    }
    TrimDone(lines, i, first, trimmed);
  }

  /** The invariant of the line loop: `trimmed` is the trimmed text of the first `i` lines. */
  ghost predicate Trimming(lines: seq<string>, i: nat, first: Option<nat>, trimmed: string)
  {
    && i <= |lines|
    && first == FirstBodyLine(lines[..i])
    && (first.None? ==> trimmed == "")
    && (first.Some? ==> first.value < i && trimmed == "<html>\n" + ConcatLines(lines[first.value..i]))
  }

  /** A line before the body marker is dropped. */
  lemma TrimSkip(lines: seq<string>, i: nat, first: Option<nat>, trimmed: string)
    requires i < |lines| && Trimming(lines, i, first, trimmed) && |trimmed| == 0 && !HasBodyMarker(lines[i])
    ensures Trimming(lines, i + 1, first, trimmed)
  {
    FirstBodyLinePrefix(lines, i);
  }

  /** The first line holding the body marker starts the kept text. */
  lemma TrimStart(lines: seq<string>, i: nat, first: Option<nat>, trimmed: string)
    requires i < |lines| && Trimming(lines, i, first, trimmed) && |trimmed| == 0 && HasBodyMarker(lines[i])
    ensures Trimming(lines, i + 1, Some(i), "<html>\n" + lines[i] + "\n")
  {
    FirstBodyLinePrefix(lines, i);
    ConcatLinesStep(lines, i, i);
  }

  /** Every later line is kept. */
  lemma TrimContinue(lines: seq<string>, i: nat, first: Option<nat>, trimmed: string)
    requires i < |lines| && Trimming(lines, i, first, trimmed) && |trimmed| != 0
    ensures first.Some? && Trimming(lines, i + 1, first, trimmed + lines[i] + "\n")
  {
    FirstBodyLinePrefix(lines, i);
    ConcatLinesStep(lines, first.value, i);
  }

  lemma TrimDone(lines: seq<string>, i: nat, first: Option<nat>, trimmed: string)
    requires Trimming(lines, i, first, trimmed) && i >= |lines|
    ensures trimmed == TrimmedLines(lines)
  {
    assert lines[..i] == lines;
  }

  lemma ConcatLinesStep(lines: seq<string>, k: nat, i: nat)
    requires k <= i < |lines|
    ensures ConcatLines(lines[k..i + 1]) == ConcatLines(lines[k..i]) + lines[i] + "\n"
  {
    assert lines[k..i + 1][..i - k] == lines[k..i];
  }

  /** How the first body line of a prefix changes when the prefix grows by one line. */
  lemma FirstBodyLinePrefix(lines: seq<string>, i: nat)
    requires i < |lines|
    ensures FirstBodyLine(lines[..i + 1]) ==
      if FirstBodyLine(lines[..i]).Some? then FirstBodyLine(lines[..i])
      else if HasBodyMarker(lines[i]) then Some(i) else None
  {
    var a, b := lines[..i], lines[..i + 1];
    assert forall j :: 0 <= j < i ==> a[j] == b[j];
    assert b[i] == lines[i];
  }
}
