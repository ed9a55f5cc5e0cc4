/** The fixed regular expressions of the scrapers, written out by hand with
    Python 2 `re` semantics on byte strings: `\d` is `[0-9]`, `\w` is
    `[A-Za-z0-9_]`, `re.match` anchors at the start only (the pattern need not
    consume the whole string) and `re.search` takes the leftmost match. */
module Patterns {
  import opened Outcome

  predicate IsDigit(c: char) { '0' <= c <= '9' }
  predicate IsUpper(c: char) { 'A' <= c <= 'Z' }
  predicate IsWordChar(c: char) { IsDigit(c) || IsUpper(c) || ('a' <= c <= 'z') || c == '_' }

  predicate AllDigits(s: string) { forall i :: 0 <= i < |s| ==> IsDigit(s[i]) }
  predicate AllWordChars(s: string) { forall i :: 0 <= i < |s| ==> IsWordChar(s[i]) }

  /** Length of the longest prefix of digits (what a greedy `\d+` consumes). */
  function DigitRun(s: string): (n: nat)
    ensures n <= |s| && AllDigits(s[..n])
    ensures n < |s| ==> !IsDigit(s[n])
  {
    if |s| == 0 || !IsDigit(s[0]) then 0
    else
      var n := 1 + DigitRun(s[1..]);
      assert s[..n] == [s[0]] + s[1..][..n - 1];
      n
  }

  /** Length of the longest prefix of word characters (a greedy `[\d\w]+`). */
  function WordRun(s: string): (n: nat)
    ensures n <= |s| && AllWordChars(s[..n])
    ensures n < |s| ==> !IsWordChar(s[n])
  {
    if |s| == 0 || !IsWordChar(s[0]) then 0
    else
      var n := 1 + WordRun(s[1..]);
      assert s[..n] == [s[0]] + s[1..][..n - 1];
      n
  }

  /** `re.match("[A-Z]\d+\-\d{2}", s)`: a Document id such as `A1234-56`. */
  predicate MatchesDocument(s: string)
  {
    && |s| >= 1 && IsUpper(s[0])
    && var n := DigitRun(s[1..]);
       n >= 1 && n + 4 <= |s| && s[n + 1] == '-' && IsDigit(s[n + 2]) && IsDigit(s[n + 3])
  }

  /** `re.match("[\d\w]+\-\d+", s)`: a block-lot parcel number such as `3721-045`. */
  predicate MatchesBlockLot(s: string)
  {
    var n := WordRun(s);
    n >= 1 && n + 2 <= |s| && s[n] == '-' && IsDigit(s[n + 1])
  }

  /** `re.match("[A-Z]\d{2,4}", s)`: a reel such as `B123`; two digits already match. */
  predicate MatchesReel(s: string)
  {
    |s| >= 3 && IsUpper(s[0]) && IsDigit(s[1]) && IsDigit(s[2])
  }

  /** `re.match("\d{4}", s)`: an image number such as `4567`. */
  predicate MatchesImage(s: string)
  {
    |s| >= 4 && AllDigits(s[..4])
  }

  /** The pattern `\d{2}\/\d{2}\/\d{4}` occurs in `s` at index `i`. */
  predicate SlashDateAt(s: string, i: int)
  {
    && 0 <= i && i + 10 <= |s|
    && IsDigit(s[i]) && IsDigit(s[i + 1]) && s[i + 2] == '/'
    && IsDigit(s[i + 3]) && IsDigit(s[i + 4]) && s[i + 5] == '/'
    && AllDigits(s[i + 6..i + 10])
  }

  /** `re.match("\d{2}\/\d{2}\/\d{4}", s)`: the string starts with a `NN/NN/NNNN` date. */
  predicate MatchesSlashDate(s: string)
  {
    SlashDateAt(s, 0)
  }

  /** Where `re.search` finds `\d{2}\/\d{2}\/\d{4}` in `s` at or after `from`. */
  function SearchSlashDate(s: string, from: nat): (r: Option<nat>)
    ensures r.Some? ==> from <= r.value && SlashDateAt(s, r.value)
    ensures r.Some? ==> forall j :: from <= j < r.value ==> !SlashDateAt(s, j)
    ensures r.None? ==> forall j :: from <= j ==> !SlashDateAt(s, j)
    decreases |s| - from
  {
    if from + 10 > |s| then None
    else if SlashDateAt(s, from) then Some(from)
    else SearchSlashDate(s, from + 1)
  }

  /** `re.search("\d{2}\/\d{2}\/(\d{4})", s).group(1)`: the year of the leftmost date in `s`. */
  function SearchYear(s: string): (r: Option<string>)
    ensures r.Some? ==> |r.value| == 4 && AllDigits(r.value)
    ensures r.None? <==> forall j :: !SlashDateAt(s, j)
    ensures r.Some? ==> exists j :: SlashDateAt(s, j) && (forall i :: 0 <= i < j ==> !SlashDateAt(s, i))
                                    && r.value == s[j + 6..j + 10]
  {
    match SearchSlashDate(s, 0)
    case None => None
    case Some(j) => Some(s[j + 6..j + 10])
  }

  /** The backtracking reading of `[A-Z]\d+\-\d{2}`: some split of the digits works. */
  ghost predicate DocumentSplit(s: string, n: int)
  {
    1 <= n && n + 4 <= |s| && IsUpper(s[0]) && AllDigits(s[1..n + 1]) && s[n + 1] == '-'
    && AllDigits(s[n + 2..n + 4])
  }

  /** Greedy matching of the digit run agrees with the regex's backtracking semantics. */
  lemma MatchesDocumentIff(s: string)
    ensures MatchesDocument(s) <==> exists n :: DocumentSplit(s, n)
  {
    if MatchesDocument(s) {
      var n := DigitRun(s[1..]);
      assert s[1..n + 1] == s[1..][..n];
      assert DocumentSplit(s, n);
    }
    if n :| DocumentSplit(s, n) {
      var t := s[1..];
      var k := DigitRun(t);
      assert t[..n] == s[1..n + 1];
      assert k == n;
      assert s[n + 2..n + 4][0] == s[n + 2] && s[n + 2..n + 4][1] == s[n + 3];
    }
  }

  /** The backtracking reading of `[\d\w]+\-\d+`. */
  ghost predicate BlockLotSplit(s: string, n: int, m: int)
  {
    1 <= n && 1 <= m && n + 1 + m <= |s| && AllWordChars(s[..n]) && s[n] == '-'
    && AllDigits(s[n + 1..n + 1 + m])
  }

  /** Greedy matching of the word run agrees with the regex's backtracking semantics. */
  lemma MatchesBlockLotIff(s: string)
    ensures MatchesBlockLot(s) <==> exists n, m :: BlockLotSplit(s, n, m)
  {
    if MatchesBlockLot(s) {
      var n := WordRun(s);
      assert BlockLotSplit(s, n, 1);
    }
    if n, m :| BlockLotSplit(s, n, m) {
      var k := WordRun(s);
      assert k == n;
      assert s[n + 1..n + 1 + m][0] == s[n + 1];
    }
  }
}
