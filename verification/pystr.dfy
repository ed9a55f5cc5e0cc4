/** Python 2 string operations used by the scrapers: clamped slicing, substring
    search, `str.split(sep)` and `sep.join(chunks)`. */
module PyStrings {
  import opened Outcome

  /** `s[i:j]` for non-negative bounds: Python clamps both bounds to the string. */
  function Slice(s: string, i: nat, j: nat): (r: string)
    ensures i <= j <= |s| ==> r == s[i..j]
    ensures |s| <= i ==> r == ""
  {
    var hi := if j <= |s| then j else |s|;
    if i < hi then s[i..hi] else ""
  }

  /** Does `sep` occur in `s` starting exactly at index `j`? */
  predicate OccursAt(s: string, sep: string, j: int)
  {
    0 <= j && j + |sep| <= |s| && s[j..j + |sep|] == sep
  }

  /** `s.find(sep, from)`: the first index at or after `from` where `sep` occurs. */
  function Find(s: string, sep: string, from: nat): (r: Option<nat>)
    requires |sep| > 0
    ensures r.Some? ==> from <= r.value && OccursAt(s, sep, r.value)
    ensures r.Some? ==> forall j :: from <= j < r.value ==> !OccursAt(s, sep, j)
    ensures r.None? ==> forall j :: from <= j ==> !OccursAt(s, sep, j)
    decreases |s| - from
  {
    if from + |sep| > |s| then None
    else if s[from..from + |sep|] == sep then Some(from)
    else Find(s, sep, from + 1)
  }

  /** Python's `sep in s`. */
  predicate Contains(s: string, sep: string)
    requires |sep| > 0
  {
    Find(s, sep, 0).Some?
  }

  /** Python's `s.split(sep)` for a non-empty separator: cut at every
      non-overlapping occurrence, scanning left to right. */
  function Split(s: string, sep: string): (r: seq<string>)
    requires |sep| > 0
    ensures |r| >= 1
    decreases |s|
  {
    match Find(s, sep, 0)
    case None => [s]
    case Some(i) => [s[..i]] + Split(s[i + |sep|..], sep)
  }

  /** A string without the separator's first character splits into itself. */
  lemma SplitWithoutSep(s: string, sep: string)
    requires |sep| > 0 && sep[0] !in s
    ensures !Contains(s, sep) && Split(s, sep) == [s]
  {
  }

  /** Python's `sep.join(chunks)`. */
  function Join(chunks: seq<string>, sep: string): string
  {
    if |chunks| == 0 then ""
    else if |chunks| == 1 then chunks[0]
    else chunks[0] + sep + Join(chunks[1..], sep)
  }

  /** No non-empty tail of `c` followed by a head of `sep` spells `sep`: joining
      `c` with `sep` does not create an earlier occurrence of `sep`. */
  ghost predicate NoStraddle(c: string, sep: string)
  {
    forall m :: !StraddlesAt(c, sep, m)
  }

  /** The last `m` characters of `c` followed by the first `|sep| - m` of `sep` spell `sep`. */
  predicate StraddlesAt(c: string, sep: string, m: int)
  {
    0 < m < |sep| && m <= |c| && c[|c| - m..] + sep[..|sep| - m] == sep
  }

  /** The chunks can be joined with `sep` and split back apart. */
  ghost predicate Separable(chunks: seq<string>, sep: string)
    requires |sep| > 0
  {
    && (forall i :: 0 <= i < |chunks| ==> !Contains(chunks[i], sep))
    && (forall i :: 0 <= i < |chunks| - 1 ==> NoStraddle(chunks[i], sep))
  }

  /** Splitting a joined field on the separator gives back the chunks. */
  lemma {:induction false} SplitJoin(chunks: seq<string>, sep: string)
    requires |sep| > 0 && |chunks| >= 1
    requires Separable(chunks, sep)
    ensures Split(Join(chunks, sep), sep) == chunks
    decreases |chunks|
  {
    var c := chunks[0];
    if |chunks| == 1 {
      assert !Contains(c, sep);
    } else {
      var rest := Join(chunks[1..], sep);
      var s := c + sep + rest;
      assert Join(chunks, sep) == s;
      assert OccursAt(s, sep, |c|) by {
        assert s[|c|..|c| + |sep|] == sep;
      }
      forall j | 0 <= j < |c|
        ensures !OccursAt(s, sep, j)
      {
        if j + |sep| <= |c| {
          assert s[j..j + |sep|] == c[j..j + |sep|];
          assert !OccursAt(c, sep, j) by { assert !Contains(c, sep); }
        } else {
          var m := |c| - j;
          assert s[j..j + |sep|] == c[|c| - m..] + sep[..|sep| - m];
          assert !StraddlesAt(c, sep, m);
        }
      }
      assert Find(s, sep, 0) == Some(|c|);
      assert s[..|c|] == c;
      assert s[|c| + |sep|..] == rest;
      assert Separable(chunks[1..], sep) by {
        forall i | 0 <= i < |chunks[1..]| ensures !Contains(chunks[1..][i], sep) {
          assert chunks[1..][i] == chunks[i + 1];
        }
        forall i | 0 <= i < |chunks[1..]| - 1 ensures NoStraddle(chunks[1..][i], sep) {
          assert chunks[1..][i] == chunks[i + 1];
        }
      }
      SplitJoin(chunks[1..], sep);
    }
  }

  /** For the `|||` separator the straddle condition is just "does not end in `|`". */
  lemma PipeStraddle(c: string)
    requires c == [] || c[|c| - 1] != '|'
    ensures NoStraddle(c, "|||")
  {
    forall m
      ensures !StraddlesAt(c, "|||", m)
    {
      if 0 < m < 3 && m <= |c| {
        var t := c[|c| - m..] + "|||"[..3 - m];
        assert t[m - 1] == c[|c| - 1];
      }
    }
  }

  /** A single-character separator never straddles. */
  lemma OneCharNoStraddle(c: string, sep: string)
    requires |sep| == 1
    ensures NoStraddle(c, sep)
  {
  }

  /** "No chunk contains `|||`" alone does not make the join reversible:
      `["a|", "b"]` joins to `a||||b`, which splits as `["a", "|b"]`. */
  lemma PipeSuffixBreaksRoundTrip()
    ensures !Contains("a|", "|||") && !Contains("b", "|||")
    ensures Join(["a|", "b"], "|||") == "a||||b"
    ensures Split("a||||b", "|||") == ["a", "|b"]
  {
    assert Find("a|", "|||", 0) == None;
    assert Find("b", "|||", 0) == None;
    assert "a||||b"[1..4] == "|||";
    assert "a||||b"[0] == 'a';
    assert "a||||b"[0..3] != "|||";
    assert "|b"[0..] == "|b";
    assert Find("a||||b", "|||", 0) == Some(1);
    assert "a||||b"[4..] == "|b";
    assert "a||||b"[..1] == "a";
    assert Find("|b", "|||", 0) == None;
    assert Split("|b", "|||") == ["|b"];
    assert Split("a||||b", "|||") == ["a"] + Split("|b", "|||");
  }
}
