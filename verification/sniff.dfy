/** The APN parser's fallback for pages whose cells lack the font markup: every
    loose text token seen in the table is handed to the first of four ordered
    patterns, after the year of the page's date has been thrown out. */
module Sniffing {
  import opened Outcome
  import opened Patterns
  import opened Rows

  /** The rules in the order they are tried, most restrictive first. */
  const RuleFields: seq<string> := ["Document", "APN", "Reel", "Image"]

  predicate MatchesRule(rule: nat, token: string)
  {
    if rule == 0 then MatchesDocument(token)
    else if rule == 1 then MatchesBlockLot(token)
    else if rule == 2 then MatchesReel(token)
    else if rule == 3 then MatchesImage(token)
    else false
  }

  /** The first rule at or after `from` that the token matches. */
  function FirstRule(token: string, from: nat): (r: Option<nat>)
    ensures r.Some? ==> from <= r.value < 4 && MatchesRule(r.value, token)
    ensures r.Some? ==> forall j :: from <= j < r.value ==> !MatchesRule(j, token)
    ensures r.None? ==> forall j :: from <= j ==> !MatchesRule(j, token)
    decreases 4 - from
  {
    if from >= 4 then None
    else if MatchesRule(from, token) then Some(from)
    else FirstRule(token, from + 1)
  }

  /** The field a token is given to, if any. */
  function Classify(token: string): Option<string>
  {
    match FirstRule(token, 0)
    case None => None
    case Some(k) => Some(RuleFields[k])
  }

  /** The year of the last token holding a `NN/NN/NNNN` date, or "" when none does. */
  function SniffYear(tokens: seq<string>): string
  {
    if |tokens| == 0 then ""
    else match SearchYear(tokens[|tokens| - 1])
      case Some(y) => y
      case None => SniffYear(tokens[..|tokens| - 1])
  }

  /** The index of the first element equal to `x`. */
  function FirstIndex(tokens: seq<string>, x: string): (i: nat)
    requires x in tokens
    ensures i < |tokens| && tokens[i] == x && x !in tokens[..i]
  {
    if tokens[0] == x then 0
    else
      var i := 1 + FirstIndex(tokens[1..], x);
      assert tokens[..i] == [tokens[0]] + tokens[1..][..i - 1];
      i
  }

  /** `list.remove(x)`: drop the first element equal to `x`; ValueError when there is none. */
  function RemoveFirst(tokens: seq<string>, x: string): (r: Result<seq<string>>)
    ensures r.Raised? <==> x !in tokens
    ensures r.Raised? ==> r.error == ValueError
    ensures r.Ok? ==> |r.value| == |tokens| - 1 && multiset(r.value) == multiset(tokens) - multiset{x}
    ensures r.Ok? ==> exists i :: 0 <= i < |tokens| && tokens[i] == x && x !in tokens[..i]
                                 && r.value == tokens[..i] + tokens[i + 1..]
  {
    if x !in tokens then Raised(ValueError)
    else
      var i := FirstIndex(tokens, x);
      assert tokens == tokens[..i] + [x] + tokens[i + 1..];
      Ok(tokens[..i] + tokens[i + 1..])
  }

  /** The accumulator rebuilt from the tokens: Reel and Image always present, each
      token appended to the field of the first rule it matches, others dropped. */
  function SniffedFields(tokens: seq<string>): Accum
  {
    if |tokens| == 0 then map["Image" := [], "Reel" := []]
    else
      var m := SniffedFields(tokens[..|tokens| - 1]);
      var t := tokens[|tokens| - 1];
      match Classify(t)
      case None => m
      case Some(f) => AddChunk(m, f, t)
  }

  /** The tokens a field claims, in page order: an independent reading of SniffedFields. */
  function Claimed(tokens: seq<string>, field: string): seq<string>
  {
    if |tokens| == 0 then []
    else Claimed(tokens[..|tokens| - 1], field)
         + (if Classify(tokens[|tokens| - 1]) == Some(field) then [tokens[|tokens| - 1]] else [])
  }

  /** The tokens no rule matches. */
  function Unclaimed(tokens: seq<string>): seq<string>
  {
    if |tokens| == 0 then []
    else Unclaimed(tokens[..|tokens| - 1])
         + (if Classify(tokens[|tokens| - 1]).None? then [tokens[|tokens| - 1]] else [])
  }

  /** Find the year and remove the first token equal to it; ValueError when no
      token equals it. Without a year the tokens are kept as they are. */
  function DropYear(tokens: seq<string>): Result<seq<string>>
  {
    var year := SniffYear(tokens);
    if year == "" then Ok(tokens) else RemoveFirst(tokens, year)
  }

  /** The whole sniff: drop the year, then classify what is left. */
  function Sniff(tokens: seq<string>): Result<Accum>
  {
    match DropYear(tokens)
    case Raised(e) => Raised(e)
    case Ok(rest) => Ok(SniffedFields(rest))
  }

  /** The sniffing loops of the APN parser's flush. */
  method SniffData(tokens: seq<string>) returns (r: Result<Accum>)
    ensures r == Sniff(tokens)
  {
    var year := FindYear(tokens);
    var rest := tokens;
    if year != "" {
      var removed := RemoveFirst(tokens, year);
      if removed.Raised? {
        return Raised(removed.error);
      }
      rest := removed.value;
    }
    var newdata := ClassifyTokens(rest);
    r := Ok(newdata);
  }

  /** The year loop: every token holding a date overwrites the year found so far. */
  method FindYear(tokens: seq<string>) returns (year: string)
    ensures year == SniffYear(tokens)
  {
    year := "";
    var i := 0;
    while i < |tokens|
      invariant 0 <= i <= |tokens|
      invariant year == SniffYear(tokens[..i])
    {
      assert tokens[..i + 1][..i] == tokens[..i];
      match SearchYear(tokens[i]) {
        case Some(y) => year := y;
        case None =>
      }
      i := i + 1;
    }
    assert tokens[..i] == tokens;
  }

  /** The classification loop: each token goes to the first rule it matches. */
  method ClassifyTokens(tokens: seq<string>) returns (newdata: Accum)
    ensures newdata == SniffedFields(tokens)
  {
    newdata := map["Image" := [], "Reel" := []];
    var i := 0;
    while i < |tokens|
      invariant 0 <= i <= |tokens|
      invariant newdata == SniffedFields(tokens[..i])
    {
      var value := tokens[i];
      assert tokens[..i + 1][..i] == tokens[..i];
      var k := 0;
      while k < |RuleFields|
        invariant 0 <= k <= 4
        invariant FirstRule(value, 0) == FirstRule(value, k)
      {
        if MatchesRule(k, value) {
          newdata := AddChunk(newdata, RuleFields[k], value);
          break;
        }
        k := k + 1;
      }
      i := i + 1;
    }
    assert tokens[..i] == tokens;
  }

  /** SniffedFields agrees with Claimed: each of the four fields holds exactly the
      tokens whose first matching rule is its own, in order; Reel and Image are always
      present and Document and APN only when some token was claimed for them. */
  lemma {:induction false} SniffedFieldsClaimed(tokens: seq<string>)
    ensures SniffedFields(tokens).Keys
            == {"Image", "Reel"} + (set f | f in RuleFields && Claimed(tokens, f) != [])
    ensures forall f :: f in SniffedFields(tokens) ==> SniffedFields(tokens)[f] == Claimed(tokens, f)
  {
    if |tokens| > 0 {
      var init := tokens[..|tokens| - 1];
      SniffedFieldsClaimed(init);
      var t := tokens[|tokens| - 1];
      match FirstRule(t, 0)
      case None =>
      case Some(k) =>
        assert Classify(t) == Some(RuleFields[k]);
    }
  }

  /** Document and APN are sniffed exactly when some token claims them. */
  lemma SniffedFieldPresent(tokens: seq<string>, k: nat)
    requires k < 2
    ensures RuleFields[k] in SniffedFields(tokens) <==> Claimed(tokens, RuleFields[k]) != []
  {
    SniffedFieldsClaimed(tokens);
    assert RuleFields[k] in RuleFields;
    assert RuleFields[k] != "Image" && RuleFields[k] != "Reel";
  }

  /** No token is claimed twice and none is lost: the four claimed lists and the
      unclaimed tokens together hold each token exactly as often as the tokens do. */
  lemma {:induction false} ClaimedPartition(tokens: seq<string>)
    ensures multiset(Claimed(tokens, "Document")) + multiset(Claimed(tokens, "APN"))
            + multiset(Claimed(tokens, "Reel")) + multiset(Claimed(tokens, "Image"))
            + multiset(Unclaimed(tokens)) == multiset(tokens)
  {
    var d, a, r, m, u := Claimed(tokens, "Document"), Claimed(tokens, "APN"), Claimed(tokens, "Reel"),
                         Claimed(tokens, "Image"), Unclaimed(tokens);
    assert multiset(d) + multiset(a) + multiset(r) + multiset(m) + multiset(u) == multiset(tokens) by {
      if |tokens| > 0 {
        var init, t := tokens[..|tokens| - 1], tokens[|tokens| - 1];
        ClaimedPartition(init);
        ClaimedLast(tokens, "Document");
        ClaimedLast(tokens, "APN");
        ClaimedLast(tokens, "Reel");
        ClaimedLast(tokens, "Image");
        ClassifiedOnce(t);
        assert multiset(tokens) == multiset(init) + multiset{t} by {
          assert tokens == init + [t];
        }
        PartitionStep(multiset(d), multiset(a), multiset(r), multiset(m), multiset(u),
                      multiset(Claimed(init, "Document")), multiset(Claimed(init, "APN")), multiset(Claimed(init, "Reel")),
                      multiset(Claimed(init, "Image")), multiset(Unclaimed(init)),
                      Own(t, Some("Document")), Own(t, Some("APN")), Own(t, Some("Reel")), Own(t, Some("Image")), Own(t, None),
                      multiset(init), multiset{t});
      }
    }
  }

  /** So the four claimed lists and the unclaimed tokens are exactly as many as the tokens. */
  lemma ClaimedCount(tokens: seq<string>)
    ensures |Claimed(tokens, "Document")| + |Claimed(tokens, "APN")| + |Claimed(tokens, "Reel")|
            + |Claimed(tokens, "Image")| + |Unclaimed(tokens)| == |tokens|
  {
    ClaimedPartition(tokens);
    PartitionSizes(Claimed(tokens, "Document"), Claimed(tokens, "APN"), Claimed(tokens, "Reel"),
                   Claimed(tokens, "Image"), Unclaimed(tokens), tokens);
  }

  /** Sequences whose multisets add up to another's have lengths that add up to its length. */
  lemma PartitionSizes<T>(d: seq<T>, a: seq<T>, r: seq<T>, m: seq<T>, u: seq<T>, whole: seq<T>)
    requires multiset(d) + multiset(a) + multiset(r) + multiset(m) + multiset(u) == multiset(whole)
    ensures |d| + |a| + |r| + |m| + |u| == |whole|
  {
    assert |multiset(d) + multiset(a) + multiset(r) + multiset(m) + multiset(u)| == |multiset(whole)|;
  }

  /** Adding one part to each of five partition blocks adds their sum to the whole. */
  lemma PartitionStep<T>(d: multiset<T>, a: multiset<T>, r: multiset<T>, m: multiset<T>, u: multiset<T>,
                         d0: multiset<T>, a0: multiset<T>, r0: multiset<T>, m0: multiset<T>, u0: multiset<T>,
                         dd: multiset<T>, da: multiset<T>, dr: multiset<T>, dm: multiset<T>, du: multiset<T>,
                         whole0: multiset<T>, added: multiset<T>)
    requires d == d0 + dd && a == a0 + da && r == r0 + dr && m == m0 + dm && u == u0 + du
    requires d0 + a0 + r0 + m0 + u0 == whole0
    requires dd + da + dr + dm + du == added
    ensures d + a + r + m + u == whole0 + added
  {
  }

  /** The token itself when it is classified as `c`, nothing otherwise. */
  function Own(t: string, c: Option<string>): multiset<string>
  {
    if Classify(t) == c then multiset{t} else multiset{}
  }

  /** The last token adds itself to the list of its own field and to no other. */
  lemma ClaimedLast(tokens: seq<string>, field: string)
    requires |tokens| > 0
    ensures var init, t := tokens[..|tokens| - 1], tokens[|tokens| - 1];
            && multiset(Claimed(tokens, field)) == multiset(Claimed(init, field)) + Own(t, Some(field))
            && multiset(Unclaimed(tokens)) == multiset(Unclaimed(init)) + Own(t, None)
  {
  }

  /** A token goes to exactly one of the four fields or stays unclaimed. */
  lemma ClassifiedOnce(t: string)
    ensures Own(t, Some("Document")) + Own(t, Some("APN")) + Own(t, Some("Reel")) + Own(t, Some("Image"))
            + Own(t, None) == multiset{t}
  {
    match FirstRule(t, 0)
    case None =>
    case Some(k) =>
      assert Classify(t) == Some(RuleFields[k]);
  }

  /** A claimed token matches its own rule and none of the rules tried before it. */
  lemma ClaimedByFirstRule(tokens: seq<string>, k: nat, t: string)
    requires k < 4 && t in Claimed(tokens, RuleFields[k])
    ensures MatchesRule(k, t) && forall j :: 0 <= j < k ==> !MatchesRule(j, t)
  {
    ClaimedClassified(tokens, RuleFields[k], t);
    var r := FirstRule(t, 0);
    assert r.Some? && RuleFields[r.value] == RuleFields[k];
  }

  lemma {:induction false} ClaimedClassified(tokens: seq<string>, f: string, t: string)
    requires t in Claimed(tokens, f)
    ensures Classify(t) == Some(f)
  {
    if |tokens| > 0 {
      var init := tokens[..|tokens| - 1];
      if t in Claimed(init, f) {
        ClaimedClassified(init, f, t);
      }
    }
  }

  /** The year is non-empty exactly when some token holds a date. */
  lemma {:induction false} SniffYearFound(tokens: seq<string>)
    ensures SniffYear(tokens) != "" <==> exists i :: 0 <= i < |tokens| && SearchYear(tokens[i]).Some?
  {
    if |tokens| > 0 {
      var n := |tokens| - 1;
      var init := tokens[..n];
      SniffYearFound(init);
      assert forall i :: 0 <= i < n ==> init[i] == tokens[i];
      match SearchYear(tokens[n])
      case Some(y) =>
        assert SniffYear(tokens) == y && |y| == 4;
      case None =>
        assert SniffYear(tokens) == SniffYear(init);
    }
  }

  /** A non-empty year comes from the last token that holds a date. */
  lemma {:induction false} SniffYearIsLastDate(tokens: seq<string>)
    ensures SniffYear(tokens) != "" ==>
              exists i :: 0 <= i < |tokens| && SearchYear(tokens[i]) == Some(SniffYear(tokens))
                          && forall j :: i < j < |tokens| ==> SearchYear(tokens[j]).None?
  {
    if |tokens| > 0 && SniffYear(tokens) != "" {
      var n := |tokens| - 1;
      var init := tokens[..n];
      match SearchYear(tokens[n])
      case Some(y) =>
        assert SearchYear(tokens[n]) == Some(SniffYear(tokens));
      case None =>
        SniffYearIsLastDate(init);
        var i :| 0 <= i < n && SearchYear(init[i]) == Some(SniffYear(init))
                 && forall j :: i < j < n ==> SearchYear(init[j]).None?;
        LastDateExtends(tokens, i);
    }
  }

  /** A last dated token of all but the final token stays the last one when the final
      token holds no date. */
  lemma LastDateExtends(tokens: seq<string>, i: nat)
    requires |tokens| > 0 && SearchYear(tokens[|tokens| - 1]).None?
    requires var init := tokens[..|tokens| - 1];
             && i < |init| && SearchYear(init[i]) == Some(SniffYear(init))
             && forall j :: i < j < |init| ==> SearchYear(init[j]).None?
    ensures SearchYear(tokens[i]) == Some(SniffYear(tokens))
    ensures forall j :: i < j < |tokens| ==> SearchYear(tokens[j]).None?
  {
    var n := |tokens| - 1;
    var init := tokens[..n];
    assert SniffYear(tokens) == SniffYear(init);
    assert init[i] == tokens[i];
    forall j | i < j < |tokens| ensures SearchYear(tokens[j]).None? {
      if j < n {
        assert init[j] == tokens[j];
      }
    }
  }


  /** Four typical tokens go to their four fields, in rule order:
      `A1234-56` also fits the block-lot rule but the Document rule is tried first. */
  lemma ClassifyDocumentExample()
    ensures MatchesBlockLot("A1234-56")
    ensures Classify("A1234-56") == Some("Document")
  {
    assert DigitRun("4-56") == 1 by { assert "4-56"[1..] == "-56"; }
    assert DigitRun("34-56") == 2 by { assert "34-56"[1..] == "4-56"; }
    assert DigitRun("234-56") == 3 by { assert "234-56"[1..] == "34-56"; }
    assert DigitRun("1234-56") == 4 by { assert "1234-56"[1..] == "234-56"; }
    assert "A1234-56"[1..] == "1234-56";
    assert MatchesDocument("A1234-56");
    assert WordRun("4-56") == 1 by { assert "4-56"[1..] == "-56"; }
    assert WordRun("34-56") == 2 by { assert "34-56"[1..] == "4-56"; }
    assert WordRun("234-56") == 3 by { assert "234-56"[1..] == "34-56"; }
    assert WordRun("1234-56") == 4 by { assert "1234-56"[1..] == "234-56"; }
    assert WordRun("A1234-56") == 5;
  }

  lemma ClassifyApnExample()
    ensures Classify("12-34-56-7") == Some("APN")
  {
    assert WordRun("2-34-56-7") == 1 by { assert "2-34-56-7"[1..] == "-34-56-7"; }
    assert WordRun("12-34-56-7") == 2 by { assert "12-34-56-7"[1..] == "2-34-56-7"; }
    assert !MatchesDocument("12-34-56-7");
    assert MatchesBlockLot("12-34-56-7");
  }

  lemma ClassifyReelExample()
    ensures Classify("B123") == Some("Reel")
  {
    assert DigitRun("3") == 1 by { assert "3"[1..] == ""; }
    assert DigitRun("23") == 2 by { assert "23"[1..] == "3"; }
    assert DigitRun("123") == 3 by { assert "123"[1..] == "23"; }
    assert "B123"[1..] == "123";
    assert !MatchesDocument("B123");
    assert WordRun("3") == 1 by { assert "3"[1..] == ""; }
    assert WordRun("23") == 2 by { assert "23"[1..] == "3"; }
    assert WordRun("123") == 3 by { assert "123"[1..] == "23"; }
    assert WordRun("B123") == 4 by { assert "B123"[1..] == "123"; }
    assert !MatchesBlockLot("B123");
    assert MatchesReel("B123");
  }

  lemma ClassifyImageExample()
    ensures Classify("4567") == Some("Image")
  {
    assert WordRun("7") == 1 by { assert "7"[1..] == ""; }
    assert WordRun("67") == 2 by { assert "67"[1..] == "7"; }
    assert WordRun("567") == 3 by { assert "567"[1..] == "67"; }
    assert WordRun("4567") == 4 by { assert "4567"[1..] == "567"; }
    assert !MatchesBlockLot("4567");
    assert !MatchesDocument("4567");
    assert !MatchesReel("4567");
    assert "4567"[..4] == "4567";
    assert MatchesImage("4567");
  }
}
