/**
 * The fields of an instance CRN (`gateway/core/domain/crn.py`), and the regular expression that selects the CRNs of a
 * region in the database.
 */
module Crn {
  import opened Wrappers
  import opened Regex

  const REGION_INDEX := 5
  const ACCOUNT_INDEX := 6
  const ACCOUNT_PREFIX := "a/"

  datatype Crn = Crn(region: string, account: Option<string>)

  function FirstColon(s: string): (i: nat)
    requires ':' in s
    ensures i < |s| && s[i] == ':' && ':' !in s[..i]
  {
    if s[0] == ':' then 0
    else
      assert s == [s[0]] + s[1..];
      var i := FirstColon(s[1..]) + 1;
      assert s[..i] == [s[0]] + s[1..][..i - 1];
      i
  }

  lemma FirstColonIs(s: string, j: nat)
    requires j < |s| && s[j] == ':' && ':' !in s[..j]
    ensures FirstColon(s) == j
  {
    assert forall k :: 0 <= k < j ==> s[k] == s[..j][k];
    assert forall k :: 0 <= k < FirstColon(s) ==> s[k] == s[..FirstColon(s)][k];
  }

  /** `s.split(":")`. */
  function Split(s: string): (parts: seq<string>)
    ensures |parts| >= 1
    ensures forall i :: 0 <= i < |parts| ==> ':' !in parts[i]
    decreases |s|
  {
    if ':' in s then [s[..FirstColon(s)]] + Split(s[FirstColon(s) + 1..]) else [s]
  }

  function Join(parts: seq<string>): string {
    if |parts| == 0 then "" else if |parts| == 1 then parts[0] else parts[0] + ":" + Join(parts[1..])
  }

  function WithoutPrefix(s: string): string {
    if ACCOUNT_PREFIX <= s then s[|ACCOUNT_PREFIX|..] else s
  }

  /** `Crn.parse`, on a column that can be null. */
  function Parse(value: Option<string>): Option<Crn> {
    if value.None? then None
    else
      var parts := Split(value.value);
      if |parts| <= ACCOUNT_INDEX || parts[REGION_INDEX] == "" then None
      else
        var account := WithoutPrefix(parts[ACCOUNT_INDEX]);
        Some(Crn(parts[REGION_INDEX], if account == "" then None else Some(account)))
  }

  function ParsedRegion(value: Option<string>): Option<string> {
    var crn := Parse(value);
    if crn.None? then None else Some(crn.value.region)
  }

  /** Splitting loses nothing. */
  lemma {:induction false} JoinUndoesSplit(s: string)
    ensures Join(Split(s)) == s
    decreases |s|
  {
    if ':' in s {
      var i := FirstColon(s);
      JoinUndoesSplit(s[i + 1..]);
      assert Split(s)[1..] == Split(s[i + 1..]);
      assert s == s[..i] + ":" + s[i + 1..];
    }
  }

  lemma SplitHead(head: string, rest: string)
    requires ':' !in head
    ensures Split(head + ":" + rest) == [head] + Split(rest)
  {
    var s := head + ":" + rest;
    assert s[..|head|] == head && s[|head|] == ':';
    FirstColonIs(s, |head|);
    var i := |head|;
    assert s[..i] == head && s[i + 1..] == rest;
  }

  /** And joining loses nothing, for parts without a colon. */
  lemma {:induction false} SplitUndoesJoin(parts: seq<string>)
    requires |parts| >= 1 && forall i :: 0 <= i < |parts| ==> ':' !in parts[i]
    ensures Split(Join(parts)) == parts
  {
    if |parts| > 1 {
      SplitUndoesJoin(parts[1..]);
      SplitHead(parts[0], Join(parts[1..]));
      assert parts == [parts[0]] + parts[1..];
    }
  }

  // ------------------------------------------------------------------ the regular expression

  /** `[^:]*:` */
  const FIELD := Cat(Star(NotChar(':')), Char(':'))

  /** `^([^:]*:){5}region:` without its anchor. */
  function RegionRegex(region: string): Regex {
    Times(FIELD, REGION_INDEX, Literal(region + ":"))
  }

  /** What is left of a text after `n` colons. */
  function AfterColons(s: string, n: nat): Option<string> {
    if n == 0 then Some(s) else if ':' in s then AfterColons(s[FirstColon(s) + 1..], n - 1) else None
  }

  /** A field is a word whose only colon is its last character. */
  lemma FieldSplit(w: string) returns (u: string)
    requires Matches(FIELD, w)
    ensures w == u + ":" && ':' !in u
  {
    var v;
    u, v := CatSplit(Star(NotChar(':')), Char(':'), w);
    StarNotChar(':', u);
  }

  lemma FieldJoin(u: string)
    requires ':' !in u
    ensures Matches(FIELD, u + ":")
  {
    StarNotChar(':', u);
    CatJoin(Star(NotChar(':')), Char(':'), u, ":");
  }

  lemma FieldEndsAtColon(s: string, k: nat)
    requires k <= |s| && Matches(FIELD, s[..k])
    ensures ':' in s && k == FirstColon(s) + 1
  {
    var u := FieldSplit(s[..k]);
    assert s[..k][..k - 1] == s[..k - 1] == u;
    FirstColonIs(s, k - 1);
  }

  lemma FieldMatches(s: string, k: nat)
    requires k <= |s|
    ensures Matches(FIELD, s[..k]) <==> ':' in s && k == FirstColon(s) + 1
  {
    if Matches(FIELD, s[..k]) {
      FieldEndsAtColon(s, k);
    }
    if ':' in s && k == FirstColon(s) + 1 {
      FieldJoin(s[..k - 1]);
      assert s[..k] == s[..k - 1] + ":";
    }
  }

  lemma {:induction false} FieldsThen(n: nat, rest: Regex, s: string)
    ensures Begins(Times(FIELD, n, rest), s) <==> AfterColons(s, n).Some? && Begins(rest, AfterColons(s, n).value)
  {
    if n > 0 {
      BeginsCat(FIELD, Times(FIELD, n - 1, rest), s);
      forall k | 0 <= k <= |s|
        ensures Matches(FIELD, s[..k]) <==> ':' in s && k == FirstColon(s) + 1
      {
        FieldMatches(s, k);
      }
      if ':' in s {
        FieldsThen(n - 1, rest, s[FirstColon(s) + 1..]);
      }
    }
  }

  lemma {:induction false} SplitAfterColons(s: string, n: nat)
    ensures AfterColons(s, n).Some? <==> n < |Split(s)|
    ensures n < |Split(s)| ==> Split(s)[n..] == Split(AfterColons(s, n).value)
  {
    if n > 0 && ':' in s {
      var rest := s[FirstColon(s) + 1..];
      SplitAfterColons(rest, n - 1);
      assert Split(s)[1..] == Split(rest);
      if n < |Split(s)| {
        assert Split(s)[n..] == Split(rest)[n - 1..];
      }
    }
  }

  /** The text up to the first colon, or all of it. */
  function FirstPart(s: string): string {
    Split(s)[0]
  }

  lemma StartsWithRegion(region: string, rest: string)
    requires region + ":" <= rest
    ensures ':' in rest && FirstPart(rest) == FirstPart(region)
  {
    var tail := rest[|region| + 1..];
    assert rest == region + ":" + tail;
    if ':' in region {
      var i := FirstColon(region);
      assert rest == region[..i] + ":" + rest[i + 1..];
      SplitHead(region[..i], rest[i + 1..]);
    } else {
      SplitHead(region, tail);
    }
  }

  /** What the database finds for any region: the sixth field of the CRN begins the region, and the rest of it follows. */
  lemma RegexMeaning(region: string, crn: string)
    ensures Begins(RegionRegex(region), crn) <==>
            AfterColons(crn, REGION_INDEX).Some? && region + ":" <= AfterColons(crn, REGION_INDEX).value
  {
    FieldsThen(REGION_INDEX, Literal(region + ":"), crn);
    if AfterColons(crn, REGION_INDEX).Some? {
      BeginsLiteral(region + ":", AfterColons(crn, REGION_INDEX).value);
    }
  }

  /** A match has as its parsed region the first part of the region asked for. */
  lemma RegexFindsFirstPart(region: string, crn: string)
    requires Begins(RegionRegex(region), crn)
    ensures ParsedRegion(Some(crn)) == if FirstPart(region) == "" then None else Some(FirstPart(region))
  {
    RegexMeaning(region, crn);
    var rest := AfterColons(crn, REGION_INDEX).value;
    StartsWithRegion(region, rest);
    SplitAfterColons(crn, REGION_INDEX);
    assert Split(crn)[REGION_INDEX..][0] == FirstPart(region);
    assert |Split(rest)| >= 2;
  }

  lemma ParsedRegionFollows(crn: string)
    requires Parse(Some(crn)).Some?
    ensures AfterColons(crn, REGION_INDEX).Some?
    ensures Parse(Some(crn)).value.region + ":" <= AfterColons(crn, REGION_INDEX).value
  {
    SplitAfterColons(crn, REGION_INDEX);
    var rest := AfterColons(crn, REGION_INDEX).value;
    assert Split(crn)[REGION_INDEX..][0] == Split(crn)[REGION_INDEX];
    FirstPartBegins(rest);
  }

  lemma FirstPartBegins(s: string)
    requires |Split(s)| >= 2
    ensures FirstPart(s) + ":" <= s
  {
    assert FirstPart(s) + ":" == s[..FirstColon(s) + 1];
  }

  /** A CRN is matched by the region it is parsed to. */
  lemma ParsedRegionIsFound(crn: string)
    requires Parse(Some(crn)).Some?
    ensures Begins(RegionRegex(Parse(Some(crn)).value.region), crn)
  {
    ParsedRegionFollows(crn);
    RegexMeaning(Parse(Some(crn)).value.region, crn);
  }

  /** The regular expression of a region finds exactly the CRNs that are parsed to it, for a region that can be one. */
  lemma RegexIsParse(region: string, crn: string)
    requires region != "" && ':' !in region
    ensures Begins(RegionRegex(region), crn) <==> ParsedRegion(Some(crn)) == Some(region)
  {
    if Begins(RegionRegex(region), crn) {
      RegexFindsFirstPart(region, crn);
    }
    if ParsedRegion(Some(crn)) == Some(region) {
      ParsedRegionIsFound(crn);
    }
  }

  lemma {:induction false} ColonsSkipped(s: string, n: nat, tail: string)
    requires n <= |s| && s[n..] == tail && forall i :: 0 <= i < n ==> s[i] == ':'
    ensures AfterColons(s, n) == Some(tail)
  {
    if n > 0 {
      FirstColonIs(s, 0);
      ColonsSkipped(s[1..], n - 1, tail);
    }
  }

  /** Every region is found in some CRN. */
  lemma RegionCanBeFound(region: string)
    ensures Begins(RegionRegex(region), ":::::" + region + ":")
  {
    var s := ":::::" + region + ":";
    ColonsSkipped(s, REGION_INDEX, region + ":");
    RegexMeaning(region, s);
  }
}
