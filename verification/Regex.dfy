/**
 * Regular expressions, as far as the gateway writes them: single characters, concatenation and repetition, with their
 * language given by the words they match.
 */
module Regex {
  datatype Regex =
    | Empty
    | Char(c: char)
    | NotChar(c: char)
    | Cat(first: Regex, second: Regex)
    | Star(inner: Regex)

  /** The whole word is in the language. */
  ghost predicate Matches(r: Regex, w: string)
    decreases r, |w|
  {
    match r
    case Empty => w == ""
    case Char(c) => w == [c]
    case NotChar(c) => |w| == 1 && w[0] != c
    case Cat(a, b) => exists k :: 0 <= k <= |w| && Matches(a, w[..k]) && Matches(b, w[k..])
    case Star(a) => w == "" || exists k :: 0 < k <= |w| && Matches(a, w[..k]) && Matches(r, w[k..])
  }

  /** What a search for `^r` finds: some prefix of the text is in the language. */
  ghost predicate Begins(r: Regex, text: string) {
    exists k :: 0 <= k <= |text| && Matches(r, text[..k])
  }

  /** `re.escape(s)`: the characters themselves. */
  function Literal(s: string): Regex {
    if s == "" then Empty else Cat(Char(s[0]), Literal(s[1..]))
  }

  /** `r{n}` followed by something. */
  function Times(r: Regex, n: nat, rest: Regex): Regex {
    if n == 0 then rest else Cat(r, Times(r, n - 1, rest))
  }

  lemma {:induction false} LiteralMatchesItself(s: string, w: string)
    ensures Matches(Literal(s), w) <==> w == s
  {
    if s != "" {
      if w != "" {
        LiteralMatchesItself(s[1..], w[1..]);
      }
      if Matches(Literal(s), w) {
        var k :| 0 <= k <= |w| && Matches(Char(s[0]), w[..k]) && Matches(Literal(s[1..]), w[k..]);
        assert k == |w[..k]| == 1;
        assert w == w[..1] + w[1..];
      }
      if w == s {
        assert w[..1] == [s[0]];
        assert Matches(Char(s[0]), w[..1]) && Matches(Literal(s[1..]), w[1..]);
      }
    }
  }

  lemma {:induction false} StarNotChar(c: char, w: string)
    ensures Matches(Star(NotChar(c)), w) <==> c !in w
  {
    if w != "" {
      StarNotChar(c, w[1..]);
      assert w == [w[0]] + w[1..];
      if Matches(Star(NotChar(c)), w) {
        var k :| 0 < k <= |w| && Matches(NotChar(c), w[..k]) && Matches(Star(NotChar(c)), w[k..]);
        assert k == |w[..k]| == 1;
      }
      if c !in w {
        assert Matches(NotChar(c), w[..1]) && Matches(Star(NotChar(c)), w[1..]);
      }
    }
  }

  lemma CatJoin(a: Regex, b: Regex, u: string, v: string)
    requires Matches(a, u) && Matches(b, v)
    ensures Matches(Cat(a, b), u + v)
  {
    var w := u + v;
    assert w[..|u|] == u && w[|u|..] == v;
  }

  lemma CatSplit(a: Regex, b: Regex, w: string) returns (u: string, v: string)
    requires Matches(Cat(a, b), w)
    ensures w == u + v && Matches(a, u) && Matches(b, v)
  {
    var k :| 0 <= k <= |w| && Matches(a, w[..k]) && Matches(b, w[k..]);
    u, v := w[..k], w[k..];
  }

  /** A concatenation begins a text when its first part does and its second part begins what is left. */
  lemma BeginsCat(a: Regex, b: Regex, text: string)
    ensures Begins(Cat(a, b), text) <==> exists k :: 0 <= k <= |text| && Matches(a, text[..k]) && Begins(b, text[k..])
  {
    if Begins(Cat(a, b), text) {
      var n :| 0 <= n <= |text| && Matches(Cat(a, b), text[..n]);
      var k :| 0 <= k <= n && Matches(a, text[..n][..k]) && Matches(b, text[..n][k..]);
      assert text[..n][..k] == text[..k] && text[..n][k..] == text[k..][..n - k];
    }
    if k :| 0 <= k <= |text| && Matches(a, text[..k]) && Begins(b, text[k..]) {
      var m :| 0 <= m <= |text[k..]| && Matches(b, text[k..][..m]);
      var n := k + m;
      assert text[..n][..k] == text[..k] && text[..n][k..] == text[k..][..m];
      assert Matches(Cat(a, b), text[..n]);
    }
  }

  lemma BeginsLiteral(s: string, text: string)
    ensures Begins(Literal(s), text) <==> s <= text
  {
    if Begins(Literal(s), text) {
      var k :| 0 <= k <= |text| && Matches(Literal(s), text[..k]);
      LiteralMatchesItself(s, text[..k]);
    }
    if s <= text {
      assert text[..|s|] == s;
      LiteralMatchesItself(s, text[..|s|]);
    }
  }
}
