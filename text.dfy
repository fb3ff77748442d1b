/** Joining and splitting text on a one-character separator, as the CSV
    exporter's `Array.prototype.join` does, and decimal rendering of naturals. */
module Text {

  predicate Free(s: string, c: char)
  {
    forall i :: 0 <= i < |s| ==> s[i] != c
  }

  predicate AllFree(xs: seq<string>, c: char)
  {
    forall i :: 0 <= i < |xs| ==> Free(xs[i], c)
  }

  /** `xs.join(sep)`: the elements with one separator between neighbours. */
  function Join(xs: seq<string>, sep: char): string
  {
    if xs == [] then ""
    else if |xs| == 1 then xs[0]
    else xs[0] + [sep] + Join(xs[1..], sep)
  }

  /** The fields of s between occurrences of c; always at least one. */
  function Split(s: string, c: char): (r: seq<string>)
    ensures |r| >= 1
  {
    if s == [] then [""]
    else if s[0] == c then [""] + Split(s[1..], c)
    else
      var rest := Split(s[1..], c);
      [[s[0]] + rest[0]] + rest[1..]
  }

  /** A text without the separator is one field. */
  lemma {:induction false} SplitFree(a: string, c: char)
    requires Free(a, c)
    ensures Split(a, c) == [a]
  {
    if a != [] {
      SplitFree(a[1..], c);
      assert [a[0]] + a[1..] == a;
    }
  }

  /** A field without the separator, then the separator, ends the first field. */
  lemma {:induction false} SplitFirst(a: string, c: char, t: string)
    requires Free(a, c)
    ensures Split(a + [c] + t, c) == [a] + Split(t, c)
  {
    if a == [] {
      assert a + [c] + t == [c] + t;
    } else {
      var s := a + [c] + t;
      assert s[0] == a[0] && s[1..] == a[1..] + [c] + t;
      SplitFirst(a[1..], c, t);
      assert [a[0]] + a[1..] == a;
    }
  }

  /** Splitting undoes joining when no element contains the separator. */
  lemma {:induction false} SplitJoin(xs: seq<string>, c: char)
    requires |xs| >= 1 && AllFree(xs, c)
    ensures Split(Join(xs, c), c) == xs
  {
    if |xs| == 1 {
      SplitFree(xs[0], c);
    } else {
      assert AllFree(xs[1..], c);
      SplitJoin(xs[1..], c);
      SplitFirst(xs[0], c, Join(xs[1..], c));
      assert [xs[0]] + xs[1..] == xs;
    }
  }

  /** Joining a header with a non-empty body is the header, a separator and
      the joined body, which is how the exporter writes its files. */
  lemma JoinCons(h: string, xs: seq<string>, c: char)
    requires |xs| >= 1
    ensures Join([h] + xs, c) == h + [c] + Join(xs, c)
  {
    assert ([h] + xs)[1..] == xs;
  }

  /** A separator-free element never brings the separator into the join. */
  lemma {:induction false} JoinFree(xs: seq<string>, sep: char, c: char)
    requires AllFree(xs, c) && sep != c
    ensures Free(Join(xs, sep), c)
  {
    if |xs| > 1 {
      assert AllFree(xs[1..], c);
      JoinFree(xs[1..], sep, c);
    }
  }

  function Digit(d: nat): char
    requires d < 10
  {
    "0123456789"[d]
  }

  predicate AllDigits(s: string)
  {
    forall i :: 0 <= i < |s| ==> '0' <= s[i] <= '9'
  }

  /** The number a string of decimal digits denotes, most significant first. */
  function DecimalValue(s: string): nat
    requires AllDigits(s)
  {
    if s == [] then 0
    else DecimalValue(s[..|s| - 1]) * 10 + (s[|s| - 1] as int - '0' as int)
  }

  lemma DigitValue(d: nat)
    requires d < 10
    ensures '0' <= Digit(d) <= '9' && Digit(d) as int - '0' as int == d
  {
  }

  /** Decimal text of n, as a template literal renders a whole number: digits
      that read back as n, with no leading zero unless n is 0. */
  function NatToString(n: nat): (r: string)
    ensures |r| >= 1 && AllDigits(r)
    ensures DecimalValue(r) == n
    ensures r[0] == '0' <==> n == 0
    ensures |r| == 1 <==> n < 10
  {
    if n < 10 then
      DigitValue(n);
      [Digit(n)]
    else
      var prefix := NatToString(n / 10);
      var d := n % 10;
      DigitValue(d);
      var r := prefix + [Digit(d)];
      assert r[..|r| - 1] == prefix;
      r
  }
}
