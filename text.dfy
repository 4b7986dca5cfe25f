/**
  String helpers the application relies on: Python's `str.join`, the decimal
  rendering `str(n)` of a non-negative integer that an f-string performs, and
  substring containment used to state what a prompt mentions.
 */
module Text {

  /** `t` occurs in `s` starting at index `i`. */
  predicate OccursAt(s: string, t: string, i: nat) {
    i + |t| <= |s| && s[i..i + |t|] == t
  }

  /** `t` is a substring of `s`. */
  predicate Contains(s: string, t: string) {
    exists i: nat | i <= |s| :: OccursAt(s, t, i)
  }

  lemma ContainsMiddle(a: string, t: string, b: string)
    ensures Contains(a + t + b, t)
  {
    assert OccursAt(a + t + b, t, |a|) by {
      assert (a + t + b)[|a|..|a| + |t|] == t;
    }
  }

  lemma ContainsWithin(s: string, t: string, a: string, b: string)
    requires Contains(s, t)
    ensures Contains(a + s + b, t)
  {
    var i: nat :| i <= |s| && OccursAt(s, t, i);
    assert i + |t| <= |s| && s[i..i + |t|] == t;
    var j := |a| + i;
    assert (a + s + b)[j..j + |t|] == s[i..i + |t|];
    assert OccursAt(a + s + b, t, j);
  }

  lemma ContainsTransitive(s: string, t: string, u: string)
    requires Contains(s, t) && Contains(t, u)
    ensures Contains(s, u)
  {
    var i: nat :| i <= |s| && OccursAt(s, t, i);
    var j: nat :| j <= |t| && OccursAt(t, u, j);
    assert i + |t| <= |s| && s[i..i + |t|] == t;
    assert j + |u| <= |t| && t[j..j + |u|] == u;
    forall x | 0 <= x < |u|
      ensures s[i + j + x] == u[x]
    {
      assert u[x] == t[j + x] == s[i + j + x];
    }
    assert s[i + j..i + j + |u|] == u;
    assert OccursAt(s, u, i + j);
  }

  /** Python's `sep.join(xs)`: the elements in order with `sep` between neighbours. */
  function Join(xs: seq<string>, sep: string): string
  {
    if |xs| == 0 then ""
    else if |xs| == 1 then xs[0]
    else Join(xs[..|xs| - 1], sep) + sep + xs[|xs| - 1]
  }

  /** Total length of the elements of `xs`. */
  function TotalLength(xs: seq<string>): nat
  {
    if |xs| == 0 then 0 else TotalLength(xs[..|xs| - 1]) + |xs[|xs| - 1]|
  }

  lemma JoinSnoc(xs: seq<string>, x: string, sep: string)
    requires |xs| > 0
    ensures Join(xs + [x], sep) == Join(xs, sep) + sep + x
  {
  }

  /** The joined string is as long as the elements plus one separator per gap. */
  lemma {:induction false} JoinLength(xs: seq<string>, sep: string)
    requires |xs| > 0
    ensures |Join(xs, sep)| == TotalLength(xs) + (|xs| - 1) * |sep|
  {
    if |xs| > 1 {
      var n := |xs| - 1;
      JoinLength(xs[..n], sep);
      assert (n - 1) * |sep| + |sep| == n * |sep|;
    }
  }

  /** Every element appears in the joined string. */
  lemma {:induction false} JoinContainsEach(xs: seq<string>, sep: string, k: nat)
    requires k < |xs|
    ensures Contains(Join(xs, sep), xs[k])
  {
    if |xs| == 1 {
      assert OccursAt(Join(xs, sep), xs[k], 0);
    } else {
      var init, last := xs[..|xs| - 1], xs[|xs| - 1];
      var front := Join(init, sep);
      assert Join(xs, sep) == front + sep + last;
      if k == |xs| - 1 {
        ContainsMiddle(front + sep, last, "");
        assert front + sep + last + "" == Join(xs, sep);
      } else {
        JoinContainsEach(init, sep, k);
        assert init[k] == xs[k];
        ContainsWithin(front, xs[k], "", sep + last);
        assert "" + front + (sep + last) == Join(xs, sep);
      }
    }
  }

  /** The joined string begins with the first element. */
  lemma {:induction false} JoinStartsWithFirst(xs: seq<string>, sep: string)
    requires |xs| > 0
    ensures |xs[0]| <= |Join(xs, sep)| && Join(xs, sep)[..|xs[0]|] == xs[0]
  {
    if |xs| > 1 {
      var init := xs[..|xs| - 1];
      JoinStartsWithFirst(init, sep);
      assert init[0] == xs[0];
    }
  }

  /** The character for a decimal digit. */
  function DigitChar(d: nat): (c: char)
    requires d < 10
    ensures '0' <= c <= '9'
  {
    ('0' as int + d) as char
  }

  /** The value of a decimal digit character. */
  function DigitValue(c: char): (d: nat)
    requires '0' <= c <= '9'
    ensures d < 10
  {
    c as int - '0' as int
  }

  predicate AllDigits(s: string) {
    forall i :: 0 <= i < |s| ==> '0' <= s[i] <= '9'
  }

  /** Python's `str(n)` for an integer `n >= 0`: digits only, no leading zero. */
  function Decimal(n: nat): (r: string)
    ensures |r| > 0 && AllDigits(r)
    ensures r[0] == '0' <==> n == 0
    decreases n
  {
    if n < 10 then [DigitChar(n)] else Decimal(n / 10) + [DigitChar(n % 10)]
  }

  /** Reads back a string of decimal digits. */
  function ParseDecimal(s: string): nat
    requires AllDigits(s)
  {
    if |s| == 0 then 0 else 10 * ParseDecimal(s[..|s| - 1]) + DigitValue(s[|s| - 1])
  }

  /** Rendering a number and reading it back gives the number. */
  lemma {:induction false} DecimalRoundTrip(n: nat)
    ensures ParseDecimal(Decimal(n)) == n
    decreases n
  {
    var r := Decimal(n);
    if n >= 10 {
      DecimalRoundTrip(n / 10);
      assert r[..|r| - 1] == Decimal(n / 10);
    }
  }
}
