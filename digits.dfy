/** Decimal digits and their values, shared by the text parsers. */
module Digits {
  predicate IsDigit(c: char)
  {
    '0' <= c <= '9'
  }

  predicate AllDigits(s: string)
  {
    forall c :: c in s ==> IsDigit(c)
  }

  function DigitValue(c: char): (v: nat)
    requires IsDigit(c)
    ensures v <= 9
  {
    (c as int - '0' as int) as nat
  }

  /** The number a run of digits spells, most significant first. */
  function DigitsValue(s: string): nat
    requires AllDigits(s)
  {
    if s == [] then 0 else DigitsValue(s[..|s| - 1]) * 10 + DigitValue(s[|s| - 1])
  }

  function Pow10(n: nat): (r: nat)
    ensures r >= 1
  {
    if n == 0 then 1 else 10 * Pow10(n - 1)
  }

  /** Appending digits shifts the value of the leading ones by a power of ten. */
  lemma {:induction false} DigitsValueAppend(w: string, f: string)
    requires AllDigits(w) && AllDigits(f)
    ensures AllDigits(w + f)
    ensures DigitsValue(w + f) == DigitsValue(w) * Pow10(|f|) + DigitsValue(f)
    decreases |f|
  {
    if f == [] {
      assert w + f == w;
    } else {
      var g := f[..|f| - 1];
      assert (w + f)[..|w + f| - 1] == w + g;
      assert f[|f| - 1] in f;
      DigitsValueAppend(w, g);
      var wv, gv, p := DigitsValue(w), DigitsValue(g), Pow10(|g|);
      calc {
        DigitsValue(w + f);
        (wv * p + gv) * 10 + DigitValue(f[|f| - 1]);
        { assert (wv * p + gv) * 10 == wv * (10 * p) + gv * 10; }
        wv * Pow10(|f|) + DigitsValue(f);
      }
    }
  }

  /** How many digits s starts with. */
  function DigitRun(s: string): (n: nat)
    ensures n <= |s| && AllDigits(s[..n])
    ensures n < |s| ==> !IsDigit(s[n])
  {
    if s != [] && IsDigit(s[0]) then
      var n := 1 + DigitRun(s[1..]);
      assert s[..n] == [s[0]] + s[1..][..n - 1];
      n
    else 0
  }

  /** A run of digits followed by something that is not a digit has exactly its own length. */
  lemma {:induction false} DigitRunOf(w: string, q: string)
    requires AllDigits(w) && (q == [] || !IsDigit(q[0]))
    ensures DigitRun(w + q) == |w|
    decreases |w|
  {
    if w == [] {
      assert w + q == q;
    } else {
      assert (w + q)[1..] == w[1..] + q;
      assert w[0] in w;
      DigitRunOf(w[1..], q);
    }
  }
}
