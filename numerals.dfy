/**
 * Decimal numerals: Go's `%d` rendering of integers, the fixed-width
 * zero-padded digits of a time layout such as "20060102", and
 * `strconv.Atoi` (base 10, optional sign, 64-bit range), and the `%d` verb
 * of `fmt.Sscanf` reading into an `int64`.
 */
module Numerals {
  import opened Wrappers
  import opened Text

  const Int64Min: int := -0x8000_0000_0000_0000
  const Int64Max: int := 0x7FFF_FFFF_FFFF_FFFF

  predicate IsDigit(c: char) { '0' <= c <= '9' }

  predicate AllDigits(s: string) { forall i :: 0 <= i < |s| ==> IsDigit(s[i]) }

  function DigitChar(d: nat): (c: char)
    requires d < 10
    ensures IsDigit(c)
  {
    ('0' as int + d) as char
  }

  function DigitValue(c: char): (d: nat)
    requires IsDigit(c)
    ensures d < 10 && DigitChar(d) == c
  {
    c as int - '0' as int
  }

  function Pow10(w: nat): (p: nat)
    ensures p >= 1
  {
    if w == 0 then 1 else 10 * Pow10(w - 1)
  }

  /** The number a string of decimal digits denotes (most significant digit first). */
  function DigitsValue(s: string): nat
    requires AllDigits(s)
  {
    if |s| == 0 then 0 else DigitsValue(s[..|s| - 1]) * 10 + DigitValue(s[|s| - 1])
  }

  /** `%d` of a natural number: its shortest decimal representation. */
  function NatToString(n: nat): (s: string)
    ensures |s| > 0 && AllDigits(s)
  {
    if n < 10 then [DigitChar(n)] else NatToString(n / 10) + [DigitChar(n % 10)]
  }

  /** `%d` of an integer: a minus sign for negative values. */
  function IntToString(n: int): string
  {
    if n < 0 then "-" + NatToString(-n) else NatToString(n)
  }

  /** The digits of `%d` denote the number printed, without a leading zero. */
  lemma {:induction false} NatToStringValue(n: nat)
    ensures DigitsValue(NatToString(n)) == n
    ensures NatToString(n)[0] == '0' ==> n == 0
  {
    var s := NatToString(n);
    if n >= 10 {
      NatToStringValue(n / 10);
      assert s[..|s| - 1] == NatToString(n / 10);
    }
  }

  /** `%d` never prints the character that separates the parts of a cache key. */
  lemma IntToStringHasNo(n: int, c: char)
    requires c != '-' && !IsDigit(c)
    ensures c !in IntToString(n)
  {
    var d := NatToString(if n < 0 then -n else n);
    assert c !in d;
  }

  lemma {:induction false} DigitsValueInjective(a: string, b: string)
    requires AllDigits(a) && AllDigits(b) && |a| == |b|
    requires DigitsValue(a) == DigitsValue(b)
    ensures a == b
  {
    if |a| > 0 {
      var k := |a| - 1;
      var x, y := DigitValue(a[k]), DigitValue(b[k]);
      assert DigitsValue(a) % 10 == x && DigitsValue(b) % 10 == y;
      assert DigitsValue(a[..k]) == DigitsValue(b[..k]);
      DigitsValueInjective(a[..k], b[..k]);
      assert a == a[..k] + [a[k]] && b == b[..k] + [b[k]];
    }
  }

  /** Distinct numbers have distinct `%d` renderings. */
  lemma NatToStringInjective(m: nat, n: nat)
    requires NatToString(m) == NatToString(n)
    ensures m == n
  {
    NatToStringValue(m);
    NatToStringValue(n);
  }

  lemma SignOf(n: int)
    ensures |IntToString(n)| > 0 && (IntToString(n)[0] == '-' <==> n < 0)
  {
  }

  lemma IntToStringInjective(m: int, n: int)
    requires IntToString(m) == IntToString(n)
    ensures m == n
  {
    var a, b := IntToString(m), IntToString(n);
    SignOf(m);
    SignOf(n);
    if m < 0 && n < 0 {
      assert a[1..] == NatToString(-m) && b[1..] == NatToString(-n);
      NatToStringInjective(-m, -n);
    } else if m >= 0 && n >= 0 {
      NatToStringInjective(m, n);
    }
  }

  /** The last `w` decimal digits of `n`, zero-padded (a layout element such as "2006" or "01"). */
  function FixedWidth(n: nat, w: nat): (s: string)
    ensures |s| == w && AllDigits(s)
  {
    if w == 0 then [] else FixedWidth(n / 10, w - 1) + [DigitChar(n % 10)]
  }

  /** Numbers below 10^w have distinct w-digit renderings. */
  lemma {:induction false} FixedWidthInjective(m: nat, n: nat, w: nat)
    requires m < Pow10(w) && n < Pow10(w)
    requires FixedWidth(m, w) == FixedWidth(n, w)
    ensures m == n
  {
    if w > 0 {
      var a, b := FixedWidth(m, w), FixedWidth(n, w);
      assert a[..w - 1] == FixedWidth(m / 10, w - 1);
      assert b[..w - 1] == FixedWidth(n / 10, w - 1);
      DivBelow(m, Pow10(w - 1));
      DivBelow(n, Pow10(w - 1));
      FixedWidthInjective(m / 10, n / 10, w - 1);
      assert DigitValue(a[w - 1]) == m % 10 && DigitValue(b[w - 1]) == n % 10;
    }
  }

  lemma DivBelow(n: nat, p: nat)
    requires n < 10 * p
    ensures n / 10 < p
  {
  }

  /** The value accepted by `strconv.Atoi`, if it fits in `int64`. */
  function Atoi(s: string): (r: Option<int>)
    ensures r.Some? ==> Int64Min <= r.value <= Int64Max
    ensures r.Some? ==> |s| > 0
  {
    if |s| == 0 then None
    else
      var body := if s[0] == '-' || s[0] == '+' then s[1..] else s;
      if |body| == 0 || !AllDigits(body) then None
      else
        var m: int := DigitsValue(body);
        var v := if s[0] == '-' then -m else m;
        if Int64Min <= v <= Int64Max then Some(v) else None
  }

  /** `Atoi` reads back every `int64` that `%d` prints. */
  lemma AtoiIntToString(n: int)
    requires Int64Min <= n <= Int64Max
    ensures Atoi(IntToString(n)) == Some(n)
  {
    var s := IntToString(n);
    if n < 0 {
      NatToStringValue(-n);
      assert s[1..] == NatToString(-n);
    } else {
      NatToStringValue(n);
    }
  }

  /** A string holding anything but an optional sign and digits is refused. */
  lemma AtoiRejects(s: string, i: nat)
    requires i < |s| && !IsDigit(s[i]) && !(i == 0 && (s[i] == '-' || s[i] == '+'))
    ensures Atoi(s) == None
  {
    if |s| > 0 && (s[0] == '-' || s[0] == '+') {
      assert s[1..][i - 1] == s[i];
    }
  }

  // ------------------------------------------------- fmt.Sscanf("%d")

  /** The white space the scanner skips before a number; a newline stops the scan instead. */
  predicate ScanBlank(c: char) { IsSpace(c) && c != '\n' }

  /** The end of the run of skipped white space that starts at `i`. */
  function BlankEnd(s: string, i: nat): (j: nat)
    requires i <= |s|
    ensures i <= j <= |s| && (forall k :: i <= k < j ==> ScanBlank(s[k])) && (j < |s| ==> !ScanBlank(s[j]))
    decreases |s| - i
  {
    if i < |s| && ScanBlank(s[i]) then BlankEnd(s, i + 1) else i
  }

  /** The end of the run of decimal digits that starts at `i`. */
  function DigitEnd(s: string, i: nat): (j: nat)
    requires i <= |s|
    ensures i <= j <= |s| && (forall k :: i <= k < j ==> IsDigit(s[k])) && (j < |s| ==> !IsDigit(s[j]))
    decreases |s| - i
  {
    if i < |s| && IsDigit(s[i]) then DigitEnd(s, i + 1) else i
  }

  /**
   * `fmt.Sscanf(s, "%d", &v)` with `v` an `int64`: white space other than
   * a newline is skipped, a sign is accepted, and the longest run of digits
   * after it is the number; whatever follows is not read. There is no value
   * when there are no digits or the number does not fit in 64 bits.
   */
  function ScanDecimal(s: string): (r: Option<int>)
    ensures r.Some? ==> Int64Min <= r.value <= Int64Max
  {
    var i := BlankEnd(s, 0);
    var signed := i < |s| && (s[i] == '+' || s[i] == '-');
    var d := if signed then i + 1 else i;
    var e := DigitEnd(s, d);
    if e == d then None
    else
      var m: int := DigitsValue(s[d..e]);
      var v := if signed && s[i] == '-' then -m else m;
      if Int64Min <= v <= Int64Max then Some(v) else None
  }

  /** A digit run found by other means is the run `DigitEnd` finds. */
  lemma {:induction false} DigitEndAt(s: string, d: nat, e: nat)
    requires d <= e <= |s| && (forall k :: d <= k < e ==> IsDigit(s[k])) && (e < |s| ==> !IsDigit(s[e]))
    ensures DigitEnd(s, d) == e
    decreases e - d
  {
    if d < e {
      DigitEndAt(s, d + 1, e);
    }
  }

  /** A numeral made of digits alone is scanned whole. */
  lemma ScanUnsigned(s: string)
    requires |s| > 0 && AllDigits(s)
    ensures var m: int := DigitsValue(s); ScanDecimal(s) == if m <= Int64Max then Some(m) else None
  {
    assert !ScanBlank(s[0]);
    DigitEndAt(s, 0, |s|);
    assert s[0..|s|] == s;
  }

  /** A sign followed by digits alone is scanned whole. */
  lemma ScanSigned(s: string)
    requires |s| > 1 && (s[0] == '-' || s[0] == '+') && AllDigits(s[1..])
    ensures var m: int := DigitsValue(s[1..]); var v := if s[0] == '-' then -m else m;
      ScanDecimal(s) == if Int64Min <= v <= Int64Max then Some(v) else None
  {
    assert !ScanBlank(s[0]);
    assert forall k :: 1 <= k < |s| ==> s[k] == s[1..][k - 1];
    DigitEndAt(s, 1, |s|);
    assert s[1..|s|] == s[1..];
  }

  /** On what `strconv.Atoi` accepts, the scanner reads the same number. */
  lemma ScanDecimalReadsAtoi(s: string)
    requires Atoi(s).Some?
    ensures ScanDecimal(s) == Atoi(s)
  {
    if s[0] == '-' || s[0] == '+' {
      ScanSigned(s);
    } else {
      ScanUnsigned(s);
    }
  }

  /** The scanner reads the digits `%d` prints and stops at the first character that is not a digit. */
  lemma ScanDecimalStopsAtNonDigit(n: nat, x: string)
    requires n <= Int64Max && (|x| == 0 || !IsDigit(x[0]))
    ensures ScanDecimal(NatToString(n) + x) == Some(n)
  {
    var t := NatToString(n);
    var s := t + x;
    assert s[0] == t[0] && IsDigit(s[0]);
    assert !ScanBlank(s[0]);
    assert BlankEnd(s, 0) == 0;
    assert forall k :: 0 <= k < |t| ==> s[k] == t[k];
    DigitEndAt(s, 0, |t|);
    assert s[0..|t|] == t;
    NatToStringValue(n);
  }
}
