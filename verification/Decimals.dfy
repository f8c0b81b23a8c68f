/** Decimal notation, and the product that the Redis scripts compute in it digit by digit. */
module Decimals {
  import opened Options

  predicate IsDigit(c: char) { '0' <= c <= '9' }

  function DigitOf(c: char): nat
    requires IsDigit(c)
  {
    c as int - '0' as int
  }

  predicate IsNumber(s: string) { s != "" && forall i :: 0 <= i < |s| ==> IsDigit(s[i]) }

  function Value(s: string): nat
    requires forall i :: 0 <= i < |s| ==> IsDigit(s[i])
  {
    if s == "" then 0 else Value(s[..|s| - 1]) * 10 + DigitOf(s[|s| - 1])
  }

  function Digit(d: nat): (c: char)
    requires d < 10
    ensures IsDigit(c) && DigitOf(c) == d
  {
    '0' + d as char
  }

  /** Decimal notation without leading zeros. */
  function Decimal(n: nat): (s: string)
    ensures IsNumber(s) && Value(s) == n
  {
    if n < 10 then assert [Digit(n)][..0] == ""; [Digit(n)]
    else
      var s := Decimal(n / 10) + [Digit(n % 10)];
      assert s[..|s| - 1] == Decimal(n / 10);
      s
  }

  predicate AllDigits(s: string) { forall i :: 0 <= i < |s| ==> IsDigit(s[i]) }

  function Pow10(n: nat): nat { if n == 0 then 1 else 10 * Pow10(n - 1) }

  /** The same digits with the last one first. */
  function LowFirst(s: string): nat
    requires AllDigits(s)
  {
    if s == "" then 0 else DigitOf(s[0]) + 10 * LowFirst(s[1..])
  }

  lemma {:induction false} LowFirstSnoc(s: string, c: char)
    requires AllDigits(s) && IsDigit(c)
    ensures AllDigits(s + [c]) && LowFirst(s + [c]) == LowFirst(s) + DigitOf(c) * Pow10(|s|)
  {
    if s == "" {
      assert "" + [c] == [c] && [c][1..] == "";
    } else {
      assert (s + [c])[1..] == s[1..] + [c];
      LowFirstSnoc(s[1..], c);
    }
  }

  lemma {:induction false} ValueCons(c: char, s: string)
    requires IsDigit(c) && AllDigits(s)
    ensures AllDigits([c] + s) && Value([c] + s) == DigitOf(c) * Pow10(|s|) + Value(s)
  {
    if s == "" {
      assert [c] + "" == [c] && [c][..0] == "";
    } else {
      var n := |s| - 1;
      ValueCons(c, s[..n]);
      assert ([c] + s)[..n + 1] == [c] + s[..n];
    }
  }

  predicate Mirror(a: string, b: string) { |a| == |b| && forall k :: 0 <= k < |a| ==> a[k] == b[|a| - 1 - k] }

  lemma {:induction false} MirrorValue(a: string, b: string)
    requires Mirror(a, b) && AllDigits(b)
    ensures AllDigits(a) && Value(a) == LowFirst(b)
    decreases |a|
  {
    if a != "" {
      var n := |a| - 1;
      assert a[n] == b[0];
      forall k | 0 <= k < n ensures a[..n][k] == b[1..][n - 1 - k] {}
      MirrorValue(a[..n], b[1..]);
    }
  }

  /** One more digit from the right: what is written and carried is what was multiplied. */
  lemma Carries(d: nat, multiplier: nat, carry: nat, low: nat, rest: nat, p: nat)
    requires low + carry * p == rest * multiplier
    ensures var product := d * multiplier + carry;
      (low + product % 10 * p) + product / 10 * (10 * p) == (d * p + rest) * multiplier
  {
    var product := d * multiplier + carry;
    assert product == product / 10 * 10 + product % 10;
    calc {
      (low + product % 10 * p) + product / 10 * (10 * p);
      low + (product % 10 + product / 10 * 10) * p;
      low + (d * multiplier + carry) * p;
      d * multiplier * p + rest * multiplier;
      (d * p + rest) * multiplier;
    }
  }

  /** The carry that is left, written out. */
  lemma Spills(carry: nat, low: nat, p: nat)
    ensures (low + carry % 10 * p) + carry / 10 * (10 * p) == low + carry * p
  {
    assert carry == carry / 10 * 10 + carry % 10;
    assert carry / 10 * (10 * p) == carry / 10 * 10 * p;
  }

  function Times(a: nat, b: nat): nat { a * b }

  function Product(d: nat, multiplier: nat, carry: nat): nat { d * multiplier + carry }

  /** What has been written, low digits first, together with what is carried. */
  function Amounts(out: string, carry: nat): nat
    requires AllDigits(out)
  {
    LowFirst(out) + carry * Pow10(|out|)
  }

  lemma Multiplied(s: string, i: nat, multiplier: nat, out: string, carry: nat)
    requires i < |s| && AllDigits(s[i..]) && AllDigits(out) && |out| == |s| - (i + 1)
    requires Amounts(out, carry) == Times(Value(s[i + 1..]), multiplier)
    ensures var p := Product(DigitOf(s[i]), multiplier, carry);
      Amounts(out + [Digit(p % 10)], p / 10) == Times(Value(s[i..]), multiplier)
  {
    hide DigitOf;
    var p := Product(DigitOf(s[i]), multiplier, carry);
    assert s[i..] == [s[i]] + s[i + 1..];
    ValueCons(s[i], s[i + 1..]);
    LowFirstSnoc(out, Digit(p % 10));
    Carries(DigitOf(s[i]), multiplier, carry, LowFirst(out), Value(s[i + 1..]), Pow10(|out|));
  }

  lemma Spilt(out: string, carry: nat)
    requires AllDigits(out)
    ensures Amounts(out + [Digit(carry % 10)], carry / 10) == Amounts(out, carry)
  {
    LowFirstSnoc(out, Digit(carry % 10));
    Spills(carry, LowFirst(out), Pow10(|out|));
  }

  lemma Nothing(multiplier: nat)
    ensures Amounts("", 0) == Times(0, multiplier)
  {}

  lemma ValueOfNothing()
    ensures Value("") == 0 && Value("0") == 0
  {
    assert "0"[..0] == "";
  }

  lemma Finished(out: string, n: nat, multiplier: nat)
    requires AllDigits(out) && Amounts(out, 0) == Times(n, multiplier)
    ensures LowFirst(out) == n * multiplier
  {}

  /** `s` backwards, by swapping its ends inwards. */
  method Reverse(s: string) returns (out: string)
    ensures Mirror(out, s)
  {
    out := s;
    var n, i := |s|, 0;
    while i < n / 2
      invariant 0 <= i <= n / 2 && |out| == n
      invariant forall k :: 0 <= k < i ==> out[k] == s[n - 1 - k] && out[n - 1 - k] == s[k]
      invariant forall k :: i <= k < n - i ==> out[k] == s[k]
    {
      var j := n - 1 - i;
      out := out[i := out[j]][j := out[i]];
      i := i + 1;
    }
  }

  /**
   * multiply_decimal_string_by_int: refused exactly for a string that is not all digits, and otherwise the
   * exact product, whatever its size.
   */
  method MultiplyDecimal(s: string, multiplier: nat) returns (product: Option<string>)
    ensures product.None? <==> multiplier != 0 && !AllDigits(s)
    ensures product.Some? ==> AllDigits(product.value) && (AllDigits(s) ==> Value(product.value) == Value(s) * multiplier)
  {
    if multiplier == 0 {
      ValueOfNothing();
      return Some("0");
    }
    hide Amounts, Times, Product, LowFirst, Value, Pow10, DigitOf;
    Nothing(multiplier);
    ValueOfNothing();
    var out, i := "", |s|;
    var carry: nat := 0;
    assert s[i..] == "";
    while i > 0
      invariant 0 <= i <= |s| && AllDigits(s[i..]) && AllDigits(out) && |out| == |s| - i
      invariant Amounts(out, carry) == Times(Value(s[i..]), multiplier)
    {
      i := i - 1;
      if !IsDigit(s[i]) { return None; }
      var d := DigitOf(s[i]);
      var p := Product(d, multiplier, carry);
      Multiplied(s, i, multiplier, out, carry);
      out := out + [Digit(p % 10)];
      carry := p / 10;
    }
    assert s[0..] == s;
    while carry > 0
      invariant AllDigits(out) && Amounts(out, carry) == Times(Value(s), multiplier)
    {
      Spilt(out, carry);
      out := out + [Digit(carry % 10)];
      carry := carry / 10;
    }
    var front := Reverse(out);
    MirrorValue(front, out);
    Finished(out, Value(s), multiplier);
    product := Some(front);
  }
}
