/** Canonical decimal amounts: at most eighteen whole digits and six decimals. */
module Money {
  import opened Common

  const DECIMALS := 6

  predicate IsDigit(c: char) { '0' <= c <= '9' }

  predicate Digits(s: string) { forall i :: 0 <= i < |s| ==> IsDigit(s[i]) }

  /** The position of the first point, or the length. */
  function Point(s: string): (p: nat)
    ensures p <= |s|
    ensures forall i :: 0 <= i < p ==> s[i] != '.'
    ensures p < |s| ==> s[p] == '.'
  {
    if s == "" || s[0] == '.' then 0 else 1 + Point(s[1..])
  }

  function Whole(s: string): string { s[..Point(s)] }

  function Fraction(s: string): string { if Point(s) == |s| then "" else s[Point(s) + 1..] }

  predicate ValidWhole(w: string) { 1 <= |w| <= 18 && Digits(w) && (w == "0" || w[0] != '0') }

  predicate ValidText(s: string) {
    && ValidWhole(Whole(s))
    && (Point(s) < |s| ==> 1 <= |Fraction(s)| <= DECIMALS && Digits(Fraction(s)))
  }

  predicate ValidMoney(value: Option<string>) { value.Some? && ValidText(value.value) }

  function StripZeros(f: string): string {
    if f != "" && f[|f| - 1] == '0' then StripZeros(f[..|f| - 1]) else f
  }

  function Join(whole: string, fraction: string): string {
    if fraction != "" then whole + "." + fraction else whole
  }

  function NormalizedMoney(value: Option<string>): Option<string> {
    if !ValidMoney(value) then None
    else Some(Join(Whole(value.value), StripZeros(Fraction(value.value))))
  }

  // ---------------------------------------------------------------- what an amount denotes

  function Number(s: string): nat
    requires Digits(s)
  {
    if s == "" then 0 else 10 * Number(s[..|s| - 1]) + (s[|s| - 1] - '0') as nat
  }

  function Zeros(n: nat): string { seq(n, _ => '0') }

  /** The fraction written with all six decimals. */
  function Padded(f: string): string
    requires |f| <= DECIMALS
  {
    f + Zeros(DECIMALS - |f|)
  }

  /** The amount in millionths. */
  function Millionths(s: string): nat
    requires ValidText(s)
  {
    Number(Whole(s)) * 1_000_000 + Number(Padded(Fraction(s)))
  }

  function Pow10(n: nat): nat { if n == 0 then 1 else 10 * Pow10(n - 1) }

  lemma {:induction false} NumberBounds(s: string)
    requires Digits(s)
    ensures Number(s) < Pow10(|s|)
    ensures s != "" && s[0] != '0' ==> Pow10(|s| - 1) <= Number(s)
  {
    if s != "" {
      NumberBounds(s[..|s| - 1]);
    }
  }

  /** Numerals of one length are determined by their value. */
  lemma {:induction false} NumberInjective(a: string, b: string)
    requires Digits(a) && Digits(b) && |a| == |b| && Number(a) == Number(b)
    ensures a == b
  {
    if a != "" {
      var n := |a| - 1;
      NumberInjective(a[..n], b[..n]);
      assert a == a[..n] + [a[n]] && b == b[..n] + [b[n]];
    }
  }

  lemma {:induction false} Pow10Grows(m: nat, n: nat)
    requires m <= n
    ensures 1 <= Pow10(m) <= Pow10(n)
  {
    if m < n { Pow10Grows(m, n - 1); } else if m > 0 { Pow10Grows(m - 1, m - 1); }
  }

  lemma ShorterIsSmaller(a: string, b: string)
    requires ValidWhole(a) && ValidWhole(b) && |a| < |b|
    ensures Number(a) < Number(b)
  {
    NumberBounds(a);
    NumberBounds(b);
    Pow10Grows(|a|, |b| - 1);
  }

  /** Numerals without leading zeros are determined by their value. */
  lemma WholeInjective(a: string, b: string)
    requires ValidWhole(a) && ValidWhole(b) && Number(a) == Number(b)
    ensures a == b
  {
    hide Number;
    if |a| < |b| {
      ShorterIsSmaller(a, b);
    } else if |b| < |a| {
      ShorterIsSmaller(b, a);
    } else {
      NumberInjective(a, b);
    }
  }

  lemma {:induction false} StripKeepsPadding(f: string)
    requires |f| <= DECIMALS
    ensures |StripZeros(f)| <= |f| && Padded(StripZeros(f)) == Padded(f) && StripZeros(f) <= f
  {
    if f != "" && f[|f| - 1] == '0' {
      StripKeepsPadding(f[..|f| - 1]);
      assert Padded(f[..|f| - 1]) == Padded(f);
    }
  }

  lemma StripOne(f: string)
    ensures StripZeros(f + "0") == StripZeros(f)
  {
    assert (f + "0")[..|f|] == f;
  }

  lemma ZerosNext(n: nat)
    ensures Zeros(n + 1) == Zeros(n) + "0" && Zeros(0) == ""
  {}

  lemma {:induction false} PaddingIsStripped(f: string, n: nat)
    ensures StripZeros(f + Zeros(n)) == StripZeros(f)
  {
    hide Zeros, StripZeros;
    if n == 0 {
      ZerosNext(0);
      assert f + Zeros(0) == f;
    } else {
      ZerosNext(n - 1);
      assert f + Zeros(n) == f + Zeros(n - 1) + "0";
      StripOne(f + Zeros(n - 1));
      PaddingIsStripped(f, n - 1);
    }
  }

  lemma {:induction false} PointAfter(w: string, rest: string)
    requires forall i :: 0 <= i < |w| ==> w[i] != '.'
    ensures Point(w + rest) == |w| + Point(rest)
  {
    if w == "" {
      assert w + rest == rest;
    } else {
      PointAfter(w[1..], rest);
      assert (w + rest)[1..] == w[1..] + rest;
    }
  }

  /** Joining and splitting are inverse. */
  lemma JoinSplits(w: string, f: string)
    requires Digits(w)
    ensures Whole(Join(w, f)) == w && Fraction(Join(w, f)) == f
  {
    PointAfter(w, if f == "" then "" else "." + f);
    assert w + "." + f == w + ("." + f) && w + "" == w;
  }

  /** The result is again a valid amount, denotes the same number, and is its own canonical form. */
  lemma NormalizedIsCanonical(s: string)
    requires ValidText(s)
    ensures var r := NormalizedMoney(Some(s)).value;
            ValidText(r) && Millionths(r) == Millionths(s) && NormalizedMoney(Some(r)) == Some(r)
  {
    var w, f := Whole(s), Fraction(s);
    StripKeepsPadding(f);
    JoinSplits(w, StripZeros(f));
    StripTwice(f);
  }

  lemma {:induction false} StripTwice(f: string)
    ensures StripZeros(StripZeros(f)) == StripZeros(f)
  {
    if f != "" && f[|f| - 1] == '0' { StripTwice(f[..|f| - 1]); }
  }

  lemma SameParts(a: string, b: string)
    requires ValidText(a) && ValidText(b) && Millionths(a) == Millionths(b)
    ensures Whole(a) == Whole(b) && Padded(Fraction(a)) == Padded(Fraction(b))
  {
    var p, q := Padded(Fraction(a)), Padded(Fraction(b));
    NumberBounds(p);
    NumberBounds(q);
    assert Pow10(6) == 1_000_000;
    hide Number, Pow10, Whole, Fraction;
    WholeInjective(Whole(a), Whole(b));
    NumberInjective(p, q);
  }

  /** Two valid amounts normalise alike exactly when they are the same number. */
  lemma NormalizedIffEqual(a: string, b: string)
    requires ValidText(a) && ValidText(b)
    ensures NormalizedMoney(Some(a)) == NormalizedMoney(Some(b)) <==> Millionths(a) == Millionths(b)
  {
    hide Number, StripZeros, Whole, Zeros;
    if NormalizedMoney(Some(a)) == NormalizedMoney(Some(b)) {
      NormalizedIsCanonical(a);
      NormalizedIsCanonical(b);
    }
    if Millionths(a) == Millionths(b) {
      SameParts(a, b);
      PaddingIsStripped(Fraction(a), DECIMALS - |Fraction(a)|);
      PaddingIsStripped(Fraction(b), DECIMALS - |Fraction(b)|);
    }
  }
}
