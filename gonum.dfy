// Go's fixed-width integers as the evaluator uses them: 64-bit `int` arithmetic
// that wraps around, division and remainder that truncate toward zero, the
// conversions of the narrower integer types to `int`, and `strconv.Atoi`.
module GoInt {
  import opened Common

  const Two64: int := 0x1_0000_0000_0000_0000
  const MinInt64: int := -0x8000_0000_0000_0000
  const MaxInt64: int := 0x7FFF_FFFF_FFFF_FFFF

  /** Go's `int` on a 64-bit platform (also `int64`). */
  type Int64 = x: int | MinInt64 <= x <= MaxInt64
  type Int8 = x: int | -0x80 <= x < 0x80
  type Int16 = x: int | -0x8000 <= x < 0x8000
  type Int32 = x: int | -0x8000_0000 <= x < 0x8000_0000
  /** Go's `uint` on a 64-bit platform (also `uint64`). */
  type Uint64 = x: int | 0 <= x < 0x1_0000_0000_0000_0000
  type Uint8 = x: int | 0 <= x < 0x100
  type Uint16 = x: int | 0 <= x < 0x1_0000
  type Uint32 = x: int | 0 <= x < 0x1_0000_0000

  /** The two's-complement reading of the low 64 bits of `x`: what a Go `int`
      holds after an operation whose exact result is `x`, and what `int(v)` gives
      for a `uint` value `v`. */
  function Wrap64(x: int): (r: Int64)
    ensures (r - x) % Two64 == 0
    ensures MinInt64 <= x <= MaxInt64 ==> r == x
  {
    var m := x % Two64;
    if m <= MaxInt64 then m else m - Two64
  }

  /** Wrap-around is determined by the value modulo 2^64: it is the unique
      representative in the `int` range. */
  lemma WrapUnique(x: int, r: int)
    requires MinInt64 <= r <= MaxInt64 && (r - x) % Two64 == 0
    ensures Wrap64(x) == r
  {
    var w := Wrap64(x);
    assert (w - r) % Two64 == 0 by {
      assert w - r == (w - x) - (r - x);
    }
    assert -Two64 < w - r < Two64;
  }

  /** Converting an unsigned 64-bit value to `int` keeps values below 2^63 and
      subtracts 2^64 from the others. */
  lemma UintToInt(v: Uint64)
    ensures Wrap64(v) == if v <= MaxInt64 then v else v - Two64
  {
    if v > MaxInt64 {
      WrapUnique(v, v - Two64);
    }
  }

  /** Go's unary `-` on `int`. */
  function Neg(a: Int64): (r: Int64)
  {
    Wrap64(0 - a as int)
  }

  /** Go's `+`, `-` and `*` on `int`: the exact result, wrapped. */
  function Add(a: Int64, b: Int64): Int64 { Wrap64(a as int + b as int) }
  function Sub(a: Int64, b: Int64): Int64 { Wrap64(a as int - b as int) }
  function Mul(a: Int64, b: Int64): Int64 { Wrap64(a as int * b as int) }

  /** Negating the most negative `int` gives it back; negating any other value is exact. */
  lemma NegateWraps(a: Int64)
    ensures a == MinInt64 ==> Neg(a) == MinInt64
    ensures a != MinInt64 ==> Neg(a) == -a
  {
    if a == MinInt64 {
      WrapUnique(0 - a as int, MinInt64);
    }
  }

  /** Negating twice gives the value back, even at the most negative `int`. */
  lemma DoubleNegation(a: Int64)
    ensures Neg(Neg(a)) == a
  {
    NegateWraps(a);
    NegateWraps(Neg(a));
  }

  /** Addition and subtraction wrap: MaxInt64 + 1 is MinInt64, and subtracting is
      adding the negation. */
  lemma AddWraps(a: Int64, b: Int64)
    ensures Add(MaxInt64, 1) == MinInt64
    ensures Sub(a, b) == Add(a, Neg(b))
  {
    WrapUnique(MaxInt64 + 1, MinInt64);
    var n := Neg(b);
    assert (n - (0 - b as int)) % Two64 == 0;
    var s := Add(a, n);
    assert (s - (a as int + n as int)) % Two64 == 0;
    ModSum(s - (a as int + n as int), n - (0 - b as int));
    assert s - (a as int - b as int) == (s - (a as int + n as int)) + (n - (0 - b as int));
    WrapUnique(a as int - b as int, s);
  }

  /** Sums of multiples of 2^64 are multiples of 2^64. */
  lemma ModSum(x: int, y: int)
    requires x % Two64 == 0 && y % Two64 == 0
    ensures (x + y) % Two64 == 0
  {
  }

  function Abs(x: int): nat
  {
    if x < 0 then -x else x
  }

  /** The exact quotient of `a` by `b`, truncated toward zero (Dafny's own `/` is Euclidean). */
  function TruncQuot(a: int, b: int): int
    requires b != 0
  {
    var q := Abs(a) / Abs(b);
    if (a < 0) != (b < 0) then -q else q
  }

  /** Go's `a / b` on `int`, for `b != 0` (Go panics on 0). The only quotient
      outside the range, MinInt64 / -1, wraps to MinInt64. */
  function GoQuot(a: Int64, b: Int64): (q: Int64)
    requires b != 0
    ensures a == MinInt64 && b == -1 ==> q == MinInt64
    ensures !(a == MinInt64 && b == -1) ==> q == TruncQuot(a, b)
  {
    var t := TruncQuot(a, b);
    QuotientRange(a, b);
    if a == MinInt64 && b == -1 then WrapUnique(t, MinInt64); Wrap64(t) else Wrap64(t)
  }

  /** The truncated quotient is at most `|a|` in size, and only MinInt64 / -1 leaves the range. */
  lemma QuotientRange(a: Int64, b: Int64)
    requires b != 0
    ensures !(a == MinInt64 && b == -1) ==> MinInt64 <= TruncQuot(a, b) <= MaxInt64
    ensures a == MinInt64 && b == -1 ==> TruncQuot(a, b) == -MinInt64
  {
    var q := Abs(a) / Abs(b);
    assert q <= Abs(a) by {
      DivBound(Abs(a), Abs(b));
    }
    if q == Abs(a) && Abs(a) > 0 {
      DivExact(Abs(a), Abs(b));
    }
  }

  lemma DivBound(x: nat, y: nat)
    requires y >= 1
    ensures x / y <= x
  {
  }

  lemma DivExact(x: nat, y: nat)
    requires y >= 1 && x > 0 && x / y == x
    ensures y == 1
  {
  }

  /** Go's `a % b` on `int`, for `b != 0`: the remainder of truncated division,
      which has the size of the Euclidean remainder of `|a|` by `|b|` and the sign of `a`. */
  function GoRem(a: Int64, b: Int64): (r: Int64)
    requires b != 0
    ensures Abs(r) < Abs(b)
    ensures r == 0 || (r < 0 <==> a < 0)
  {
    var m := Abs(a) % Abs(b);
    if a < 0 then -m else m
  }

  /** The truncated quotient and the remainder recombine exactly: `t*b + r == a`. */
  lemma TruncIdentity(a: Int64, b: Int64)
    requires b != 0
    ensures TruncQuot(a, b) * b + GoRem(a, b) == a
  {
    var x: int, y: int := Abs(a), Abs(b);
    var q: int, m: int := x / y, x % y;
    assert x == y * q + m;
    var t := TruncQuot(a, b);
    assert t == if (a < 0) != (b < 0) then -q else q;
    SignedProduct(a, b, q);
    assert t * b == if a < 0 then -(y * q) else y * q;
    assert GoRem(a, b) == if a < 0 then -m else m;
  }

  /** The identity the Go specification requires of `/` and `%`: `q*b + r == a`
      with `|r| < |b|`, exactly except for MinInt64 / -1, where it holds once the
      product wraps. */
  lemma QuotRemIdentity(a: Int64, b: Int64)
    requires b != 0
    ensures !(a == MinInt64 && b == -1) ==> GoQuot(a, b) * b + GoRem(a, b) == a
    ensures Add(Mul(GoQuot(a, b), b), GoRem(a, b)) == a
  {
    TruncIdentity(a, b);
    if a == MinInt64 && b == -1 {
      assert GoRem(a, b) == 0;
      WrapUnique(MinInt64 as int * -1, MinInt64);
    } else {
      var p := GoQuot(a, b) as int * b as int;
      assert MinInt64 <= p <= MaxInt64 by {
        assert p == a - GoRem(a, b);
      }
    }
  }

  lemma SignedProduct(a: int, b: int, q: int)
    requires b != 0 && q >= 0
    ensures (if (a < 0) != (b < 0) then -q else q) * b
         == if a < 0 then -(Abs(b) * q) else Abs(b) * q
  {
    if b < 0 {
      assert Abs(b) == -b;
      assert (-q) * b == Abs(b) * q;
      assert q * b == -(Abs(b) * q);
    }
  }

  // ----------------------------------------------------------------------------
  // strconv.Atoi

  /** The value of a run of decimal digits, most significant first. */
  function DigitsValue(s: string): nat
    requires forall k :: 0 <= k < |s| ==> '0' <= s[k] <= '9'
  {
    if s == [] then 0
    else 10 * DigitsValue(s[..|s| - 1]) + (s[|s| - 1] as int - '0' as int)
  }

  predicate AllDigits(s: string)
  {
    forall k :: 0 <= k < |s| ==> '0' <= s[k] <= '9'
  }

  /** Go's `strconv.Atoi` on a 64-bit platform: an optional sign, then one or more
      decimal digits, whose value must lie in the `int` range (otherwise a syntax
      or range error, both `None` here). */
  function Atoi(s: string): (r: Option<Int64>)
    ensures r.Some? ==> s != [] && AllDigits(if s[0] in "+-" then s[1..] else s)
  {
    if s == [] then None
    else
      var neg := s[0] == '-';
      var digits := if s[0] == '+' || s[0] == '-' then s[1..] else s;
      if digits == [] || !AllDigits(digits) then None
      else
        var d: int := DigitsValue(digits);
        var v := if neg then -d else d;
        if MinInt64 <= v <= MaxInt64 then Some(v) else None
  }

  /** The decimal spelling of a natural number, without leading zeros. */
  function NatDigits(n: nat): (s: string)
    ensures s != [] && AllDigits(s)
    decreases n
  {
    var d := ['0' + ((n % 10) as char)];
    if n < 10 then d else NatDigits(n / 10) + d
  }

  lemma {:induction false} NatDigitsValue(n: nat)
    ensures DigitsValue(NatDigits(n)) == n
    decreases n
  {
    var s := NatDigits(n);
    if n >= 10 {
      NatDigitsValue(n / 10);
      assert s[..|s| - 1] == NatDigits(n / 10);
    }
  }

  /** `strconv.Itoa`: the decimal spelling of an `int`, with a leading `-` when negative. */
  function Itoa(n: Int64): (s: string)
    ensures s != []
  {
    if n < 0 then "-" + NatDigits(Abs(n)) else NatDigits(n)
  }

  /** Decoding the decimal spelling of any `int` gives it back. */
  lemma AtoiItoa(n: Int64)
    ensures Atoi(Itoa(n)) == Some(n)
  {
    NatDigitsValue(Abs(n));
    var s := Itoa(n);
    var d := NatDigits(Abs(n));
    if n < 0 {
      assert s[0] == '-' && s[1..] == d;
      assert Atoi(s) == Some(0 - DigitsValue(d));
    } else {
      assert s == d && '0' <= s[0] <= '9';
      assert Atoi(s) == Some(DigitsValue(d));
    }
  }

  /** A plain digit run, as the scanner delivers for an Integer token, decodes to
      its value when that value fits in an `int` and fails otherwise. */
  lemma AtoiOfDigitRun(s: string)
    requires s != [] && AllDigits(s)
    ensures Atoi(s) == if DigitsValue(s) <= MaxInt64 then Some(DigitsValue(s)) else None
  {
  }

  /** Spellings that `strconv.Atoi` rejects: no digits, a sign alone, a non-digit, a space. */
  lemma AtoiRejects()
    ensures Atoi("") == None && Atoi("-") == None && Atoi("+") == None
    ensures Atoi("1a") == None && Atoi(" 1") == None && Atoi("--1") == None
  {
  }
}
