/** `strconv.ParseUint(s, 0, 64)`, the parser that `splitUintIds` applies
    to every identifier segment: base 0 picks the base from the prefix
    (`0b`/`0B` binary, `0o`/`0O` octal, `0x`/`0X` hexadecimal, any other
    leading `0` octal, else decimal) and the value must fit in 64 bits. */
module UintSyntax {
  import opened Wrappers
  import Text

  const Modulus: int := 0x1_0000_0000_0000_0000
  const MaxUint64: int := 0xFFFF_FFFF_FFFF_FFFF

  type Uint64 = x: int | 0 <= x < Modulus

  /** `strconv.ErrSyntax` and `strconv.ErrRange`; both name the segment. */
  datatype NumError = SyntaxError(segment: string) | RangeError(segment: string)

  /** Go's `lower(c)`, which only matters for ASCII letters. */
  function Lower(c: char): char
  {
    Text.LowerChar(c)
  }

  /** Value of one digit character; 36 (no digit in any base used here)
      for a character that is neither a decimal digit nor a letter. */
  function DigitValue(c: char): (d: nat)
    ensures d <= 36
  {
    if '0' <= c <= '9' then c as int - '0' as int
    else if 'a' <= Lower(c) <= 'z' then Lower(c) as int - 'a' as int + 10
    else 36
  }

  /** The base chosen by base 0 and the digits left after the prefix. */
  function BaseAndDigits(s: string): (r: (nat, string))
    requires s != []
    ensures r.0 in {2, 8, 10, 16}
    ensures |r.1| < |s|  || r.0 == 10
  {
    if s[0] != '0' then (10, s)
    else if |s| >= 3 && Lower(s[1]) == 'b' then (2, s[2..])
    else if |s| >= 3 && Lower(s[1]) == 'o' then (8, s[2..])
    else if |s| >= 3 && Lower(s[1]) == 'x' then (16, s[2..])
    else (8, s[1..])
  }

  /** The digit loop of `ParseUint` on 64-bit words: a digit not below the
      base is a syntax error; a product that reaches the cutoff, or a sum
      that wraps around, is a range error. */
  function Accumulate(s0: string, base: nat, digits: string, n: Uint64): (r: Result<Uint64, NumError>)
    requires 2 <= base <= 36
    ensures r.Err? ==> r.error.segment == s0
    ensures r.Err? && r.error.SyntaxError? ==> !AllDigits(base, digits)
    decreases |digits|
  {
    if digits == [] then Ok(n)
    else
      var d := DigitValue(digits[0]);
      if d >= base then Err(SyntaxError(s0))
      else if n >= MaxUint64 / base + 1 then Err(RangeError(s0))
      else
        MulBelowCutoff(n, base);
        var m := n * base;
        // uint64 addition wraps around; with bitSize 64 the wrap is the
        // only way the sum can exceed the maximum value
        var n1 := (m + d) % Modulus;
        if n1 < m then Err(RangeError(s0))
        else Accumulate(s0, base, digits[1..], n1)
  }

  /** `strconv.ParseUint(s, 0, 64)`, underscores aside. */
  function ParseUint(s: string): (r: Result<Uint64, NumError>)
    ensures r.Err? ==> r.error.segment == s
    ensures r.Err? && r.error.SyntaxError? ==>
      s == [] || !AllDigits(BaseAndDigits(s).0, BaseAndDigits(s).1)
  {
    if s == [] then Err(SyntaxError(s))
    else
      var (base, digits) := BaseAndDigits(s);
      Accumulate(s, base, digits, 0)
  }

  lemma MulBelowCutoff(n: nat, base: nat)
    requires 2 <= base && n < MaxUint64 / base + 1
    ensures n * base <= MaxUint64
  {
    var q := MaxUint64 / base;
    assert n <= q;
    assert n * base <= q * base;
  }

  lemma MulAboveCutoff(n: nat, base: nat)
    requires 2 <= base && n >= MaxUint64 / base + 1
    ensures n * base > MaxUint64
  {
    var q := MaxUint64 / base;
    assert n * base >= (q + 1) * base;
  }

  // ---------------------------------------------------------------------
  // Reference definition: positional notation over unbounded naturals.

  predicate AllDigits(base: nat, digits: string)
  {
    forall k | 0 <= k < |digits| :: DigitValue(digits[k]) < base
  }

  /** The number the digits denote in the given base. */
  function Value(base: nat, digits: string): nat
  {
    if digits == [] then 0
    else Value(base, digits[..|digits| - 1]) * base + DigitValue(digits[|digits| - 1])
  }

  lemma ValueAppend(base: nat, digits: string, c: char)
    ensures Value(base, digits + [c]) == Value(base, digits) * base + DigitValue(c)
  {
    assert (digits + [c])[..|digits|] == digits;
  }

  lemma MulGrows(a: nat, b: nat)
    requires b >= 1
    ensures a * b >= a
  {
  }

  /** Appending digits never makes a number smaller. */
  lemma {:induction false} ValueMonotone(base: nat, p: string, q: string)
    requires base >= 1
    ensures Value(base, p + q) >= Value(base, p)
  {
    if q == [] {
      assert p + q == p;
    } else {
      var q' := q[..|q| - 1];
      var c := q[|q| - 1];
      assert p + q == (p + q') + [c];
      ValueAppend(base, p + q', c);
      ValueMonotone(base, p, q');
      MulGrows(Value(base, p + q'), base);
    }
  }

  /** One step of the digit loop that stays in range. */
  lemma AccumulateStep(s0: string, base: nat, digits: string, n: Uint64)
    requires 2 <= base <= 36 && digits != []
    requires DigitValue(digits[0]) < base && n * base + DigitValue(digits[0]) <= MaxUint64
    ensures Accumulate(s0, base, digits, n)
         == Accumulate(s0, base, digits[1..], n * base + DigitValue(digits[0]))
  {
    var d := DigitValue(digits[0]);
    MulGrows(n, base);
    if n >= MaxUint64 / base + 1 {
      MulAboveCutoff(n, base);
      assert false;
    }
    assert (n * base + d) % Modulus == n * base + d;
  }

  /** One step of the digit loop that leaves the range. */
  lemma AccumulateOverflow(s0: string, base: nat, digits: string, n: Uint64)
    requires 2 <= base <= 36 && digits != []
    requires DigitValue(digits[0]) < base && n * base + DigitValue(digits[0]) > MaxUint64
    ensures Accumulate(s0, base, digits, n) == Err(RangeError(s0))
  {
    var d := DigitValue(digits[0]);
    if n < MaxUint64 / base + 1 {
      MulBelowCutoff(n, base);
      var m := n * base;
      assert m + d < 2 * Modulus;
      assert (m + d) % Modulus == m + d - Modulus;
    }
  }

  /** The digit loop computes `Value` of everything read so far, and
      succeeds exactly when every digit is valid and that value fits. */
  lemma {:induction false} AccumulateValue(s0: string, base: nat, read: string, digits: string)
    requires 2 <= base <= 36
    requires AllDigits(base, read) && Value(base, read) <= MaxUint64
    ensures var r := Accumulate(s0, base, digits, Value(base, read));
      (r.Ok? <==> AllDigits(base, read + digits) && Value(base, read + digits) <= MaxUint64)
      && (r.Ok? ==> r.value == Value(base, read + digits))
    decreases |digits|
  {
    var n := Value(base, read);
    if digits == [] {
      assert read + digits == read;
    } else {
      var c := digits[0];
      var d := DigitValue(c);
      var read' := read + [c];
      ValueAppend(base, read, c);
      assert read + digits == read' + digits[1..];
      if d >= base {
        assert (read + digits)[|read|] == c;
      } else if Value(base, read') > MaxUint64 {
        AccumulateOverflow(s0, base, digits, n);
        ValueMonotone(base, read', digits[1..]);
      } else {
        AccumulateStep(s0, base, digits, n);
        assert AllDigits(base, read');
        AccumulateValue(s0, base, read', digits[1..]);
      }
    }
  }

  /** `ParseUint` accepts exactly the non-empty strings whose digits after
      the base prefix are all valid and denote a value below 2^64, and
      then returns that value. */
  lemma ParseUintCorrect(s: string)
    ensures s == [] ==> ParseUint(s) == Err(SyntaxError(s))
    ensures s != [] ==>
      var (base, digits) := BaseAndDigits(s);
      (ParseUint(s).Ok? <==> AllDigits(base, digits) && Value(base, digits) <= MaxUint64)
      && (ParseUint(s).Ok? ==> ParseUint(s).value == Value(base, digits))
  {
    if s != [] {
      var (base, digits) := BaseAndDigits(s);
      AccumulateValue(s, base, [], digits);
      assert [] + digits == digits;
    }
  }

  /** A segment made of valid digits that is too large is a range error,
      not a syntax error. */
  lemma ParseUintRange(s: string)
    requires s != []
    requires AllDigits(BaseAndDigits(s).0, BaseAndDigits(s).1)
    requires Value(BaseAndDigits(s).0, BaseAndDigits(s).1) > MaxUint64
    ensures ParseUint(s) == Err(RangeError(s))
  {
    ParseUintCorrect(s);
  }

  // ---------------------------------------------------------------------
  // Round trip with decimal formatting (`strconv.FormatUint(v, 10)`).

  function DecimalChar(d: nat): char
    requires d < 10
  {
    ('0' as int + d) as char
  }

  function Decimal(v: nat): (s: string)
    ensures s != []
  {
    if v < 10 then [DecimalChar(v)] else Decimal(v / 10) + [DecimalChar(v % 10)]
  }

  lemma {:induction false} DecimalDigits(v: nat)
    ensures AllDigits(10, Decimal(v)) && Value(10, Decimal(v)) == v
    ensures v > 0 ==> Decimal(v)[0] != '0'
  {
    if v >= 10 {
      DecimalDigits(v / 10);
      ValueAppend(10, Decimal(v / 10), DecimalChar(v % 10));
      assert (Decimal(v / 10) + [DecimalChar(v % 10)])[0] == Decimal(v / 10)[0];
    }
  }

  /** Every 64-bit value printed in decimal parses back to itself. */
  lemma DecimalRoundTrip(v: Uint64)
    ensures ParseUint(Decimal(v)) == Ok(v)
  {
    DecimalDigits(v);
    ParseUintCorrect(Decimal(v));
  }
}
