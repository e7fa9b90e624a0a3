/** Drawing and printing six-digit codes (magic_code.rs). */
module MagicCode {
  import opened Base
  import opened EmailedCodes

  const U32_MAX: nat := 0xFFFF_FFFF
  const CODE_RANGE: nat := 1_000_000

  /** The last value of a whole number of ranges; draws past it are made again. */
  function Zone(range: nat): int
    requires 1 <= range <= U32_MAX
  {
    U32_MAX - (U32_MAX - range + 1) % range
  }

  /** `zone + 1` is the largest multiple of `range` that is not above 2^32, and more than half of all
      draws are within it. The subtractions and the addition stay within 32 bits. */
  lemma ZoneIsLargestMultiple(range: nat)
    requires 1 <= range <= U32_MAX
    ensures 0 <= U32_MAX - range && U32_MAX - range + 1 <= U32_MAX && 0 <= Zone(range) <= U32_MAX
    ensures (Zone(range) + 1) % range == 0
    ensures forall m: nat :: m * range <= U32_MAX + 1 ==> m * range <= Zone(range) + 1
    ensures U32_MAX + 1 < 2 * (Zone(range) + 1)
  {
    var q := (U32_MAX - range + 1) / range;
    assert Zone(range) + 1 == (q + 1) * range;
    MultipleHasNoRest(q + 1, range);
    forall m: nat | m * range <= U32_MAX + 1
      ensures m * range <= Zone(range) + 1
    {
      if q + 1 < m { MultiplesGrow(q + 2, m, range); } else { MultiplesGrow(m, q + 1, range); }
    }
    assert range <= (q + 1) * range by { MultiplesGrow(1, q + 1, range); }
    assert (q + 2) * range == (q + 1) * range + range;
  }

  lemma MultiplesGrow(a: nat, b: nat, range: nat)
    requires a <= b
    ensures a * range <= b * range
  {
  }

  lemma {:induction false} MultipleHasNoRest(m: nat, range: nat)
    requires 1 <= range
    ensures (m * range) % range == 0
  {
    if m > 0 {
      MultipleHasNoRest(m - 1, range);
      assert m * range == (m - 1) * range + range;
      RestOfNext((m - 1) * range, range);
    }
  }

  lemma RestOfNext(a: nat, range: nat)
    requires 1 <= range
    ensures (a + range) % range == a % range
  {
    var q := a / range;
    assert a == q * range + a % range;
    assert a + range == (q + 1) * range + a % range;
    assert (a + range) / range == q + 1 by { QuotientIsUnique(a + range, q + 1, a % range, range); }
  }

  lemma QuotientIsUnique(a: nat, q: nat, r: nat, range: nat)
    requires 1 <= range && r < range && a == q * range + r
    ensures a / range == q && a % range == r
  {
    var p := a / range;
    assert a == p * range + a % range;
    if p < q { MultiplesGrow(p + 1, q, range); } else if q < p { MultiplesGrow(q + 1, p, range); }
  }

  // ---- Counting draws ----

  /** Draws below `n` that come out as `k`. */
  function Draws(range: nat, k: nat, n: nat): nat
    requires 1 <= range
  {
    if n == 0 then 0 else Draws(range, k, n - 1) + if (n - 1) % range == k then 1 else 0
  }

  /** One whole range past a multiple of it holds each value once. */
  lemma {:induction false} OneMoreRange(range: nat, k: nat, q: nat, r: nat)
    requires k < range && r <= range
    ensures Draws(range, k, q * range + r) == Draws(range, k, q * range) + if k < r then 1 else 0
  {
    if r > 0 {
      OneMoreRange(range, k, q, r - 1);
      QuotientIsUnique(q * range + (r - 1), q, r - 1, range);
    }
  }

  lemma {:induction false} WholeRanges(range: nat, k: nat, q: nat)
    requires k < range
    ensures Draws(range, k, q * range) == q
  {
    if q > 0 {
      WholeRanges(range, k, q - 1);
      OneMoreRange(range, k, q - 1, range);
      assert (q - 1) * range + range == q * range;
    }
  }

  /** Exactly uniform: every value below `range` has the same number of accepted draws. */
  lemma RandomBelowIsUniform(range: nat, k: nat)
    requires 1 <= range <= U32_MAX && k < range
    ensures 0 <= Zone(range)
    ensures Draws(range, k, Zone(range) + 1) == (Zone(range) + 1) / range
  {
    ZoneIsLargestMultiple(range);
    var q := (Zone(range) + 1) / range;
    assert Zone(range) + 1 == q * range;
    WholeRanges(range, k, q);
  }

  // ---- The loop ----

  type Byte = b: nat | b < 256

  /** `u32::from_le_bytes`. */
  function FromLe(b: (Byte, Byte, Byte, Byte)): (v: nat)
    ensures v <= U32_MAX
  {
    b.0 + 256 * (b.1 + 256 * (b.2 + 256 * b.3))
  }

  function ToLe(v: nat): (Byte, Byte, Byte, Byte)
    requires v <= U32_MAX
  {
    (v % 256, v / 256 % 256, v / 256 / 256 % 256, v / 256 / 256 / 256)
  }

  /** Four random bytes are a uniform 32-bit value: decoding is one to one and onto. */
  lemma DrawIsABijection(b: (Byte, Byte, Byte, Byte), v: nat)
    requires v <= U32_MAX
    ensures ToLe(FromLe(b)) == b
    ensures FromLe(ToLe(v)) == v
  {
    LowByte(b.0, b.1 + 256 * (b.2 + 256 * b.3));
    LowByte(b.1, b.2 + 256 * b.3);
    LowByte(b.2, b.3);
  }

  lemma LowByte(low: Byte, high: nat)
    ensures (low + 256 * high) % 256 == low && (low + 256 * high) / 256 == high
  {
  }

  predicate Accepts(range: nat, b: (Byte, Byte, Byte, Byte))
    requires 1 <= range <= U32_MAX
  {
    FromLe(b) <= Zone(range)
  }

  /** The draw loop over the bytes the generator gives, None while every one so far was past the zone. */
  method RandomBelow(range: nat, bytes: seq<(Byte, Byte, Byte, Byte)>) returns (r: Option<nat>)
    requires 1 <= range <= U32_MAX
    ensures r.None? <==> forall i :: 0 <= i < |bytes| ==> !Accepts(range, bytes[i])
    ensures r.Some? ==>
      r.value < range &&
      exists i :: 0 <= i < |bytes| && Accepts(range, bytes[i]) && r.value == FromLe(bytes[i]) % range &&
                  forall j :: 0 <= j < i ==> !Accepts(range, bytes[j])
  {
    var zone := U32_MAX - (U32_MAX - range + 1) % range;
    for i := 0 to |bytes|
      invariant forall j :: 0 <= j < i ==> !Accepts(range, bytes[j])
    {
      var value := FromLe(bytes[i]);
      if value <= zone {
        return Some(value % range);
      }
    }
    return None;
  }

  // ---- Printing ----

  function Digit(d: nat): char
    requires d < 10
  {
    '0' + d as char
  }

  function Decimal(v: nat): string {
    if v < 10 then [Digit(v)] else Decimal(v / 10) + [Digit(v % 10)]
  }

  function Zeros(n: nat): string {
    if n == 0 then [] else ['0'] + Zeros(n - 1)
  }

  /** `format!("{:06}", v)`: at least six digits. */
  function Printed(v: nat): string {
    var s := Decimal(v);
    if |s| < 6 then Zeros(6 - |s|) + s else s
  }

  predicate IsDigits(s: string) {
    forall i :: 0 <= i < |s| ==> '0' <= s[i] <= '9'
  }

  function Value(s: string): nat
    requires IsDigits(s)
  {
    if s == [] then 0 else 10 * Value(s[..|s| - 1]) + (s[|s| - 1] as nat - '0' as nat)
  }

  function Pow10(k: nat): nat {
    if k == 0 then 1 else 10 * Pow10(k - 1)
  }

  lemma {:induction false} DecimalValue(v: nat, k: nat)
    requires v < Pow10(k) && 1 <= k
    ensures 1 <= |Decimal(v)| <= k && IsDigits(Decimal(v)) && Value(Decimal(v)) == v
  {
    if v >= 10 {
      DecimalValue(v / 10, k - 1);
      var s := Decimal(v);
      assert s[..|s| - 1] == Decimal(v / 10);
    }
  }

  lemma {:induction false} ZerosCountForNothing(n: nat, s: string)
    requires IsDigits(s)
    ensures |Zeros(n)| == n && IsDigits(Zeros(n) + s) && Value(Zeros(n) + s) == Value(s)
  {
    if s == [] {
      assert Zeros(n) + s == Zeros(n);
      ZerosAreZero(n);
    } else {
      var front := s[..|s| - 1];
      ZerosCountForNothing(n, front);
      var t := Zeros(n) + s;
      assert t[..|t| - 1] == Zeros(n) + front;
    }
  }

  lemma {:induction false} ZerosAreZero(n: nat)
    ensures |Zeros(n)| == n && (forall i :: 0 <= i < n ==> Zeros(n)[i] == '0') && Value(Zeros(n)) == 0
  {
    if n > 0 {
      ZerosAreZero(n - 1);
      assert Zeros(n)[..n - 1] == Zeros(n - 1);
    }
  }

  lemma {:induction false} ValueIsBelow(s: string)
    requires IsDigits(s)
    ensures Value(s) < Pow10(|s|)
  {
    if s != [] { ValueIsBelow(s[..|s| - 1]); }
  }

  lemma {:induction false} ValueIsInjective(s: string, t: string)
    requires IsDigits(s) && IsDigits(t) && |s| == |t| && Value(s) == Value(t)
    ensures s == t
  {
    if s != [] {
      var n := |s| - 1;
      ValueIsInjective(s[..n], t[..n]);
      assert s == s[..n] + [s[n]] && t == t[..n] + [t[n]];
    }
  }

  lemma PrintedValue(v: nat)
    requires v < CODE_RANGE
    ensures IsWellFormed(Printed(v)) && IsDigits(Printed(v)) && Value(Printed(v)) == v
  {
    assert Pow10(6) == CODE_RANGE;
    DecimalValue(v, 6);
    ZerosCountForNothing(6 - |Decimal(v)|, Decimal(v));
  }

  /** Printing with leading zeros is a bijection from the values below 10^6 to the well-formed codes. */
  lemma PrintingIsABijection(v: nat, code: string)
    requires v < CODE_RANGE && IsWellFormed(code)
    ensures IsWellFormed(Printed(v)) && Value(Printed(v)) == v
    ensures Value(code) < CODE_RANGE && Printed(Value(code)) == code
  {
    PrintedValue(v);
    assert Pow10(6) == CODE_RANGE;
    ValueIsBelow(code);
    PrintedValue(Value(code));
    ValueIsInjective(Printed(Value(code)), code);
  }

  // ---- Generated codes ----

  /** Accepted draws below `n` that print as `code`. */
  function Prints(code: string, n: nat): nat {
    if n == 0 then 0 else Prints(code, n - 1) + if Printed((n - 1) % CODE_RANGE) == code then 1 else 0
  }

  lemma {:induction false} PrintsAreDraws(code: string, n: nat)
    requires IsWellFormed(code)
    ensures Prints(code, n) == Draws(CODE_RANGE, Value(code), n)
  {
    if n > 0 {
      PrintsAreDraws(code, n - 1);
      PrintingIsABijection((n - 1) % CODE_RANGE, code);
    }
  }

  /** Every six-digit code comes from exactly 4294 of the accepted draws: none is likelier than another. */
  lemma EveryCodeIsEquallyLikely(code: string)
    requires IsWellFormed(code)
    ensures 0 <= Zone(CODE_RANGE) && Prints(code, Zone(CODE_RANGE) + 1) == 4294
  {
    hide Prints; hide Draws; hide Printed; hide Value;
    assert Zone(CODE_RANGE) + 1 == 4294 * CODE_RANGE;
    PrintingIsABijection(0, code);
    RandomBelowIsUniform(CODE_RANGE, Value(code));
    PrintsAreDraws(code, Zone(CODE_RANGE) + 1);
  }
}
