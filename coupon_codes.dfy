/**
 * Coupon codes: twelve characters drawn from A-Z and 0-9, written in groups
 * of four separated by '-' ("XXXX-XXXX-XXXX"). Also an enumeration of the
 * whole code space, which shows that a fresh code exists whenever fewer codes
 * than the space holds are taken.
 */
module CouponCodes {
  const AlphabetSize: nat := 36
  const DefaultCodeLength: nat := 12
  /** 36^12, the number of distinct twelve-character codes. */
  const CodeSpace: nat := 4738381338321616896

  /** The i-th character of "ABCDEFGHIJKLMNOPQRSTUVWXYZ0123456789". */
  function AlphabetChar(i: nat): (c: char)
    requires i < AlphabetSize
    ensures IsAlphabetChar(c) && AlphabetIndex(c) == i
  {
    if i < 26 then ('A' as int + i) as char else ('0' as int + i - 26) as char
  }

  predicate IsAlphabetChar(c: char) {
    'A' <= c <= 'Z' || '0' <= c <= '9'
  }

  function AlphabetIndex(c: char): (i: nat)
    requires IsAlphabetChar(c)
    ensures i < AlphabetSize
  {
    if 'A' <= c <= 'Z' then c as int - 'A' as int else 26 + c as int - '0' as int
  }

  lemma AlphabetIndexInverse(c: char)
    requires IsAlphabetChar(c)
    ensures AlphabetChar(AlphabetIndex(c)) == c
  {
  }

  /** The number of dashes put into a code of `length` drawn characters. */
  function DashCount(length: nat): nat {
    if length == 0 then 0 else (length - 1) / 4
  }

  /**
   * The shape `generateRandomCode(length)` produces: a dash before every
   * fourth drawn character after the first, so at each position p with
   * p % 5 == 4, and an alphabet character everywhere else.
   */
  predicate IsGeneratedCode(s: string, length: nat) {
    && |s| == length + DashCount(length)
    && forall p :: 0 <= p < |s| ==> if p % 5 == 4 then s[p] == '-' else IsAlphabetChar(s[p])
  }

  /** A code of the default length: 14 characters, '-' at positions 4 and 9. */
  predicate IsCouponCode(s: string) {
    IsGeneratedCode(s, DefaultCodeLength)
  }

  lemma CouponCodeShape(s: string)
    requires IsCouponCode(s)
    ensures |s| == 14 && s[4] == '-' && s[9] == '-'
    ensures forall p :: 0 <= p < 14 && p != 4 && p != 9 ==> IsAlphabetChar(s[p])
  {
    assert |s| == 14;
    assert 4 % 5 == 4 && 9 % 5 == 4;
  }

  /**
   * `generateRandomCode(length)`: one character drawn from the alphabet per
   * step, a '-' first when the step is a positive multiple of 4. The draw
   * `chars.charAt(Math.floor(Math.random() * 36))` is any index below 36.
   */
  method GenerateRandomCode(length: nat) returns (code: string)
    ensures IsGeneratedCode(code, length)
  {
    code := "";
    var i := 0;
    while i < length
      invariant 0 <= i <= length
      invariant IsGeneratedCode(code, i)
    {
      if i > 0 && i % 4 == 0 {
        code := code + "-";
      }
      var index :| 0 <= index < AlphabetSize;
      code := code + [AlphabetChar(index)];
      i := i + 1;
    }
  }

  // ---------------------------------------------------------------------------
  // The code space
  // ---------------------------------------------------------------------------

  function Power36(n: nat): (p: nat)
    ensures p > 0
  {
    if n == 0 then 1 else 36 * Power36(n - 1)
  }

  /** `k` written with `n` base-36 digits, most significant first. */
  function Base36(k: nat, n: nat): (s: string)
    ensures |s| == n
    ensures forall i :: 0 <= i < n ==> IsAlphabetChar(s[i])
  {
    if n == 0 then [] else Base36(k / 36, n - 1) + [AlphabetChar(k % 36)]
  }

  function Base36Value(s: string): nat
    requires forall i :: 0 <= i < |s| ==> IsAlphabetChar(s[i])
  {
    if s == [] then 0 else Base36Value(s[..|s| - 1]) * 36 + AlphabetIndex(s[|s| - 1])
  }

  lemma {:induction false} Base36RoundTrip(k: nat, n: nat)
    requires k < Power36(n)
    ensures Base36Value(Base36(k, n)) == k
  {
    if n > 0 {
      var s := Base36(k, n);
      assert s[..n - 1] == Base36(k / 36, n - 1);
      Base36RoundTrip(k / 36, n - 1);
    }
  }

  /** The twelve digits grouped by dashes. */
  function Grouped(s: string): string
    requires |s| == 12
  {
    s[..4] + "-" + s[4..8] + "-" + s[8..]
  }

  function Ungrouped(s: string): string
    requires |s| == 14
  {
    s[..4] + s[5..9] + s[10..]
  }

  lemma UngroupedGrouped(s: string)
    requires |s| == 12
    ensures Ungrouped(Grouped(s)) == s
  {
    var g := Grouped(s);
    assert g[..4] == s[..4] && g[5..9] == s[4..8] && g[10..] == s[8..];
    assert s == s[..4] + s[4..8] + s[8..];
  }

  /** The k-th coupon code of the enumeration of all codes. */
  function CodeOf(k: nat): (c: string)
    requires k < CodeSpace
    ensures IsCouponCode(c)
  {
    var digits := Base36(k, 12);
    var c := Grouped(digits);
    forall p | 0 <= p < |c| ensures if p % 5 == 4 then c[p] == '-' else IsAlphabetChar(c[p]) {
      if p < 4 { assert c[p] == digits[p]; }
      else if 4 < p < 9 { assert c[p] == digits[p - 1]; }
      else if 9 < p { assert c[p] == digits[p - 2]; }
    }
    c
  }

  lemma CodeOfInjective(j: nat, k: nat)
    requires j < CodeSpace && k < CodeSpace && CodeOf(j) == CodeOf(k)
    ensures j == k
  {
    assert Power36(12) == CodeSpace;
    var dj, dk := Base36(j, 12), Base36(k, 12);
    UngroupedGrouped(dj);
    UngroupedGrouped(dk);
    Base36RoundTrip(j, 12);
    Base36RoundTrip(k, 12);
  }

  /** The first `k` codes of the enumeration. */
  function EnumeratedCodes(k: nat): (codes: set<string>)
    requires k <= CodeSpace
    ensures forall j :: 0 <= j < k ==> CodeOf(j) in codes
  {
    if k == 0 then {} else EnumeratedCodes(k - 1) + {CodeOf(k - 1)}
  }

  lemma {:induction false} EnumeratedCodesFrom(k: nat, c: string)
    requires k <= CodeSpace && c in EnumeratedCodes(k)
    ensures exists j :: 0 <= j < k && CodeOf(j) == c
  {
    if c != CodeOf(k - 1) {
      EnumeratedCodesFrom(k - 1, c);
    }
  }

  /** The enumeration never repeats a code, so its first `k` codes are `k` codes. */
  lemma {:induction false} EnumeratedCodesCount(k: nat)
    requires k <= CodeSpace
    ensures |EnumeratedCodes(k)| == k
  {
    if k > 0 {
      var before := EnumeratedCodes(k - 1);
      var last := CodeOf(k - 1);
      if last in before {
        EnumeratedCodesFrom(k - 1, last);
        var j :| 0 <= j < k - 1 && CodeOf(j) == last;
        CodeOfInjective(j, k - 1);
        assert false;
      }
      EnumeratedCodesCount(k - 1);
      assert EnumeratedCodes(k) == before + {last};
      assert |before + {last}| == |before| + 1;
    }
  }

  /** If the first k enumerated codes are all taken, at least k codes are taken. */
  lemma Pigeonhole(taken: set<string>, k: nat)
    requires k <= CodeSpace
    requires forall j :: 0 <= j < k ==> CodeOf(j) in taken
    ensures k <= |taken|
  {
    var first := EnumeratedCodes(k);
    forall c | c in first ensures c in taken {
      EnumeratedCodesFrom(k, c);
    }
    EnumeratedCodesCount(k);
    SubsetCardinality(first, taken);
  }

  lemma {:induction false} SubsetCardinality(a: set<string>, b: set<string>)
    requires a <= b
    ensures |a| <= |b|
    decreases |b|
  {
    if a != {} {
      var x :| x in a;
      SubsetCardinality(a - {x}, b - {x});
    }
  }

  /**
   * The do-while retry of `generateCoupons`: a first random draw, redrawn
   * while it is taken. The redraws are modelled as running through the code
   * space in order, which one sequence of random draws produces; they stop
   * because fewer codes than the space holds are taken.
   */
  method FreshCode(taken: set<string>) returns (code: string)
    requires |taken| < CodeSpace
    ensures IsCouponCode(code)
    ensures code !in taken
  {
    code := GenerateRandomCode(DefaultCodeLength);
    var k := 0;
    while code in taken
      invariant k <= |taken| + 1
      invariant IsCouponCode(code)
      invariant k > 0 ==> code == CodeOf(k - 1)
      invariant forall j :: 0 <= j < k - 1 ==> CodeOf(j) in taken
      decreases |taken| + 1 - k
    {
      Pigeonhole(taken, k);
      code := CodeOf(k);
      k := k + 1;
    }
  }
}
