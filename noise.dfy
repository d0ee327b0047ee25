/// The seeded pseudo-noise used for biome assignment: a 32-bit string hash
/// for the seed and a sine-based hash folded into [-1, 1).
module Noise {

  const TwoTo31: int := 0x8000_0000
  const TwoTo32: int := 0x1_0000_0000

  /// One UTF-16 code unit; a JavaScript string is a sequence of these, and
  /// `charCodeAt(i)` reads the i-th.
  type CodeUnit = c: int | 0 <= c < 0x1_0000

  predicate IsInt32(x: int)
  {
    -TwoTo31 <= x < TwoTo31
  }

  /// ToInt32 of section 7.1.6 of ECMA-262, on an integral argument: reduce
  /// modulo 2^32 and read the result as a signed 32-bit integer.
  function ToInt32(x: int): (r: int)
    ensures IsInt32(r)
    ensures (x - r) % TwoTo32 == 0
  {
    var m := x % TwoTo32;
    if m >= TwoTo31 then m - TwoTo32 else m
  }

  /// ToUint32 of section 7.1.7 of ECMA-262, on an integral argument.
  function ToUint32(x: int): (r: int)
    ensures 0 <= r < TwoTo32
    ensures (x - r) % TwoTo32 == 0
  {
    x % TwoTo32
  }

  /// `a << n`: both operands converted, the count taken modulo 32
  /// (section 13.9.1 of ECMA-262).
  function ShiftLeft(a: int, n: int): (r: int)
    ensures IsInt32(r)
  {
    ToInt32(ToInt32(a) * Pow2(ToUint32(n) % 32))
  }

  function Pow2(k: nat): (r: nat)
    ensures r >= 1
  {
    if k == 0 then 1 else 2 * Pow2(k - 1)
  }

  lemma {:induction false} Pow2Add(a: nat, b: nat)
    ensures Pow2(a + b) == Pow2(a) * Pow2(b)
  {
    if a > 0 {
      Pow2Add(a - 1, b);
      assert Pow2(a + b) == 2 * Pow2(a - 1 + b);
    }
  }

  lemma Pow2Of32()
    ensures Pow2(32) == TwoTo32
  {
    assert Pow2(4) == 16;
    Pow2Add(4, 4);
    Pow2Add(8, 8);
    Pow2Add(16, 16);
  }

  /// The bitwise and of the low `k` bits of two naturals, bit by bit.
  function AndBits(a: nat, b: nat, k: nat): nat
  {
    if k == 0 then 0
    else (if a % 2 == 1 && b % 2 == 1 then 1 else 0) + 2 * AndBits(a / 2, b / 2, k - 1)
  }

  /// `a & b` (section 13.12 of ECMA-262): both operands converted to 32 bits,
  /// and the result read as a signed 32-bit integer.
  function BitAnd(a: int, b: int): (r: int)
    ensures IsInt32(r)
  {
    ToInt32(AndBits(ToUint32(a), ToUint32(b), 32))
  }

  /// Two integers congruent modulo 2^32 have the same ToInt32.
  lemma {:induction false} ToInt32Congruent(a: int, b: int)
    requires (a - b) % TwoTo32 == 0
    ensures ToInt32(a) == ToInt32(b)
  {
    var q := (a - b) / TwoTo32;
    assert a - b == q * TwoTo32;
    ModShift(b, q);
    assert a == b + q * TwoTo32;
  }

  lemma {:induction false} ModShift(b: int, q: int)
    ensures (b + q * TwoTo32) % TwoTo32 == b % TwoTo32
  {
    var m := b % TwoTo32;
    var d := b / TwoTo32;
    assert b == d * TwoTo32 + m;
    assert b + q * TwoTo32 == (d + q) * TwoTo32 + m;
  }

  lemma {:induction false} AndBitsSelf(a: nat, k: nat)
    requires a < Pow2(k)
    ensures AndBits(a, a, k) == a
  {
    if k > 0 {
      AndBitsSelf(a / 2, k - 1);
    }
  }

  /// `x & x` is ToInt32(x).
  lemma BitAndSelf(x: int)
    ensures BitAnd(x, x) == ToInt32(x)
  {
    var u := ToUint32(x);
    Pow2Of32();
    AndBitsSelf(u, 32);
    ToInt32Congruent(u, x);
  }

  /// One iteration of the seed loop, as written:
  /// `seed = ((seed << 5) - seed) + c; seed = seed & seed;`.
  function SeedStep(seed: int, c: CodeUnit): int
  {
    var s := (ShiftLeft(seed, 5) - seed) + c;
    BitAnd(s, s)
  }

  /// The step is the classic `31 * seed + c` hash, wrapped to 32 bits.
  lemma SeedStepIsHorner(seed: int, c: CodeUnit)
    ensures SeedStep(seed, c) == ToInt32(31 * seed + c)
  {
    var sh := ShiftLeft(seed, 5);
    var s := (sh - seed) + c;
    BitAndSelf(s);
    var t := ToInt32(seed);
    ShiftByFive(seed);
    CongruenceSum(seed, t, t * 32, sh);
    ToInt32Congruent(s, 31 * seed + c);
  }

  /// `seed << 5` is ToInt32(ToInt32(seed) * 32).
  lemma ShiftByFive(seed: int)
    ensures ShiftLeft(seed, 5) == ToInt32(ToInt32(seed) * 32)
  {
    assert Pow2(5) == 32;
    assert ToUint32(5) == 5;
  }

  /// (seed - t) and (t*32 - sh) both multiples of 2^32 make
  /// sh - seed + c congruent to 31 * seed + c.
  lemma {:induction false} CongruenceSum(seed: int, t: int, t32: int, sh: int)
    requires t32 == t * 32
    requires (seed - t) % TwoTo32 == 0
    requires (t32 - sh) % TwoTo32 == 0
    ensures ((sh - seed) - 31 * seed) % TwoTo32 == 0
  {
    var p := (seed - t) / TwoTo32;
    var q := (t32 - sh) / TwoTo32;
    assert seed - t == p * TwoTo32;
    assert t32 - sh == q * TwoTo32;
    assert (sh - seed) - 31 * seed == (-32 * p - q) * TwoTo32;
    ModShift(0, -32 * p - q);
  }

  /// The hash of a code-unit sequence, specified as a left fold of
  /// `ToInt32(31 * seed + c)` from seed 0.
  function SeedHash(units: seq<CodeUnit>): (r: int)
    ensures IsInt32(r)
  {
    if units == [] then 0
    else ToInt32(31 * SeedHash(units[..|units| - 1]) + units[|units| - 1])
  }

  /// One more code unit at the end: the hash is one more fold step.
  lemma SeedHashPrefix(units: seq<CodeUnit>, i: nat)
    requires i < |units|
    ensures SeedHash(units[..i + 1]) == ToInt32(31 * SeedHash(units[..i]) + units[i])
  {
    assert units[..i + 1][..i] == units[..i];
  }

  lemma SeedHashSnoc(units: seq<CodeUnit>, i: nat)
    requires i < |units|
    ensures SeedHash(units[..i + 1]) == SeedStep(SeedHash(units[..i]), units[i])
  {
    SeedHashPrefix(units, i);
    SeedStepIsHorner(SeedHash(units[..i]), units[i]);
  }

  /// The seed used when none is given, `'default'`, and its code units.
  const DefaultSeedText: string := "default"
  const DefaultSeed: seq<CodeUnit> := [100, 101, 102, 97, 117, 108, 116]

  lemma DefaultSeedEncoding()
    ensures |DefaultSeed| == |DefaultSeedText|
    ensures forall i :: 0 <= i < |DefaultSeedText| ==> DefaultSeed[i] == DefaultSeedText[i] as int
  {
  }

  /// The seeded noise source.
  class SimplexNoise {
    var seed: int

    constructor (seedString: seq<CodeUnit> := DefaultSeed)
      ensures seed == SeedHash(seedString)
      ensures IsInt32(seed)
    {
      seed := 0;
      new;
      var i := 0;
      while i < |seedString|
        invariant 0 <= i <= |seedString|
        invariant seed == SeedHash(seedString[..i])
      {
        SeedHashSnoc(seedString, i);
        seed := SeedStep(seed, seedString[i]);
        i := i + 1;
      }
      assert seedString[..i] == seedString;
    }

    /// `noise2D(x, y)` with `Math.sin` supplied as `sine`: the fractional
    /// part of the scaled sine hash, mapped to [-1, 1).
    function Noise2D(sine: real -> real, x: real, y: real): (r: real)
      reads this
      ensures -1.0 <= r < 1.0
    {
      var hash := sine(x * 12.9898 + y * 78.233 + seed as real) * 43758.5453;
      (hash - hash.Floor as real) * 2.0 - 1.0
    }
  }
}
