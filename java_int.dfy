/** Java's 32-bit `int` arithmetic and the hash folds built from it.
    Java's `int` wraps around modulo 2^32 (two's complement); Dafny's `int` does not,
    so every step that the source performs on an `int` is passed through `Wrap`. */
module JavaInt {

  const TWO_32: int := 0x1_0000_0000
  const MIN_INT: int := -0x8000_0000
  const MAX_INT: int := 0x7FFF_FFFF

  /** A value of Java's primitive `int`. */
  type Int32 = x: int | MIN_INT <= x <= MAX_INT

  /** The Java `int` that has the same low 32 bits as `x` (two's complement truncation). */
  function Wrap(x: int): (r: Int32)
    ensures (r - x) % TWO_32 == 0
    ensures MIN_INT <= x <= MAX_INT ==> r == x
  {
    var u := x % TWO_32;
    if u <= MAX_INT then u else u - TWO_32
  }

  /** Two integers that differ by a multiple of 2^32 wrap to the same `int`. */
  lemma WrapCongruent(x: int, k: int)
    ensures Wrap(x + k * TWO_32) == Wrap(x)
  {
    var a, b := Wrap(x), Wrap(x + k * TWO_32);
    // a and b are both congruent to x and both lie in a window of width 2^32
    assert (b - a) % TWO_32 == 0;
    var q := (b - a) / TWO_32;
    assert b - a == q * TWO_32;
    assert -TWO_32 < b - a < TWO_32;
  }

  /** One step of Java's `31 * h + x`, taken on `int`. */
  function Step(h: Int32, x: Int32): Int32 {
    Wrap(31 * h + x)
  }

  /** Wrapping in an intermediate step does not change the wrapped result. */
  lemma StepOfWrap(a: int, x: int)
    ensures Wrap(31 * Wrap(a) + x) == Wrap(31 * a + x)
  {
    var w := Wrap(a);
    var q := (w - a) / TWO_32;
    assert w - a == q * TWO_32;
    assert 31 * w + x == (31 * a + x) + (31 * q) * TWO_32;
    WrapCongruent(31 * a + x, 31 * q);
  }

  /** The 31-polynomial over unbounded integers:
      `Poly([h0, .., hn]) == h0 * 31^n + h1 * 31^(n-1) + .. + hn`. */
  function Poly(hs: seq<int>): int {
    if |hs| == 0 then 0 else 31 * Poly(hs[..|hs| - 1]) + hs[|hs| - 1]
  }

  /** The same polynomial evaluated the way Java code evaluates it: one wrapping
      `31 * h + x` step per element, starting from 0. */
  function Fold(hs: seq<Int32>): Int32 {
    if |hs| == 0 then 0 else Step(Fold(hs[..|hs| - 1]), hs[|hs| - 1])
  }

  /** Appending one element performs one more step. */
  lemma FoldSnoc(hs: seq<Int32>, x: Int32)
    ensures Fold(hs + [x]) == Step(Fold(hs), x)
  {
    assert (hs + [x])[..|hs|] == hs;
  }

  /** Overflow in the intermediate steps is harmless: the step-by-step fold is the
      exact polynomial reduced modulo 2^32 once, at the end. */
  lemma {:induction false} FoldIsWrappedPoly(hs: seq<Int32>)
    ensures Fold(hs) == Wrap(Poly(hs))
  {
    if |hs| > 0 {
      var init := hs[..|hs| - 1];
      FoldIsWrappedPoly(init);
      StepOfWrap(Poly(init), hs[|hs| - 1]);
    }
  }

  /** The UTF-16 code unit Java sees for a character. Dafny characters that need a
      surrogate pair are reduced to their low 16 bits (see README, Left out). */
  function CodeUnit(c: char): Int32 {
    (c as int) % 0x1_0000
  }

  function CodeUnits(s: string): (r: seq<Int32>)
    ensures |r| == |s|
    ensures forall i :: 0 <= i < |s| ==> r[i] == CodeUnit(s[i])
  {
    seq(|s|, i requires 0 <= i < |s| => CodeUnit(s[i]))
  }

  /** `String.hashCode()`: `s[0]*31^(n-1) + s[1]*31^(n-2) + .. + s[n-1]` in `int`
      arithmetic, computed as Java does, character by character. */
  function StringHash(s: string): (r: Int32)
  {
    if |s| == 0 then 0 else Step(StringHash(s[..|s| - 1]), CodeUnit(s[|s| - 1]))
  }

  /** `String.hashCode()` is the 31-polynomial over the string's code units, modulo 2^32. */
  lemma {:induction false} StringHashIsPolynomial(s: string)
    ensures StringHash(s) == Wrap(Poly(CodeUnits(s)))
  {
    StringHashIsFold(s);
    FoldIsWrappedPoly(CodeUnits(s));
  }

  lemma {:induction false} StringHashIsFold(s: string)
    ensures StringHash(s) == Fold(CodeUnits(s))
  {
    if |s| > 0 {
      var init := s[..|s| - 1];
      StringHashIsFold(init);
      assert CodeUnits(s)[..|s| - 1] == CodeUnits(init);
    }
  }
}
