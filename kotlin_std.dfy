/** The few pieces of the Kotlin standard library the application's logic relies on:
    nullable values, `isBlank`/`isNullOrBlank`, `coerceIn`, `coerceAtLeast` and `maxOf`. */
module KotlinStd {

  /** A Kotlin nullable `T?`: `None` is `null`. */
  datatype Option<+T> = None | Some(value: T)

  /** `Char.isWhitespace()` on the JVM: `Character.isWhitespace(c) || Character.isSpaceChar(c)`,
      written out as the code points those two accept. */
  predicate IsWhitespace(c: char) {
    var n := c as int;
    || (0x09 <= n <= 0x0D)      // tab, line feed, vertical tab, form feed, carriage return
    || (0x1C <= n <= 0x20)      // file/group/record/unit separators and the space
    || n == 0xA0 || n == 0x1680
    || (0x2000 <= n <= 0x200A)
    || n == 0x2028 || n == 0x2029 || n == 0x202F || n == 0x205F || n == 0x3000
  }

  /** `CharSequence.isBlank()`: empty, or made of whitespace only. */
  predicate IsBlank(s: string) {
    forall i :: 0 <= i < |s| ==> IsWhitespace(s[i])
  }

  /** `CharSequence?.isNullOrBlank()`. */
  predicate IsNullOrBlank(s: Option<string>) {
    s.None? || IsBlank(s.value)
  }

  /** `Float.coerceIn(lo, hi)`: Kotlin throws IllegalArgumentException when lo > hi,
      so callers must provide a non-empty range. The result is the point of [lo, hi]
      nearest to x. */
  function CoerceIn(x: real, lo: real, hi: real): (r: real)
    requires lo <= hi
    ensures lo <= r <= hi
    ensures lo <= x <= hi ==> r == x
    ensures x < lo ==> r == lo
    ensures hi < x ==> r == hi
  {
    if x < lo then lo else if hi < x then hi else x
  }

  /** `maxOf(a, b)`. */
  function MaxOf(a: real, b: real): (r: real)
    ensures a <= r && b <= r
    ensures r == a || r == b
  {
    if a >= b then a else b
  }

  /** `Float.coerceAtLeast(lo)`: the larger of x and lo. */
  function CoerceAtLeast(x: real, lo: real): (r: real)
    ensures lo <= r && x <= r
    ensures lo <= x ==> r == x
    ensures x < lo ==> r == lo
  {
    MaxOf(x, lo)
  }

  /** Coercing twice into the same range changes nothing the second time. */
  lemma CoerceInIdempotent(x: real, lo: real, hi: real)
    requires lo <= hi
    ensures CoerceIn(CoerceIn(x, lo, hi), lo, hi) == CoerceIn(x, lo, hi)
  {
  }
}
