/** Values shared by every module: optional values, results and Go's 64-bit integers. */
module Prelude {
  datatype Option<+T> = None | Some(value: T)

  datatype Result<+T, +E> = Success(value: T) | Failure(error: E)

  predicate ExactlyOne(a: bool, b: bool, c: bool) {
    (a && !b && !c) || (!a && b && !c) || (!a && !b && c)
  }

  predicate Distinct<T(==)>(xs: seq<T>) {
    forall i, j :: 0 <= i < j < |xs| ==> xs[i] != xs[j]
  }

  lemma UnionInStages<T>(a: set<T>, b: set<T>, c: set<T>)
    ensures a + b + c == a + (b + c)
  {
  }

  const INT64_MAX := 0x7fff_ffff_ffff_ffff
  const INT64_MIN := -0x8000_0000_0000_0000
  const TWO_TO_64 := 0x1_0000_0000_0000_0000

  /** Go's `int64`. */
  type Int64 = x: int | INT64_MIN <= x <= INT64_MAX

  /** Two's-complement wrap-around of an unbounded result into an `int64`. */
  function Wrap64(x: int): (w: Int64)
    ensures exists k: int :: w == x + k * TWO_TO_64
    ensures INT64_MIN <= x <= INT64_MAX ==> w == x
  {
    var w := (x - INT64_MIN) % TWO_TO_64 + INT64_MIN;
    assert w == x + (-((x - INT64_MIN) / TWO_TO_64)) * TWO_TO_64;
    w
  }

  /** Wrapping after each addition gives the same number as wrapping the whole sum once. */
  lemma WrapAbsorbs(a: int, b: int)
    ensures Wrap64(Wrap64(a) + b) == Wrap64(a + b)
  {
    var k: int :| Wrap64(a) == a + k * TWO_TO_64;
    var l: int :| Wrap64(Wrap64(a) + b) == Wrap64(a) + b + l * TWO_TO_64;
    var m: int :| Wrap64(a + b) == a + b + m * TWO_TO_64;
    assert Wrap64(Wrap64(a) + b) - Wrap64(a + b) == (k + l - m) * TWO_TO_64;
  }
}
