/** Vocabulary shared by the models: optional values, least elements of finite
    sets, and the roundings the programs use. */
module Basics {

  datatype Option<+T> = None | Some(value: T)

  ghost function Pick<T>(s: set<T>): (x: T)
    requires s != {}
    ensures x in s
  {
    var x :| x in s; x
  }

  /** The least instant of a finite non-empty set: what `min` means. */
  ghost function Earliest(s: set<real>): (m: real)
    requires s != {}
    ensures m in s
    ensures forall x :: x in s ==> m <= x
  {
    var x := Pick(s);
    if s == {x} then x else
      var rest := Earliest(s - {x});
      assert forall y :: y in s ==> y == x || y in s - {x};
      if x < rest then x else rest
  }

  /** The least identifier of a finite non-empty set: the head of `sorted`. */
  ghost function Least(s: set<int>): (m: int)
    requires s != {}
    ensures m in s
    ensures forall x :: x in s ==> m <= x
  {
    var reals := set x | x in s :: x as real;
    assert Pick(s) as real in reals;
    assert forall x :: x in s ==> x as real in reals;
    Earliest(reals).Floor
  }

  /** Timestamps are written with millisecond precision: the fraction is cut off. */
  function Trunc(t: real): (r: real)
    ensures r <= t < r + 1.0
  {
    t.Floor as real
  }

  /** Decimal's ROUND_HALF_UP, for amounts that are not negative. */
  function RoundHalfUp(x: real): int {
    (x + 0.5).Floor
  }

  /** Python's round: ties go to the even neighbour. */
  function RoundHalfEven(x: real): int {
    var low := x.Floor;
    var part := x - low as real;
    if part < 0.5 || (part == 0.5 && low % 2 == 0) then low else low + 1
  }

  function Max(a: int, b: int): int {
    if a < b then b else a
  }

  function Min(a: int, b: int): int {
    if a < b then a else b
  }

  function MinReal(a: real, b: real): real {
    if a < b then a else b
  }

  function MaxReal(a: real, b: real): real {
    if a < b then b else a
  }
}
