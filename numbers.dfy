/**
 * Numeric vocabulary shared by the scene model.
 *
 * JavaScript numbers are modelled as mathematical reals. The three library
 * functions the engine depends on are made explicit:
 *  - Math.random() yields a value of the subset type `Unit`, [0, 1);
 *  - Math.sin is an arbitrary function whose values lie in [-1, 1];
 *  - Math.sqrt is an arbitrary function returning the non-negative root.
 * Sine and square root are passed in as function parameters, so every
 * property proved holds for any function with that range.
 */
module Numbers {

  /** A value returned by Math.random(). */
  type Unit = u: real | 0.0 <= u < 1.0

  /** Math.sin, known only by its range. */
  ghost predicate IsSine(sin: real -> real)
  {
    forall x :: -1.0 <= sin(x) <= 1.0
  }

  /** Math.sqrt, known only as the non-negative square root on non-negative inputs. */
  ghost predicate IsSqrt(sqrt: real -> real)
  {
    forall x :: 0.0 <= x ==> 0.0 <= sqrt(x) && sqrt(x) * sqrt(x) == x
  }

  /** `Math.floor(random * length)`: a valid index of any non-empty palette. */
  function PaletteIndex(u: Unit, length: nat): (k: int)
    ensures 0 < length ==> 0 <= k < length
  {
    var n := length as real;
    var x := u * n;
    if 0 < length then
      FractionBelow(u, n);
      FloorBelow(x, length);
      x.Floor
    else
      x.Floor
  }

  /** The product of two non-negative reals is non-negative. */
  lemma MulNonneg(x: real, y: real)
    requires 0.0 <= x && 0.0 <= y
    ensures 0.0 <= x * y
  {
  }

  /** The floor of a real in [0, n) is an integer in [0, n). */
  lemma FloorBelow(x: real, n: nat)
    requires 0.0 <= x < n as real
    ensures 0 <= x.Floor < n
  {
    var k := x.Floor;
    assert k as real <= x < k as real + 1.0;
  }

  /** A random fraction of a positive whole is below the whole. */
  lemma FractionBelow(u: Unit, n: real)
    requires 0.0 < n
    ensures 0.0 <= u * n < n
  {
    var rest := (1.0 - u) * n;
    assert 0.0 < rest;
    assert n - u * n == rest;
  }

  function Abs(x: real): real
  {
    if x < 0.0 then -x else x
  }

  /** A value in [-1, 1] scales any real to within its own magnitude. */
  lemma ScaledWithin(s: real, a: real)
    requires -1.0 <= s <= 1.0
    ensures Abs(s * a) <= Abs(a)
  {
    var b := Abs(a);
    var t := if a >= 0.0 then s else -s;
    assert s * a == t * b;
    assert -1.0 <= t <= 1.0;
    if t >= 0.0 {
      assert t * b <= 1.0 * b;
    } else {
      assert (-t) * b <= 1.0 * b;
    }
  }

  /** A part of a positive whole, divided by the whole, is a fraction in [0, 1). */
  lemma DivFraction(a: real, d: real)
    requires 0.0 <= a < d
    ensures 0.0 <= a / d < 1.0
  {
  }

  lemma DivMonotone(a1: real, a2: real, d: real)
    requires 0.0 < d && a1 <= a2
    ensures a1 / d <= a2 / d
  {
  }

  /** Math.pow(x, 2). */
  function Square(x: real): (r: real)
    ensures 0.0 <= r
  {
    x * x
  }

  /** For non-negative reals, comparing the numbers and comparing their squares agree. */
  lemma LessIffSquareLess(a: real, b: real)
    requires 0.0 <= a && 0.0 <= b
    ensures a < b <==> a * a < b * b
  {
    var aa, ab, bb := a * a, a * b, b * b;
    if a < b {
      assert aa <= ab;
      assert ab < bb;
    } else {
      assert bb <= ab;
      assert ab <= aa;
    }
  }

  /** The sum of a sequence of reals, accumulated from the left as `x += d` does. */
  function Sum(s: seq<real>): real
  {
    if s == [] then 0.0 else Sum(s[..|s| - 1]) + s[|s| - 1]
  }

  /** Adding one more term adds exactly that term. */
  lemma SumSnoc(s: seq<real>, d: real)
    ensures Sum(s + [d]) == Sum(s) + d
  {
    assert (s + [d])[..|s|] == s;
  }

  /** Summation does not depend on how the terms are chunked. */
  lemma {:induction false} SumConcat(a: seq<real>, b: seq<real>)
    ensures Sum(a + b) == Sum(a) + Sum(b)
  {
    if b == [] {
      assert a + b == a;
    } else {
      var b' := b[..|b| - 1];
      var d := b[|b| - 1];
      assert b == b' + [d];
      assert a + b == (a + b') + [d];
      SumSnoc(a + b', d);
      SumConcat(a, b');
      SumSnoc(b', d);
    }
  }
}

/** The usual optional value, for fields the source leaves undefined or null. */
module Wrappers {
  datatype Option<+T> = None | Some(value: T)
}
