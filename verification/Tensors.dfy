/**
 Dense row-major tensors of rank three to five.  A reshape keeps the data and changes the
 shape; every other operation builds a new contiguous tensor element by element.
 */
module Tensors {

  datatype Tensor3 = Tensor3(a: nat, b: nat, c: nat, data: seq<real>)
  datatype Tensor4 = Tensor4(a: nat, b: nat, c: nat, d: nat, data: seq<real>)
  datatype Tensor5 = Tensor5(a: nat, b: nat, c: nat, d: nat, e: nat, data: seq<real>)

  predicate Full3(t: Tensor3) { |t.data| == t.a * t.b * t.c }

  function Get(data: seq<real>, n: nat): real {
    if n < |data| then data[n] else 0.0
  }

  /** Position of `(i, j)` in a row-major grid with rows of width `n`. */
  function Flat(i: nat, j: nat, n: nat): nat { i * n + j }

  function At3(t: Tensor3, i: nat, j: nat, k: nat): real {
    Get(t.data, Flat(Flat(i, j, t.b), k, t.c))
  }

  function At4(t: Tensor4, i: nat, j: nat, k: nat, l: nat): real {
    Get(t.data, Flat(Flat(Flat(i, j, t.b), k, t.c), l, t.d))
  }

  function At5(t: Tensor5, i: nat, j: nat, k: nat, l: nat, m: nat): real {
    Get(t.data, Flat(Flat(Flat(Flat(i, j, t.b), k, t.c), l, t.d), m, t.e))
  }

  function Row(m: nat, n: nat): nat { if n == 0 then 0 else m / n }
  function Column(m: nat, n: nat): nat { if n == 0 then 0 else m % n }

  function Build3(a: nat, b: nat, c: nat, f: (nat, nat, nat) -> real): (t: Tensor3)
    ensures Full3(t) && t.a == a && t.b == b && t.c == c
  {
    Tensor3(a, b, c, seq(a * b * c, (n: nat) =>
      f(Row(Row(n, c), b), Column(Row(n, c), b), Column(n, c))))
  }

  function Build4(a: nat, b: nat, c: nat, d: nat, f: (nat, nat, nat, nat) -> real): (t: Tensor4)
    ensures t.a == a && t.b == b && t.c == c && t.d == d
  {
    Tensor4(a, b, c, d, seq(a * b * c * d, (n: nat) =>
      var m := Row(n, d); f(Row(Row(m, c), b), Column(Row(m, c), b), Column(m, c), Column(n, d))))
  }

  function Build5(a: nat, b: nat, c: nat, d: nat, e: nat, f: (nat, nat, nat, nat, nat) -> real): (t: Tensor5)
    ensures t.a == a && t.b == b && t.c == c && t.d == d && t.e == e
  {
    Tensor5(a, b, c, d, e, seq(a * b * c * d * e, (n: nat) =>
      var o := Row(n, e); var m := Row(o, d);
      f(Row(Row(m, c), b), Column(Row(m, c), b), Column(m, c), Column(o, d), Column(n, e))))
  }

  lemma Monotone(x: nat, y: nat, n: nat)
    requires x <= y
    ensures x * n <= y * n
  {
    assert y * n == x * n + (y - x) * n;
  }

  lemma FlatBound(i: nat, j: nat, a: nat, n: nat)
    requires i < a && j < n
    ensures Flat(i, j, n) < a * n
  {
    Monotone(i + 1, a, n);
    assert (i + 1) * n == i * n + n;
  }

  /** A position is decoded in only one way. */
  lemma FlatUnique(i: nat, j: nat, p: nat, q: nat, n: nat)
    requires j < n && q < n && Flat(i, j, n) == Flat(p, q, n)
    ensures i == p && j == q
  {
    assert (i + 1) * n == i * n + n && (p + 1) * n == p * n + n;
    if i < p {
      Monotone(i + 1, p, n);
    } else if p < i {
      Monotone(p + 1, i, n);
    }
  }

  lemma FlatDecode(i: nat, j: nat, n: nat)
    requires j < n
    ensures Row(Flat(i, j, n), n) == i && Column(Flat(i, j, n), n) == j
  {
    var m := Flat(i, j, n);
    assert Flat(m / n, m % n, n) == m;
    FlatUnique(i, j, m / n, m % n, n);
  }

  lemma FlatEncode(m: nat, a: nat, n: nat)
    requires m < a * n
    ensures Row(m, n) < a && Column(m, n) < n && Flat(Row(m, n), Column(m, n), n) == m
  {
    assert n > 0;
    assert m == (m / n) * n + m % n;
    if a <= m / n {
      Monotone(a, m / n, n);
    }
  }

  lemma AtBuild3(a: nat, b: nat, c: nat, f: (nat, nat, nat) -> real, i: nat, j: nat, k: nat)
    requires i < a && j < b && k < c
    ensures At3(Build3(a, b, c, f), i, j, k) == f(i, j, k)
  {
    FlatBound(i, j, a, b);
    FlatBound(Flat(i, j, b), k, a * b, c);
    FlatDecode(Flat(i, j, b), k, c);
    FlatDecode(i, j, b);
  }

  lemma AtBuild4(a: nat, b: nat, c: nat, d: nat, f: (nat, nat, nat, nat) -> real, i: nat, j: nat, k: nat, l: nat)
    requires i < a && j < b && k < c && l < d
    ensures At4(Build4(a, b, c, d, f), i, j, k, l) == f(i, j, k, l)
  {
    FlatBound(i, j, a, b);
    FlatBound(Flat(i, j, b), k, a * b, c);
    FlatBound(Flat(Flat(i, j, b), k, c), l, a * b * c, d);
    FlatDecode(Flat(Flat(i, j, b), k, c), l, d);
    FlatDecode(Flat(i, j, b), k, c);
    FlatDecode(i, j, b);
  }

  lemma AtBuild5(a: nat, b: nat, c: nat, d: nat, e: nat, f: (nat, nat, nat, nat, nat) -> real,
                 i: nat, j: nat, k: nat, l: nat, m: nat)
    requires i < a && j < b && k < c && l < d && m < e
    ensures At5(Build5(a, b, c, d, e, f), i, j, k, l, m) == f(i, j, k, l, m)
  {
    FlatBound(i, j, a, b);
    FlatBound(Flat(i, j, b), k, a * b, c);
    FlatBound(Flat(Flat(i, j, b), k, c), l, a * b * c, d);
    FlatBound(Flat(Flat(Flat(i, j, b), k, c), l, d), m, a * b * c * d, e);
    FlatDecode(Flat(Flat(Flat(i, j, b), k, c), l, d), m, e);
    FlatDecode(Flat(Flat(i, j, b), k, c), l, d);
    FlatDecode(Flat(i, j, b), k, c);
    FlatDecode(i, j, b);
  }

  /** A full tensor is determined by its elements. */
  lemma SameElements3(x: Tensor3, y: Tensor3)
    requires Full3(x) && Full3(y) && x.a == y.a && x.b == y.b && x.c == y.c
    requires forall i, j, k :: 0 <= i < x.a && 0 <= j < x.b && 0 <= k < x.c ==> At3(x, i, j, k) == At3(y, i, j, k)
    ensures x == y
  {
    forall n | 0 <= n < |x.data| ensures x.data[n] == y.data[n] {
      FlatEncode(n, x.a * x.b, x.c);
      var row, k := Row(n, x.c), Column(n, x.c);
      FlatEncode(row, x.a, x.b);
      assert At3(x, Row(row, x.b), Column(row, x.b), k) == At3(y, Row(row, x.b), Column(row, x.b), k);
    }
  }

  // -------------------------------------------------------------------- sums

  function Sum(f: nat -> real, n: nat): real {
    if n == 0 then 0.0 else Sum(f, n - 1) + f(n - 1)
  }

  lemma {:induction false} SumSame(f: nat -> real, g: nat -> real, n: nat)
    requires forall i :: 0 <= i < n ==> f(i) == g(i)
    ensures Sum(f, n) == Sum(g, n)
  {
    if n > 0 {
      SumSame(f, g, n - 1);
    }
  }

  lemma {:induction false} SumScaled(f: nat -> real, g: nat -> real, s: real, n: nat)
    requires forall i :: 0 <= i < n ==> g(i) == s * f(i)
    ensures Sum(g, n) == s * Sum(f, n)
  {
    if n > 0 {
      SumScaled(f, g, s, n - 1);
      assert s * (Sum(f, n - 1) + f(n - 1)) == s * Sum(f, n - 1) + s * f(n - 1);
    }
  }
}
