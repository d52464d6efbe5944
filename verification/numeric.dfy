/** Scalar helpers shared by the loss model: the element-wise minimum and
    maximum of TensorFlow, squares, the `1e-9` guard, and the transcendental
    functions the loss uses, which are kept abstract. */
module Numeric {

  /** The additive guard `1e-9` put into the CIoU denominators and the logarithms. */
  const Guard: real := 0.000000001

  function Min(a: real, b: real): (r: real)
    ensures r <= a && r <= b
    ensures r == a || r == b
  {
    if a <= b then a else b
  }

  function Max(a: real, b: real): (r: real)
    ensures r >= a && r >= b
    ensures r == a || r == b
  {
    if a >= b then a else b
  }

  function Abs(a: real): (r: real)
    ensures r >= 0.0
    ensures r == a || r == -a
  {
    if a >= 0.0 then a else -a
  }

  function Sq(a: real): (r: real)
    ensures r >= 0.0
  {
    a * a
  }

  lemma SqPositive(a: real)
    requires a != 0.0
    ensures Sq(a) > 0.0
  {
    var m := Abs(a);
    calc {
      Sq(a);
      == { assert a * a == m * m; }
      m * m;
      > { MulPositive(m, m); }
      0.0;
    }
  }

  lemma SqNegate(a: real)
    ensures Sq(-a) == Sq(a)
  {
    calc {
      Sq(-a);
      == (-a) * (-a);
      == a * a;
      == Sq(a);
    }
  }

  lemma SqZero(a: real)
    ensures Sq(a) == 0.0 <==> a == 0.0
  {
    if a != 0.0 {
      SqPositive(a);
    }
  }

  lemma SqMonotone(u: real, v: real)
    requires Abs(u) <= v
    ensures Sq(u) <= Sq(v)
  {
    var m := Abs(u);
    calc {
      Sq(u);
      == { assert u * u == m * m; }
      m * m;
      <= { MulMonotone(m, m, v, v); }
      v * v;
      == Sq(v);
    }
  }

  lemma MulMonotone(a: real, b: real, c: real, d: real)
    requires 0.0 <= a <= c
    requires 0.0 <= b <= d
    ensures a * b <= c * d
  {
    assert a * b <= c * b by {
      assert (c - a) * b >= 0.0;
    }
    assert c * b <= c * d by {
      assert c * (d - b) >= 0.0;
    }
  }

  lemma MulPositive(a: real, b: real)
    requires a > 0.0 && b > 0.0
    ensures a * b > 0.0
  {
    MulMonotone(0.0, 0.0, a, b);
    assert a * b >= a * 0.0 + 0.0 * b;
  }

  /** Dividing both sides of an inequality by a positive number keeps it. */
  lemma DivideBounds(x: real, n: real, lo: real, hi: real)
    requires n > 0.0
    requires n * lo <= x <= n * hi
    ensures lo <= x / n <= hi
  {
    var q := x / n;
    assert q * n == x;
    assert (q - lo) * n >= 0.0;
    assert (hi - q) * n >= 0.0;
  }

  /** A product of two positive factors is positive whenever the condition
      holds; for guarded terms whose sign is only known under the condition. */
  lemma MulPositiveWhen(c: bool, a: real, b: real)
    ensures c && a > 0.0 && b > 0.0 ==> a * b > 0.0
  {
    if c && a > 0.0 && b > 0.0 {
      MulPositive(a, b);
    }
  }

  lemma MulNonNegative(a: real, b: real)
    requires a >= 0.0 && b >= 0.0
    ensures a * b >= 0.0
  {
  }

  /** Cancelling a positive factor from a strict inequality. */
  lemma CancelPositive(u: real, v: real, s: real)
    requires s > 0.0 && u * s < v * s
    ensures u < v
  {
    if u >= v {
      MulMonotone(v, s, u, s);
      assert false;
    }
  }

  lemma IntMulMonotone(x: int, y: int, d: int)
    requires x <= y && d >= 0
    ensures x * d <= y * d
  {
    assert (y - x) * d >= 0;
    assert (y - x) * d == y * d - x * d;
  }

  lemma IntMulSucc(x: int, d: int)
    ensures (x + 1) * d == x * d + d
  {
  }

  /** Euclidean division is unique: a quotient and remainder that rebuild k
      are k / d and k % d. */
  lemma DivModUnique(k: int, q: int, r: int, d: int)
    requires d > 0 && 0 <= r < d && k == q * d + r
    ensures k / d == q && k % d == r
  {
    var q', r' := k / d, k % d;
    assert k == q' * d + r';
    if q > q' {
      IntMulSucc(q', d);
      IntMulMonotone(q' + 1, q, d);
      assert false;
    } else if q < q' {
      IntMulSucc(q, d);
      IntMulMonotone(q + 1, q', d);
      assert false;
    }
  }

  lemma DivBelow(k: int, m: int, d: int)
    requires d > 0 && 0 <= k < m * d
    ensures k / d < m
  {
    if k / d >= m {
      IntMulMonotone(m, k / d, d);
      assert false;
    }
  }

  /** The transcendental functions the loss calls: `tf.sigmoid`, `tf.exp`,
      `K.log`, `tf.atan`, and the constant pi. They have no exact real-valued
      definition here, so the model takes them as parameters. */
  datatype Transcendentals = Transcendentals(
    sigmoid: real -> real,
    exp: real -> real,
    log: real -> real,
    atan: real -> real,
    pi: real)

  /** The only facts about the transcendentals the model relies on:
      the logistic function lies strictly between 0 and 1, the exponential
      is positive, and pi is positive. */
  ghost predicate Sound(t: Transcendentals)
  {
    && (forall u :: 0.0 < t.sigmoid(u) < 1.0)
    && (forall u :: t.exp(u) > 0.0)
    && t.pi > 0.0
  }
}
