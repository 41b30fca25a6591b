/** The small numeric helpers of src/utils/math.ts, plus the summation they are built on. */
module MathUtil {
  import opened Outcomes

  /** Sum of a list of numbers, as `xs.reduce((a, b) => a + b, 0)`. */
  function Sum(xs: seq<real>): real
  {
    if |xs| == 0 then 0.0 else xs[0] + Sum(xs[1..])
  }

  /** Summation distributes over concatenation. */
  lemma {:induction false} SumAppend(a: seq<real>, b: seq<real>)
    ensures Sum(a + b) == Sum(a) + Sum(b)
  {
    if |a| == 0 {
      assert a + b == b;
    } else {
      assert (a + b)[1..] == a[1..] + b;
      SumAppend(a[1..], b);
    }
  }

  /** Adding one value at the end adds it to the sum. */
  lemma SumSnoc(xs: seq<real>, v: real)
    ensures Sum(xs + [v]) == Sum(xs) + v
  {
    SumAppend(xs, [v]);
    assert [v][1..] == [];
  }

  /** A sum of non-negative numbers is non-negative. */
  lemma {:induction false} SumNonNegative(xs: seq<real>)
    requires forall i :: 0 <= i < |xs| ==> xs[i] >= 0.0
    ensures Sum(xs) >= 0.0
  {
    if |xs| > 0 {
      SumNonNegative(xs[1..]);
    }
  }

  /** `clamp(x, a, b) = max(a, min(b, x))`. */
  function Clamp(x: real, a: real, b: real): (r: real)
    ensures a <= b ==> a <= r <= b
    ensures a <= x <= b ==> r == x
    ensures a <= b && x < a ==> r == a
    ensures a <= b && b < x ==> r == b
    ensures b < a ==> r == a
  {
    var inner := if b < x then b else x;
    if a < inner then inner else a
  }

  /** Arithmetic mean; the empty list has mean 0. */
  function Mean(xs: seq<real>): (r: real)
    ensures |xs| == 0 ==> r == 0.0
    ensures |xs| > 0 ==> r * (|xs| as real) == Sum(xs)
  {
    if |xs| == 0 then 0.0 else Sum(xs) / (|xs| as real)
  }

  /** The mean of values that all lie in [lo, hi] lies in [lo, hi]. */
  lemma MeanBetween(xs: seq<real>, lo: real, hi: real)
    requires |xs| > 0
    requires forall i :: 0 <= i < |xs| ==> lo <= xs[i] <= hi
    ensures lo <= Mean(xs) <= hi
  {
    SumBetween(xs, lo, hi);
    var n := |xs| as real;
    assert lo * n <= Sum(xs) <= hi * n;
    assert Mean(xs) == Sum(xs) / n;
  }

  lemma {:induction false} SumBetween(xs: seq<real>, lo: real, hi: real)
    requires forall i :: 0 <= i < |xs| ==> lo <= xs[i] <= hi
    ensures lo * (|xs| as real) <= Sum(xs) <= hi * (|xs| as real)
  {
    if |xs| > 0 {
      SumBetween(xs[1..], lo, hi);
    }
  }

  /** `max`: a left fold starting from negative infinity, which is modelled as `None`. */
  function Max(xs: seq<real>): (r: Option<real>)
    ensures r.None? <==> |xs| == 0
    ensures r.Some? ==> exists i :: 0 <= i < |xs| && xs[i] == r.value
    ensures r.Some? ==> forall i :: 0 <= i < |xs| ==> xs[i] <= r.value
  {
    MaxFrom(None, xs)
  }

  /** One step of the fold: `x > m ? x : m`, where every number exceeds negative infinity. */
  function Greater(m: Option<real>, x: real): real
  {
    if m.None? || x > m.value then x else m.value
  }

  /** The fold of `max` from an accumulator `m` over `xs`. */
  function MaxFrom(m: Option<real>, xs: seq<real>): (r: Option<real>)
    ensures r.None? <==> m.None? && |xs| == 0
    ensures r.Some? ==> (m.Some? && r.value == m.value) || exists i :: 0 <= i < |xs| && xs[i] == r.value
    ensures r.Some? ==> m.Some? ==> m.value <= r.value
    ensures r.Some? ==> forall i :: 0 <= i < |xs| ==> xs[i] <= r.value
    decreases |xs|
  {
    if |xs| == 0 then m
    else
      var r := MaxFrom(Some(Greater(m, xs[0])), xs[1..]);
      assert forall i :: 1 <= i < |xs| ==> xs[i] == xs[1..][i - 1];
      r
  }

  /** `root` is a square root on the non-negative reals (the role `Math.sqrt` plays). */
  ghost predicate IsSqrt(root: real -> real)
  {
    forall q :: q >= 0.0 ==> root(q) >= 0.0 && root(q) * root(q) == q
  }

  /** For a square root, `root(q) >= t` holds exactly when `t <= 0` or `q >= t * t`. */
  lemma RootAtLeast(root: real -> real, q: real, t: real)
    requires IsSqrt(root)
    requires q >= 0.0
    ensures root(q) >= t <==> AtLeastRootOf(q, t)
  {
    var r := root(q);
    assert r >= 0.0 && r * r == q;
    if t > 0.0 {
      if r >= t {
        assert r * r >= t * r >= t * t;
        assert AtLeastRootOf(q, t);
      } else {
        calc {
          q;
        ==
          r * r;
        <= { assert r * (t - r) >= 0.0; }
          r * t;
        < { assert (t - r) * t > 0.0; }
          t * t;
        }
      }
    }
  }

  /** `sqrt(q) >= t`, written without the square root. */
  predicate AtLeastRootOf(q: real, t: real)
  {
    t <= 0.0 || q >= t * t
  }
}
