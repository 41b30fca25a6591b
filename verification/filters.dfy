/** The filter primitives of src/lib/filters.ts: a one-pole high-pass, a one-pole low-pass and
    a rolling root-mean-square. Arithmetic is exact over the reals. */
module Filters {
  import opened MathUtil
  import opened Constants

  /** High-pass state: the previous output `y` and the previous input `x`. */
  datatype Hp1State = Hp1State(y: real, x: real)

  /** Low-pass state: the previous output. */
  datatype LpfState = LpfState(y: real)

  function Abs(v: real): real
  {
    if v < 0.0 then -v else v
  }

  /** Time constant of a cut-off frequency: `rc = 1 / (2 pi fc)`. */
  function Rc(fc: real): (rc: real)
    requires fc != 0.0
    ensures rc * (2.0 * Pi * fc) == 1.0
    ensures fc > 0.0 ==> rc > 0.0
  {
    1.0 / (2.0 * Pi * fc)
  }

  /** High-pass coefficient `rc / (rc + dt)`. */
  function HpAlpha(rc: real, dt: real): real
    requires rc + dt != 0.0
  {
    rc / (rc + dt)
  }

  /** Low-pass coefficient `dt / (rc + dt)`. */
  function LpAlpha(rc: real, dt: real): real
    requires rc + dt != 0.0
  {
    dt / (rc + dt)
  }

  /** For a positive time constant and step both coefficients lie strictly between 0 and 1,
      and they are complementary. */
  lemma AlphasInUnit(rc: real, dt: real)
    requires rc > 0.0 && dt > 0.0
    ensures 0.0 < HpAlpha(rc, dt) < 1.0
    ensures 0.0 < LpAlpha(rc, dt) < 1.0
    ensures HpAlpha(rc, dt) + LpAlpha(rc, dt) == 1.0
  {
  }

  /** `hp1`: `y = alpha * (state.y + x - state.x)`; the returned state remembers both the new
      output and the new input. */
  function Hp1(x: real, st: Hp1State, dt: real, rc: real): (r: Hp1State)
    requires rc + dt != 0.0
    ensures r.x == x
    ensures rc > 0.0 && dt > 0.0 ==> Abs(r.y) <= Abs(st.y + x - st.x)
    ensures rc > 0.0 && dt > 0.0 && st.y + x - st.x != 0.0 ==> Abs(r.y) < Abs(st.y + x - st.x)
  {
    var y := HpAlpha(rc, dt) * (st.y + x - st.x);
    if rc > 0.0 && dt > 0.0 then
      AlphasInUnit(rc, dt);
      FractionShrinks(HpAlpha(rc, dt), st.y + x - st.x);
      Hp1State(y, x)
    else
      Hp1State(y, x)
  }

  /** A fraction strictly between 0 and 1 of `d` lies between 0 and `d`, and strictly so
      when `d` is not zero. */
  lemma FractionShrinks(a: real, d: real)
    requires 0.0 < a < 1.0
    ensures 0.0 <= d ==> 0.0 <= a * d <= d
    ensures d <= 0.0 ==> d <= a * d <= 0.0
    ensures d != 0.0 ==> a * d != 0.0 && a * d != d
    ensures Abs(a * d) <= Abs(d)
    ensures d != 0.0 ==> Abs(a * d) < Abs(d)
  {
    if d > 0.0 {
      assert a * d < 1.0 * d;
      assert a * d > 0.0 * d;
    } else if d < 0.0 {
      assert a * d > 1.0 * d;
      assert a * d < 0.0 * d;
      assert Abs(a * d) == -(a * d) && Abs(d) == -d;
      assert -(a * d) < -d;
      assert Abs(a * d) < Abs(d);
    }
  }

  /** With the input held constant the high-pass output decays towards zero: its magnitude
      strictly shrinks unless it is already zero, and zero stays zero. */
  lemma Hp1Decays(x: real, st: Hp1State, dt: real, rc: real)
    requires rc > 0.0 && dt > 0.0
    requires x == st.x
    ensures st.y == 0.0 ==> Hp1(x, st, dt, rc).y == 0.0
    ensures st.y != 0.0 ==> Abs(Hp1(x, st, dt, rc).y) < Abs(st.y)
  {
  }

  /** `lpf`: the new output moves from `state.y` towards `x` by the fraction `alpha`. */
  function Lpf(x: real, st: LpfState, dt: real, rc: real): (r: LpfState)
    requires rc + dt != 0.0
    ensures rc > 0.0 && dt > 0.0 && st.y <= x ==> st.y <= r.y <= x
    ensures rc > 0.0 && dt > 0.0 && x <= st.y ==> x <= r.y <= st.y
    ensures rc > 0.0 && dt > 0.0 && x != st.y ==> r.y != st.y && r.y != x
    ensures x == st.y ==> r.y == st.y
  {
    var y := st.y + LpAlpha(rc, dt) * (x - st.y);
    if rc > 0.0 && dt > 0.0 then
      AlphasInUnit(rc, dt);
      FractionShrinks(LpAlpha(rc, dt), x - st.y);
      LpfState(y)
    else
      LpfState(y)
  }

  /** The two filters are complementary: when the high-pass state is the part of its last
      input that the low-pass state does not hold, feeding both the same input keeps it so. */
  lemma HighPassIsComplementOfLowPass(x: real, hp: Hp1State, lp: LpfState, dt: real, rc: real)
    requires rc + dt != 0.0
    requires hp.y == hp.x - lp.y
    ensures Hp1(x, hp, dt, rc).y == x - Lpf(x, lp, dt, rc).y
  {
    var a, b := HpAlpha(rc, dt), LpAlpha(rc, dt);
    var d := x - lp.y;
    assert a + b == 1.0;
    assert hp.y + x - hp.x == d;
    assert Hp1(x, hp, dt, rc).y == a * d;
    assert Lpf(x, lp, dt, rc).y == lp.y + b * d;
    calc {
      x - Lpf(x, lp, dt, rc).y;
    ==
      d - b * d;
    == { assert b == 1.0 - a; }
      d - (1.0 - a) * d;
    ==
      a * d;
    }
  }

  /** The squares of the values of `xs`, position by position. */
  function Squares(xs: seq<real>): (r: seq<real>)
    ensures |r| == |xs|
    ensures forall i :: 0 <= i < |xs| ==> r[i] == xs[i] * xs[i]
  {
    seq(|xs|, i requires 0 <= i < |xs| => xs[i] * xs[i])
  }

  lemma SquaresAppend(xs: seq<real>, v: real)
    ensures Squares(xs + [v]) == Squares(xs) + [v * v]
  {
    var l, r := Squares(xs + [v]), Squares(xs) + [v * v];
    assert |l| == |r|;
    forall i | 0 <= i < |l|
      ensures l[i] == r[i]
    {
      if i < |xs| {
        assert (xs + [v])[i] == xs[i];
      }
    }
  }

  /** Extending a window by one element adds that element's square to the sum of squares. */
  lemma SumSquaresExtend(buf: seq<real>, lo: int, i: int)
    requires 0 <= lo <= i < |buf|
    ensures Sum(Squares(buf[lo..i + 1])) == Sum(Squares(buf[lo..i])) + buf[i] * buf[i]
  {
    var w, v := buf[lo..i], buf[i];
    calc {
      Sum(Squares(buf[lo..i + 1]));
    == { assert buf[lo..i + 1] == w + [v]; }
      Sum(Squares(w + [v]));
    == { SquaresAppend(w, v); }
      Sum(Squares(w) + [v * v]);
    == { SumSnoc(Squares(w), v * v); }
      Sum(Squares(w)) + v * v;
    }
  }

  /** The last `min(|buf|, window)` elements of `buf`. */
  function Last(buf: seq<real>, window: int): seq<real>
    requires window > 0
  {
    var n := if |buf| < window then |buf| else window;
    buf[|buf| - n..]
  }

  /** `rollingRms`: 0 for an empty buffer or a non-positive window, otherwise the root of the
      mean square of the last `min(length, window)` values. */
  method RollingRms(buf: seq<real>, window: int, root: real -> real) returns (r: real)
    ensures |buf| == 0 || window <= 0 ==> r == 0.0
    ensures |buf| > 0 && window > 0 ==> r == root(Mean(Squares(Last(buf, window))))
  {
    if |buf| == 0 || window <= 0 {
      return 0.0;
    }
    var n := if |buf| < window then |buf| else window;
    var lo := |buf| - n;
    var s := 0.0;
    var i := lo;
    while i < |buf|
      invariant lo <= i <= |buf|
      invariant s == Sum(Squares(buf[lo..i]))
    {
      SumSquaresExtend(buf, lo, i);
      s := s + buf[i] * buf[i];
      i := i + 1;
    }
    assert buf[lo..i] == Last(buf, window);
    r := root(s / (n as real));
  }

  /** The mean square under the root is never negative, so with a true square root the result
      is non-negative and its square is exactly that mean square. */
  lemma RollingRmsSquare(buf: seq<real>, window: int, root: real -> real)
    requires IsSqrt(root)
    requires |buf| > 0 && window > 0
    ensures Mean(Squares(Last(buf, window))) >= 0.0
    ensures root(Mean(Squares(Last(buf, window)))) >= 0.0
    ensures root(Mean(Squares(Last(buf, window)))) * root(Mean(Squares(Last(buf, window))))
            == Mean(Squares(Last(buf, window)))
  {
    var sq := Squares(Last(buf, window));
    SumNonNegative(sq);
    assert Mean(sq) == Sum(sq) / (|sq| as real);
  }
}
