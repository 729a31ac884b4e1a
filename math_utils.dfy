/** Left-rectangle (forward Euler) Riemann-sum integration of a uniformly
    sampled rate signal, as the helpers of demo/math_utils.py compute it.
    Samples are exact reals, so the order in which terms are added does not
    change a sum. */
module MathUtils {

  /** The sum of the samples, accumulated from the left. */
  function Sum(s: seq<real>): real
    decreases |s|
  {
    if s == [] then 0.0 else Sum(s[..|s| - 1]) + s[|s| - 1]
  }

  /** Every sample multiplied by `k` (numpy's `array * k`). */
  function Scale(s: seq<real>, k: real): (r: seq<real>)
    ensures |r| == |s|
    ensures forall i :: 0 <= i < |s| ==> r[i] == s[i] * k
  {
    seq(|s|, i requires 0 <= i < |s| => s[i] * k)
  }

  /** Running totals, the semantics of numpy's `cumsum`:
      [v0, v1, v2] becomes [v0, v0 + v1, v0 + v1 + v2]. Each element is the
      previous total plus the next sample. */
  function CumSum(s: seq<real>): (r: seq<real>)
    ensures |r| == |s|
    decreases |s|
  {
    if s == [] then []
    else
      var prev := CumSum(s[..|s| - 1]);
      prev + [(if prev == [] then 0.0 else prev[|prev| - 1]) + s[|s| - 1]]
  }

  /** The list the accumulation loops build: the area `value * dt` of each
      rectangle is added to the running total, which starts at 0, and every
      new total is appended. */
  function Integral(data: seq<real>, dt: real): (r: seq<real>)
    ensures |r| == |data|
    decreases |data|
  {
    if data == [] then []
    else
      var prev := Integral(data[..|data| - 1], dt);
      prev + [(if prev == [] then 0.0 else prev[|prev| - 1]) + data[|data| - 1] * dt]
  }

  /** `calculate_riemann_sum_np`: the cumulative sum of the samples, then
      multiplied by `dt`. */
  function RiemannSumNp(data: seq<real>, dt: real): (r: seq<real>)
    ensures |r| == |data|
  {
    Scale(CumSum(data), dt)
  }

  /** `calculate_riemann_sum`: a running accumulator `currentArea` and a list
      that each step appends the accumulator to. */
  method RiemannSum(data: seq<real>, dt: real) returns (result: seq<real>)
    ensures result == Integral(data, dt)
  {
    result := [];
    var currentArea := 0.0;
    for i := 0 to |data|
      invariant result == Integral(data[..i], dt)
      invariant currentArea == if i == 0 then 0.0 else result[i - 1]
    {
      var value := data[i];
      var rectangleArea := value * dt;
      currentArea := currentArea + rectangleArea;
      IntegralSnoc(data[..i], value, dt);
      assert data[..i + 1] == data[..i] + [value];
      result := result + [currentArea];
    }
    assert data[..|data|] == data;
  }

  /** `calculate_riemann_sum2`: the documented copy of the same accumulation
      loop (rectangle area, add to the total, save the state). */
  method RiemannSum2(data: seq<real>, dt: real) returns (result: seq<real>)
    ensures result == Integral(data, dt)
  {
    result := [];
    var currentArea := 0.0;
    for i := 0 to |data|
      invariant result == Integral(data[..i], dt)
      invariant currentArea == if i == 0 then 0.0 else result[i - 1]
    {
      var velocityValue := data[i];
      var rectangleArea := velocityValue * dt;
      currentArea := currentArea + rectangleArea;
      IntegralSnoc(data[..i], velocityValue, dt);
      assert data[..i + 1] == data[..i] + [velocityValue];
      result := result + [currentArea];
    }
    assert data[..|data|] == data;
  }

  /** A caller of both loop versions sees the same list from each, for every
      input and every step size. */
  method RiemannSumVariantsAgree(data: seq<real>, dt: real) returns (first: seq<real>, second: seq<real>)
    ensures first == second
    ensures |first| == |data|
  {
    first := RiemannSum(data, dt);
    second := RiemannSum2(data, dt);
  }

  // ----- Lemmas about sums -----

  /** Summing from the left equals taking off the first sample and summing the rest. */
  lemma {:induction false} SumFront(s: seq<real>)
    requires |s| > 0
    ensures Sum(s) == s[0] + Sum(s[1..])
  {
    if |s| > 1 {
      var init := s[..|s| - 1];
      SumFront(init);
      assert init[1..] == s[1..][..|s[1..]| - 1];
    }
  }

  /** Scaling a prefix is the prefix of the scaled samples. */
  lemma {:induction false} ScaleHead(s: seq<real>, k: real, n: nat)
    requires n <= |s|
    ensures Scale(s, k)[..n] == Scale(s[..n], k)
  {
    forall j | 0 <= j < n ensures Scale(s, k)[..n][j] == Scale(s[..n], k)[j] {
      assert s[..n][j] == s[j];
    }
  }

  /** Scaling every sample scales the sum (distributivity). */
  lemma {:induction false} SumScale(s: seq<real>, k: real)
    ensures Sum(Scale(s, k)) == Sum(s) * k
  {
    if s != [] {
      var init := s[..|s| - 1];
      SumScale(init, k);
      ScaleHead(s, k, |s| - 1);
    }
  }

  // ----- Closed forms -----

  /** Element `i` of the running totals is the sum of the first `i + 1` samples. */
  lemma {:induction false} CumSumAt(s: seq<real>, i: nat)
    requires i < |s|
    ensures CumSum(s)[i] == Sum(s[..i + 1])
  {
    var n := |s|;
    var init := s[..n - 1];
    if i == n - 1 {
      assert s[..i + 1] == s;
      if n > 1 {
        CumSumAt(init, n - 2);
        assert init[..n - 1] == init;
      }
    } else {
      CumSumAt(init, i);
      assert init[..i + 1] == s[..i + 1];
    }
  }

  /** The documented formula Position[i] = Sum(Velocity[0...i] * dt): element
      `i` of the accumulated list is `dt` times the sum of the first `i + 1`
      samples. */
  lemma {:induction false} IntegralAt(data: seq<real>, dt: real, i: nat)
    requires i < |data|
    ensures Integral(data, dt)[i] == dt * Sum(data[..i + 1])
  {
    var n := |data|;
    var init := data[..n - 1];
    if i == n - 1 {
      assert data[..i + 1] == data;
      if n > 1 {
        IntegralAt(init, dt, n - 2);
        assert init[..n - 1] == init;
      }
    } else {
      IntegralAt(init, dt, i);
      assert init[..i + 1] == data[..i + 1];
    }
  }

  // ----- Properties of the integral -----

  /** The last element of a non-empty integral extends the integral of the
      samples before it. */
  lemma IntegralLast(data: seq<real>, dt: real)
    requires data != []
    ensures var prev := Integral(data[..|data| - 1], dt);
      Integral(data, dt) == prev + [(if prev == [] then 0.0 else prev[|prev| - 1]) + data[|data| - 1] * dt]
  {
  }

  /** One more sample adds one more element: the previous total plus the new
      rectangle. This is the step the accumulation loops take. */
  lemma {:induction false} IntegralSnoc(s: seq<real>, x: real, dt: real)
    ensures Integral(s + [x], dt)
         == Integral(s, dt) + [(if s == [] then 0.0 else Integral(s, dt)[|s| - 1]) + x * dt]
  {
    var t := s + [x];
    IntegralLast(t, dt);
    assert t[..|t| - 1] == s;
    var prev := Integral(s, dt);
    var area := t[|t| - 1] * dt;
    assert area == x * dt;
    var total := if prev == [] then 0.0 else prev[|prev| - 1];
    assert Integral(t, dt) == prev + [total + area];
    assert [total + area] == [total + x * dt];
  }

  /** The first element is the first rectangle; every later element adds the
      next rectangle to the one before it. */
  lemma {:induction false} IntegralRecurrence(data: seq<real>, dt: real, i: nat)
    requires i < |data|
    ensures i == 0 ==> Integral(data, dt)[0] == data[0] * dt
    ensures i > 0 ==> Integral(data, dt)[i] == Integral(data, dt)[i - 1] + data[i] * dt
  {
    IntegralAt(data, dt, i);
    var head := data[..i + 1];
    assert head[..|head| - 1] == data[..i];
    assert Sum(head) == Sum(data[..i]) + data[i];
    if i == 0 {
      assert data[..i] == [];
      Split(dt, 0.0, data[i]);
    } else {
      IntegralAt(data, dt, i - 1);
      assert data[..i - 1 + 1] == data[..i];
      Split(dt, Sum(data[..i]), data[i]);
    }
  }

  /** Multiplying a sum by the step size, term by term. */
  lemma Split(dt: real, a: real, b: real)
    ensures dt * (a + b) == dt * a + b * dt
  {
  }

  /** The last element is the whole integral: `dt` times the sum of all samples. */
  lemma {:induction false} IntegralTotal(data: seq<real>, dt: real)
    requires |data| > 0
    ensures Integral(data, dt)[|data| - 1] == dt * Sum(data)
  {
    IntegralAt(data, dt, |data| - 1);
    assert data[..|data|] == data;
  }

  /** Over the reals, "cumsum then multiply by dt" equals "multiply by dt then
      accumulate", element by element. */
  lemma {:induction false} NpAgreesWithLoop(data: seq<real>, dt: real)
    ensures RiemannSumNp(data, dt) == Integral(data, dt)
  {
    forall i | 0 <= i < |data|
      ensures RiemannSumNp(data, dt)[i] == Integral(data, dt)[i]
    {
      CumSumAt(data, i);
      IntegralAt(data, dt, i);
    }
  }

  /** Linearity: integrating `k * data` gives `k` times the integral of `data`. */
  lemma {:induction false} IntegralLinear(data: seq<real>, k: real, dt: real)
    ensures Integral(Scale(data, k), dt) == Scale(Integral(data, dt), k)
  {
    forall i | 0 <= i < |data|
      ensures Integral(Scale(data, k), dt)[i] == Scale(Integral(data, dt), k)[i]
    {
      IntegralLinearAt(data, k, dt, i);
    }
  }

  /** Linearity at one index. */
  lemma {:induction false} IntegralLinearAt(data: seq<real>, k: real, dt: real, i: nat)
    requires i < |data|
    ensures Integral(Scale(data, k), dt)[i] == Integral(data, dt)[i] * k
  {
    var prefix := data[..i + 1];
    var scaled := Scale(data, k);
    IntegralAt(scaled, dt, i);
    assert Integral(scaled, dt)[i] == dt * Sum(scaled[..i + 1]);
    ScaleHead(data, k, i + 1);
    assert scaled[..i + 1] == Scale(prefix, k);
    SumScale(prefix, k);
    assert Sum(scaled[..i + 1]) == Sum(prefix) * k;
    IntegralAt(data, dt, i);
    assert Integral(data, dt)[i] == dt * Sum(prefix);
    Reassociate(dt, Sum(prefix), k);
  }

  /** Multiplication by the step size and by a constant factor commute. */
  lemma Reassociate(dt: real, a: real, k: real)
    ensures dt * (a * k) == (dt * a) * k
  {
  }

  /** Integrating all-zero samples yields all zeros. */
  lemma {:induction false} IntegralOfZeros(data: seq<real>, dt: real)
    requires forall i :: 0 <= i < |data| ==> data[i] == 0.0
    ensures forall i :: 0 <= i < |data| ==> Integral(data, dt)[i] == 0.0
  {
    assert data == Scale(data, 0.0);
    IntegralLinear(data, 0.0, dt);
  }

  /** The worked examples of the routine's documentation, exactly over the
      reals: [1, 2, 3] with step 0.1 gives [0.1, 0.3, 0.6]. */
  lemma {:induction false} IntegralExampleRamp()
    ensures Integral([1.0, 2.0, 3.0], 0.1) == [0.1, 0.3, 0.6]
  {
    var one, two, three := [1.0], [1.0, 2.0], [1.0, 2.0, 3.0];
    IntegralSnoc([], 1.0, 0.1);
    assert [] + [1.0] == one;
    assert Integral(one, 0.1) == [0.1];
    IntegralSnoc(one, 2.0, 0.1);
    assert one + [2.0] == two;
    assert Integral(two, 0.1) == [0.1, 0.3];
    IntegralSnoc(two, 3.0, 0.1);
    assert two + [3.0] == three;
  }

  /** [0, 0, 0] with step 0.5 gives [0, 0, 0]. */
  lemma {:induction false} IntegralExampleZeros()
    ensures Integral([0.0, 0.0, 0.0], 0.5) == [0.0, 0.0, 0.0]
  {
    IntegralOfZeros([0.0, 0.0, 0.0], 0.5);
  }

  /** [-1, 1] with step 1 gives [-1, 0], and no samples give no positions. */
  lemma {:induction false} IntegralExampleSigns()
    ensures Integral([-1.0, 1.0], 1.0) == [-1.0, 0.0]
    ensures Integral([], 0.1) == []
  {
    assert |Integral([], 0.1)| == 0;
    var one, two := [-1.0], [-1.0, 1.0];
    IntegralSnoc([], -1.0, 1.0);
    assert [] + [-1.0] == one;
    assert Integral(one, 1.0) == [-1.0];
    IntegralSnoc(one, 1.0, 1.0);
    assert one + [1.0] == two;
  }
}
