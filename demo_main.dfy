/** The simulation in `main` of demo/main.py: a piecewise "true" velocity
    profile, a measured velocity that adds sensor noise to it, an integration
    loop that starts at index 1 over preallocated zero arrays, and the final
    position error. The time grid and the noise are inputs of the model. */
module DemoMain {
  import opened MathUtils

  datatype Option<T> = None | Some(value: T)

  /** Sampling time of the simulation, in seconds. */
  const Dt: real := 0.1
  /** Length of the simulation, in seconds. */
  const TotalTime: real := 10.0
  /** Number of time samples: the simulation divided into steps of `Dt`. */
  const Samples: nat := 100

  /** `np.arange(0, total_time, dt)` over the reals: the multiples of `Dt`
      from 0, each before the end of the simulation, and the next multiple after the
      last one is exactly the end of the simulation. */
  function TimeGrid(): (r: seq<real>)
    ensures |r| > 0
    ensures forall i :: 0 <= i < |r| ==> r[i] == i as real * Dt && 0.0 <= r[i] < TotalTime
    ensures |r| as real * Dt == TotalTime
  {
    seq(Samples, i requires 0 <= i < Samples => i as real * Dt)
  }

  // ----- The true velocity profile -----

  /** The mask of the ramp-up phase, `t < 2`. */
  predicate RampUpMask(x: real) { x < 2.0 }
  /** The mask of the cruise phase, `(t >= 2) & (t < 8)`. */
  predicate CruiseMask(x: real) { 2.0 <= x && x < 8.0 }
  /** The mask of the ramp-down phase, `t >= 8`. */
  predicate RampDownMask(x: real) { x >= 8.0 }

  /** Reference definition of the profile, one formula per phase: accelerate
      at 1 m/s^2 for two seconds, cruise at 2 m/s, then decelerate at 1 m/s^2.
      During the simulation it stays between 0 and 2 m/s, and the cruise value holds
      on the closed interval [2, 8]: the ramp-up formula reaches it at 2 and
      the ramp-down formula starts from it at 8. */
  function TrueVelocity(x: real): (r: real)
    ensures 0.0 <= x <= TotalTime ==> 0.0 <= r <= 2.0
    ensures 2.0 <= x <= 8.0 ==> r == 2.0
  {
    if x < 2.0 then x else if x < 8.0 then 2.0 else 2.0 - (x - 8.0)
  }

  /** The profile applied to every sample of a time grid. */
  function TrueVelocities(t: seq<real>): (r: seq<real>)
    ensures |r| == |t|
    ensures forall i :: 0 <= i < |t| ==> r[i] == TrueVelocity(t[i])
  {
    seq(|t|, i requires 0 <= i < |t| => TrueVelocity(t[i]))
  }

  /** The three masks partition the reals: every time sample lies in exactly
      one phase, so the masked assignments write each sample once. */
  lemma MasksPartition(x: real)
    ensures RampUpMask(x) || CruiseMask(x) || RampDownMask(x)
    ensures !(RampUpMask(x) && CruiseMask(x))
    ensures !(RampUpMask(x) && RampDownMask(x))
    ensures !(CruiseMask(x) && RampDownMask(x))
  {
  }

  /** numpy's masked assignment `v[mask(t)] = value(t[mask(t)])`: every index
      whose time sample satisfies the mask is overwritten with the value
      computed from that sample, every other index keeps what it held. */
  method MaskedAssign(v: array<real>, t: array<real>, mask: real -> bool, value: real -> real)
    requires v.Length == t.Length && v != t
    modifies v
    ensures forall i :: 0 <= i < v.Length ==> v[i] == if mask(t[i]) then value(t[i]) else old(v[i])
  {
    for i := 0 to v.Length
      invariant forall j :: 0 <= j < i ==> v[j] == if mask(t[j]) then value(t[j]) else old(v[j])
      invariant forall j :: i <= j < v.Length ==> v[j] == old(v[j])
    {
      if mask(t[i]) {
        v[i] := value(t[i]);
      }
    }
  }

  /** Step 2 of `main`: a zero array shaped like `t`, then one masked
      assignment per phase. The result is the reference profile at every
      sample. */
  method TrueVelocityProfile(t: array<real>) returns (v: array<real>)
    ensures fresh(v) && v.Length == t.Length
    ensures forall i :: 0 <= i < t.Length ==> v[i] == TrueVelocity(t[i])
  {
    v := new real[t.Length](_ => 0.0);
    MaskedAssign(v, t, RampUpMask, x => x * 1.0);
    MaskedAssign(v, t, CruiseMask, _ => 2.0);
    MaskedAssign(v, t, RampDownMask, x => 2.0 - (x - 8.0));
    forall i | 0 <= i < t.Length ensures v[i] == TrueVelocity(t[i]) {
      MasksPartition(t[i]);
    }
  }

  // ----- Measured velocity -----

  /** Element-wise sum of two signals of the same length (numpy's `a + b`). */
  function AddSignals(a: seq<real>, b: seq<real>): (r: seq<real>)
    requires |a| == |b|
    ensures |r| == |a|
    ensures forall i :: 0 <= i < |a| ==> r[i] == a[i] + b[i]
  {
    seq(|a|, i requires 0 <= i < |a| => a[i] + b[i])
  }

  /** Dropping the first samples of both signals drops them from the sum. */
  lemma {:induction false} AddSignalsTail(a: seq<real>, b: seq<real>)
    requires |a| == |b| > 0
    ensures AddSignals(a, b)[1..] == AddSignals(a[1..], b[1..])
  {
    forall j | 0 <= j < |a| - 1 ensures AddSignals(a, b)[1..][j] == AddSignals(a[1..], b[1..])[j] {
    }
  }

  /** Sums distribute over the element-wise sum of two signals. */
  lemma {:induction false} SumAddSignals(a: seq<real>, b: seq<real>)
    requires |a| == |b|
    ensures Sum(AddSignals(a, b)) == Sum(a) + Sum(b)
  {
    if a != [] {
      var n := |a|;
      SumAddSignals(a[..n - 1], b[..n - 1]);
      assert AddSignals(a, b)[..n - 1] == AddSignals(a[..n - 1], b[..n - 1]);
    }
  }

  // ----- The index-1 integration loop -----

  /** What the integration loop of `main` leaves in a position array: index 0
      stays at its zero initial value, and from index 1 on the rectangles of
      samples 1, 2, ... are accumulated. Sample 0 is never read. */
  function ShiftedIntegral(v: seq<real>, dt: real): (r: seq<real>)
    ensures |r| == |v|
  {
    if v == [] then [] else [0.0] + Integral(v[1..], dt)
  }

  /** Index 0 is zero; every later element adds the next rectangle to the one
      before it. */
  lemma {:induction false} ShiftedRecurrence(v: seq<real>, dt: real, i: nat)
    requires i < |v|
    ensures ShiftedIntegral(v, dt)[0] == 0.0
    ensures i > 0 ==> ShiftedIntegral(v, dt)[i] == ShiftedIntegral(v, dt)[i - 1] + v[i] * dt
  {
    if i > 0 {
      IntegralRecurrence(v[1..], dt, i - 1);
    }
  }

  /** Closed form: element `i` is `dt` times the sum of samples 1 to `i`. */
  lemma {:induction false} ShiftedAt(v: seq<real>, dt: real, i: nat)
    requires i < |v|
    ensures ShiftedIntegral(v, dt)[i] == dt * Sum(v[1..i + 1])
  {
    if i > 0 {
      IntegralAt(v[1..], dt, i - 1);
      assert v[1..][..i] == v[1..i + 1];
    } else {
      assert v[1..1] == [];
    }
  }

  /** The last position is `dt` times the sum of every sample but the first. */
  lemma {:induction false} ShiftedTotal(v: seq<real>, dt: real, n: nat)
    requires n == |v| > 0
    ensures ShiftedIntegral(v, dt)[n - 1] == dt * Sum(v[1..])
  {
    ShiftedAt(v, dt, n - 1);
    assert v[1..n] == v[1..];
  }

  /** Multiplying by the step size keeps a split of a sum. */
  lemma Distribute(dt: real, total: real, part: real, rest: real)
    requires total == part + rest
    ensures dt * total - dt * part == dt * rest
    ensures dt * total - part * dt == dt * rest
  {
  }

  /** Sample 0 never contributes: signals that differ only there integrate to
      the same positions. */
  lemma {:induction false} FirstSampleIgnored(v: seq<real>, w: seq<real>, dt: real)
    requires |v| == |w|
    requires forall i :: 1 <= i < |v| ==> v[i] == w[i]
    ensures ShiftedIntegral(v, dt) == ShiftedIntegral(w, dt)
  {
    if v != [] {
      assert v[1..] == w[1..];
    }
  }

  /** The off-by-one between the two conventions: the loop of `main` gives the
      `calculate_riemann_sum` result minus the first rectangle, at every index. */
  lemma {:induction false} OffByOne(v: seq<real>, dt: real, i: nat)
    requires i < |v|
    ensures ShiftedIntegral(v, dt)[i] == Integral(v, dt)[i] - v[0] * dt
  {
    ShiftedAt(v, dt, i);
    IntegralAt(v, dt, i);
    var head := v[..i + 1];
    SumFront(head);
    assert head[1..] == v[1..i + 1];
    Distribute(dt, Sum(head), v[0], Sum(v[1..i + 1]));
  }

  /** Step 4 of `main`: two zero arrays shaped like the signals, and one loop
      from index 1 that accumulates the rectangles of the measured and of the
      true velocity and stores each running total at its index. */
  method IntegrateFromOne(measured: array<real>, truth: array<real>)
    returns (estimated: array<real>, truePos: array<real>)
    requires measured.Length == truth.Length
    ensures fresh(estimated) && fresh(truePos)
    ensures estimated.Length == truePos.Length == measured.Length
    ensures estimated[..] == ShiftedIntegral(measured[..], Dt)
    ensures truePos[..] == ShiftedIntegral(truth[..], Dt)
  {
    var n := measured.Length;
    ghost var m, v := measured[..], truth[..];
    ghost var est, tru := ShiftedIntegral(m, Dt), ShiftedIntegral(v, Dt);
    estimated := new real[n](_ => 0.0);
    truePos := new real[n](_ => 0.0);
    var currentEstPos := 0.0;
    var currentTruePos := 0.0;
    if n > 0 {
      ShiftedRecurrence(m, Dt, 0);
      ShiftedRecurrence(v, Dt, 0);
    }
    var i := 1;
    while i < n
      invariant n == 0 || 1 <= i <= n
      invariant forall j :: 0 <= j < i && j < n ==> estimated[j] == est[j]
      invariant forall j :: 0 <= j < i && j < n ==> truePos[j] == tru[j]
      invariant n > 0 ==> currentEstPos == est[i - 1]
      invariant n > 0 ==> currentTruePos == tru[i - 1]
    {
      ShiftedRecurrence(m, Dt, i);
      ShiftedRecurrence(v, Dt, i);
      var dxEst := measured[i] * Dt;
      var dxTrue := truth[i] * Dt;
      currentEstPos := currentEstPos + dxEst;
      currentTruePos := currentTruePos + dxTrue;
      estimated[i] := currentEstPos;
      truePos[i] := currentTruePos;
      i := i + 1;
    }
    if n > 0 {
      assert i == n;
    }
    assert estimated[..] == est;
    assert truePos[..] == tru;
  }

  // ----- The final error -----

  /** Because the measured signal is the true one plus noise, the final error
      of the index-1 integration is `dt` times the sum of the noise samples
      from index 1 on. */
  lemma {:induction false} FinalErrorIsNoise(truth: seq<real>, noise: seq<real>, dt: real, n: nat)
    requires n == |truth| == |noise| > 0
    ensures ShiftedIntegral(AddSignals(truth, noise), dt)[n - 1] - ShiftedIntegral(truth, dt)[n - 1]
         == dt * Sum(noise[1..])
  {
    var measured := AddSignals(truth, noise);
    ShiftedTotal(measured, dt, n);
    ShiftedTotal(truth, dt, n);
    SumTailAddSignals(truth, noise);
    Distribute(dt, Sum(measured[1..]), Sum(truth[1..]), Sum(noise[1..]));
  }

  /** The sum of a measured signal from index 1 on splits into the sums of the
      true signal and of the noise from index 1 on. */
  lemma {:induction false} SumTailAddSignals(truth: seq<real>, noise: seq<real>)
    requires |truth| == |noise| > 0
    ensures Sum(AddSignals(truth, noise)[1..]) == Sum(truth[1..]) + Sum(noise[1..])
  {
    AddSignalsTail(truth, noise);
    SumAddSignals(truth[1..], noise[1..]);
  }

  /** The computation of `main` from the time grid to the final error. The
      noise is any sequence with one sample per time step. On an empty grid
      `estimated_position[-1]` raises an IndexError, modelled as `None`. */
  method Simulate(t: array<real>, noise: seq<real>)
    returns (estimated: array<real>, truePos: array<real>, error: Option<real>)
    requires |noise| == t.Length
    ensures estimated.Length == truePos.Length == t.Length
    ensures truePos[..] == ShiftedIntegral(TrueVelocities(t[..]), Dt)
    ensures estimated[..] == ShiftedIntegral(AddSignals(TrueVelocities(t[..]), noise), Dt)
    ensures error == if t.Length == 0 then None else Some(Dt * Sum(noise[1..]))
  {
    ghost var ts := t[..];
    ghost var tv := TrueVelocities(ts);
    ghost var mv := AddSignals(tv, noise);
    ghost var est := ShiftedIntegral(mv, Dt);
    ghost var tru := ShiftedIntegral(tv, Dt);
    var n := t.Length;
    ghost var finalError := 0.0;
    if n > 0 {
      finalError := Dt * Sum(noise[1..]);
      FinalErrorIsNoise(tv, noise, Dt, n);
      assert est[n - 1] - tru[n - 1] == finalError;
    }
    var trueVelocity := TrueVelocityProfile(t);
    assert trueVelocity[..] == tv;
    var measuredVelocity := new real[t.Length](i requires 0 <= i < t.Length reads trueVelocity =>
                                                 trueVelocity[i] + noise[i]);
    assert measuredVelocity[..] == mv;
    estimated, truePos := IntegrateFromOne(measuredVelocity, trueVelocity);
    assert estimated[..] == est && truePos[..] == tru;
    if n == 0 {
      error := None;
    } else {
      assert estimated[n - 1] == est[n - 1];
      assert truePos[n - 1] == tru[n - 1];
      error := Some(estimated[n - 1] - truePos[n - 1]);
      assert estimated[n - 1] - truePos[n - 1] == est[n - 1] - tru[n - 1];
      assert error == Some(finalError);
    }
    assert t[..] == ts;
  }

  /** `main` on its own time grid: with one noise sample per time step the
      grid is not empty, and the final error is `Dt` times the sum of the
      noise samples from index 1 on. */
  method RunSimulation(noise: seq<real>)
    returns (estimated: array<real>, truePos: array<real>, error: real)
    requires |noise| == |TimeGrid()|
    ensures truePos[..] == ShiftedIntegral(TrueVelocities(TimeGrid()), Dt)
    ensures estimated[..] == ShiftedIntegral(AddSignals(TrueVelocities(TimeGrid()), noise), Dt)
    ensures error == Dt * Sum(noise[1..])
  {
    var t := new real[Samples](i requires 0 <= i < Samples => i as real * Dt);
    assert t[..] == TimeGrid();
    var result;
    estimated, truePos, result := Simulate(t, noise);
    error := result.value;
  }
}
