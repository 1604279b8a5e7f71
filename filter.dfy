/**
 The alpha-beta tracking filter of the inertial navigation system.

 Every quantity of the original is a `double`; here it is an exact `real`,
 so rounding, NaN and infinities do not arise.

 `FilterState` and `Step` are the filter's behaviour as values; the class
 `AlphaBetaFilter` updates its fields in place, as the original does, and
 each of its methods is proved against those values.
 */
module Filter {

  /** One scalar observation or estimate: a value at a point in time. */
  datatype Sample = Sample(time: real, value: real)

  /** Everything the filter remembers, field by field. */
  datatype FilterState = FilterState(
    alpha: real,
    beta: real,
    lastSample: Sample,
    initialTime: real,
    lastDerivative: real,
    dt: real)

  /** The state right after construction. */
  function Initial(alpha: real, beta: real, initialTime: real): FilterState
  {
    FilterState(alpha, beta, Sample(initialTime, 0.0), initialTime, 0.0, 0.0)
  }

  /** The state after a reset: only the committed sample goes back to the time origin. */
  function ResetState(s: FilterState): FilterState
  {
    s.(lastSample := Sample(s.initialTime, 0.0))
  }

  /** The value the filter expects at time `t`, extrapolating its last estimate along its derivative. */
  function Predicted(s: FilterState, t: real): real
  {
    s.lastSample.value + s.lastDerivative * (t - s.lastSample.time)
  }

  /** What one update produces: the new state and the sample handed back to the caller. */
  datatype Update = Update(state: FilterState, estimate: Sample)

  /**
   One update with a raw sample `x`. With no elapsed time the sample is
   passed through and only the diagnostic `dt` changes (to 0); otherwise the
   prediction is corrected by `alpha` times the innovation and the derivative
   by `beta` times the innovation per unit of elapsed time.
   */
  function Step(s: FilterState, x: Sample): (r: Update)
    // the gains and the time origin are never touched by an update
    ensures r.state.alpha == s.alpha && r.state.beta == s.beta
    ensures r.state.initialTime == s.initialTime
    // the committed estimate always stands at the time of the last input
    ensures r.state.lastSample.time == x.time
    ensures r.estimate.time == x.time
    // with no elapsed time nothing is filtered and the filter's memory is kept
    ensures x.time == s.lastSample.time ==>
              r.estimate == x && r.state == s.(dt := 0.0)
    // otherwise the returned estimate is what the filter commits
    ensures x.time != s.lastSample.time ==>
              r.state.lastSample == r.estimate && r.state.dt != 0.0
  {
    var d := x.time - s.lastSample.time;
    if d == 0.0 then
      Update(s.(dt := d), x)
    else
      var p := Predicted(s, x.time);
      var error := x.value - p;
      var est := Sample(x.time, p + s.alpha * error);
      Update(s.(lastSample := est, lastDerivative := s.lastDerivative + (s.beta * error) / d, dt := d), est)
  }

  /** The filter object; its fields are those of the original class. */
  class AlphaBetaFilter {
    var Alpha: real
    var Beta: real
    var LastSample: Sample
    var InitialTime: real
    var LastDerivative: real
    var dt: real

    /** The object's fields as one value. */
    function Snapshot(): FilterState
      reads this
    {
      FilterState(Alpha, Beta, LastSample, InitialTime, LastDerivative, dt)
    }

    constructor (alpha: real, beta: real, initialTime: real)
      ensures Alpha == alpha && Beta == beta && InitialTime == initialTime
      ensures LastSample == Sample(initialTime, 0.0)
      ensures LastDerivative == 0.0 && dt == 0.0
      ensures Snapshot() == Initial(alpha, beta, initialTime)
    {
      LastDerivative := 0.0;
      dt := 0.0;
      Alpha := alpha;
      Beta := beta;
      InitialTime := initialTime;
      new;
      Reset();
    }

    /** Filters one raw sample and returns the estimate at its time. */
    method AddSample(sample: Sample) returns (estimate: Sample)
      modifies this
      ensures Alpha == old(Alpha) && Beta == old(Beta) && InitialTime == old(InitialTime)
      ensures dt == sample.time - old(LastSample.time)
      ensures LastSample.time == sample.time
      ensures dt == 0.0 ==>
                estimate == sample &&
                LastSample == old(LastSample) && LastDerivative == old(LastDerivative)
      ensures dt != 0.0 ==>
                var p := old(LastSample.value) + old(LastDerivative) * dt;
                && estimate == Sample(sample.time, p + Alpha * (sample.value - p))
                && LastDerivative == old(LastDerivative) + (Beta * (sample.value - p)) / dt
                && LastSample == estimate
      ensures Update(Snapshot(), estimate) == Step(old(Snapshot()), sample)
    {
      dt := sample.time - LastSample.time;

      if dt == 0.0 {
        return sample;
      }

      var estSample := Sample(sample.time, LastSample.value);
      estSample := estSample.(value := estSample.value + LastDerivative * dt);
      var error := sample.value - estSample.value;
      estSample := estSample.(value := estSample.value + Alpha * error);
      LastDerivative := LastDerivative + (Beta * error) / dt;
      LastSample := estSample;
      return estSample;
    }

    method SetAlpha(alpha: real)
      modifies this
      ensures Alpha == alpha
      ensures Snapshot() == old(Snapshot()).(alpha := alpha)
    {
      Alpha := alpha;
    }

    method SetBeta(beta: real)
      modifies this
      ensures Beta == beta
      ensures Snapshot() == old(Snapshot()).(beta := beta)
    {
      Beta := beta;
    }

    /** Puts the committed estimate back at the time origin; the derivative and `dt` are kept. */
    method Reset()
      modifies this
      ensures LastSample == Sample(InitialTime, 0.0)
      ensures Alpha == old(Alpha) && Beta == old(Beta) && InitialTime == old(InitialTime)
      ensures LastDerivative == old(LastDerivative) && dt == old(dt)
      ensures Snapshot() == ResetState(old(Snapshot()))
    {
      LastSample := Sample(InitialTime, 0.0);
    }
  }
}
