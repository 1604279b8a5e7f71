/**
 Properties of the alpha-beta filter over one update and over a stream of
 updates, as a caller sees them when it hands the filter one observation
 after another.
 */
module FilterProperties {
  import opened Filter

  /** The filter's state after a stream of updates, and the estimates it handed back. */
  datatype Trace = Trace(state: FilterState, estimates: seq<Sample>)

  /** Feeds the samples `xs` to the filter in order, starting from state `s`. */
  function Run(s: FilterState, xs: seq<Sample>): (r: Trace)
    ensures |r.estimates| == |xs|
    ensures r.state.alpha == s.alpha && r.state.beta == s.beta
    ensures r.state.initialTime == s.initialTime
    // the committed estimate stands at the time of the last input, or where it was
    ensures r.state.lastSample.time == if xs == [] then s.lastSample.time else xs[|xs| - 1].time
    decreases |xs|
  {
    if xs == [] then
      Trace(s, [])
    else
      var u := Step(s, xs[0]);
      var rest := Run(u.state, xs[1..]);
      Trace(rest.state, [u.estimate] + rest.estimates)
  }

  /** Feeding a stream in two parts is feeding it at once. */
  lemma {:induction false} RunAppend(s: FilterState, xs: seq<Sample>, ys: seq<Sample>)
    ensures var first := Run(s, xs);
            var second := Run(first.state, ys);
            Run(s, xs + ys) == Trace(second.state, first.estimates + second.estimates)
    decreases |xs|
  {
    if xs == [] {
      assert xs + ys == ys;
    } else {
      var u := Step(s, xs[0]);
      assert (xs + ys)[0] == xs[0];
      assert (xs + ys)[1..] == xs[1..] + ys;
      RunAppend(u.state, xs[1..], ys);
      var tail := Run(u.state, xs[1..]);
      var second := Run(tail.state, ys);
      assert Run(s, xs) == Trace(tail.state, [u.estimate] + tail.estimates);
      assert Run(s, xs + ys) == Trace(second.state, [u.estimate] + (tail.estimates + second.estimates));
      assert [u.estimate] + (tail.estimates + second.estimates) == ([u.estimate] + tail.estimates) + second.estimates;
    }
  }

  /**
   After any nonempty stream, sending its last sample again is a pass-through:
   it returns that sample, and the state changes only in `dt`, which becomes 0.
   */
  lemma ResendingLastSampleIsPassThrough(s: FilterState, xs: seq<Sample>)
    requires xs != []
    ensures var before := Run(s, xs);
            var after := Run(s, xs + [xs[|xs| - 1]]);
            after == Trace(before.state.(dt := 0.0), before.estimates + [xs[|xs| - 1]])
  {
    var x := xs[|xs| - 1];
    var before := Run(s, xs);
    RunAppend(s, xs, [x]);
    assert [x][1..] == [];
    assert Run(before.state, [x]) == Trace(before.state.(dt := 0.0), [x]);
  }

  /** Every estimate handed back stands at the time of the input it answers. */
  lemma {:induction false} EstimatesKeepInputTimes(s: FilterState, xs: seq<Sample>)
    ensures forall i :: 0 <= i < |xs| ==> Run(s, xs).estimates[i].time == xs[i].time
    decreases |xs|
  {
    if xs != [] {
      var u := Step(s, xs[0]);
      EstimatesKeepInputTimes(u.state, xs[1..]);
      var r := Run(s, xs);
      forall i | 1 <= i < |xs|
        ensures r.estimates[i].time == xs[i].time
      {
        assert r.estimates[i] == Run(u.state, xs[1..]).estimates[i - 1];
        assert xs[i] == xs[1..][i - 1];
      }
    }
  }

  /** An update changes the committed estimate exactly when time has elapsed since it. */
  lemma UpdateMovesEstimateIff(s: FilterState, x: Sample)
    ensures Step(s, x).state.lastSample == s.lastSample <==> x.time == s.lastSample.time
    ensures Step(s, x).state.lastDerivative != s.lastDerivative ==> x.time != s.lastSample.time
  {
  }

  /** The same sample fed twice in a row: the second update is a pass-through that only clears `dt`. */
  lemma RepeatedSampleIsPassThrough(s: FilterState, x: Sample)
    ensures var once := Step(s, x).state;
            Step(once, x) == Update(once.(dt := 0.0), x)
  {
  }

  /** Reset brings the filter back to its constructed state exactly when the derivative and `dt` are both 0. */
  lemma ResetRestoresInitialIff(s: FilterState)
    ensures ResetState(s) == Initial(s.alpha, s.beta, s.initialTime)
            <==> s.lastDerivative == 0.0 && s.dt == 0.0
  {
  }

  /**
   With both gains 0 the filter never corrects: from a zero derivative every
   estimate that is not a pass-through holds the committed value.
   */
  lemma {:induction false} ZeroGainsHoldValue(s: FilterState, xs: seq<Sample>)
    requires s.alpha == 0.0 && s.beta == 0.0 && s.lastDerivative == 0.0
    ensures Run(s, xs).state.lastDerivative == 0.0
    ensures Run(s, xs).state.lastSample.value == s.lastSample.value
    ensures forall i :: 0 <= i < |xs| ==>
              Run(s, xs).estimates[i] == xs[i] || Run(s, xs).estimates[i].value == s.lastSample.value
    decreases |xs|
  {
    if xs != [] {
      var u := Step(s, xs[0]);
      assert u.state.lastDerivative == 0.0 && u.state.lastSample.value == s.lastSample.value;
      assert u.estimate == xs[0] || u.estimate.value == s.lastSample.value;
      ZeroGainsHoldValue(u.state, xs[1..]);
      var r := Run(s, xs);
      forall i | 1 <= i < |xs|
        ensures r.estimates[i] == xs[i] || r.estimates[i].value == s.lastSample.value
      {
        assert r.estimates[i] == Run(u.state, xs[1..]).estimates[i - 1];
        assert xs[i] == xs[1..][i - 1];
      }
    }
  }

  /** A sample lies on the line of slope `k` and offset `c`. */
  predicate OnLine(x: Sample, k: real, c: real)
  {
    x.value == k * x.time + c
  }

  /** One update on a line the filter already follows leaves no innovation. */
  lemma LinearStep(s: FilterState, x: Sample, k: real, c: real)
    requires s.lastDerivative == k && OnLine(s.lastSample, k, c) && OnLine(x, k, c)
    ensures Step(s, x).estimate == x
    ensures Step(s, x).state.lastDerivative == k && OnLine(Step(s, x).state.lastSample, k, c)
  {
  }

  /**
   Once the filter follows a line exactly (its estimate on it, its derivative
   equal to the slope), it reproduces every sample of that line, for any
   gains and any order of timestamps.
   */
  lemma {:induction false} LinearSignalIsTrackedExactly(s: FilterState, xs: seq<Sample>, k: real, c: real)
    requires s.lastDerivative == k && OnLine(s.lastSample, k, c)
    requires forall i :: 0 <= i < |xs| ==> OnLine(xs[i], k, c)
    ensures Run(s, xs).estimates == xs
    ensures Run(s, xs).state.lastDerivative == k && OnLine(Run(s, xs).state.lastSample, k, c)
    decreases |xs|
  {
    if xs != [] {
      LinearStep(s, xs[0], k, c);
      LinearSignalIsTrackedExactly(Step(s, xs[0]).state, xs[1..], k, c);
      assert [xs[0]] + xs[1..] == xs;
    }
  }

  /** Two updates on a filter with alpha 0.5, beta 0.1 and time origin 0. */
  method WorkedExample() returns (first: Sample, firstDerivative: real, second: Sample, secondDerivative: real)
    ensures first == Sample(1.0, 5.0) && firstDerivative == 1.0
    ensures second == Sample(2.0, 13.0) && secondDerivative == 2.4
  {
    var filter := new AlphaBetaFilter(0.5, 0.1, 0.0);
    first := filter.AddSample(Sample(1.0, 10.0));
    firstDerivative := filter.LastDerivative;
    second := filter.AddSample(Sample(2.0, 20.0));
    secondDerivative := filter.LastDerivative;
  }
}
