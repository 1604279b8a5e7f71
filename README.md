# Alpha-beta filter of the inertial navigation system, in Dafny

This project models `AlphaBetaFilter`, the scalar tracking filter that the inertial
navigation system uses to denoise a sensor channel. The filter takes raw samples
(a time and a value). For each one it predicts the value at the sample's time from
its last estimate and its last derivative. It then corrects the prediction by
`alpha` times the innovation (the measured value minus the prediction) and corrects
the derivative by `beta` times the innovation per unit of elapsed time. A sample
with no elapsed time since the last estimate passes through unfiltered.

- `filter.dfy`, module `Filter`:
  - the value types `Sample` and `FilterState`;
  - `Initial`, the state right after construction (AlphaBetaFilter.cs:25-31);
  - `Predicted`, the value extrapolated from the last estimate along the last derivative (AlphaBetaFilter.cs:46-48);
  - `ResetState`, the state after a reset (AlphaBetaFilter.cs:83-86);
  - the pure update `Step`;
  - the class `AlphaBetaFilter`. Its fields are those of the original (`Alpha`,
    `Beta`, `LastSample`, `InitialTime`, `LastDerivative`, `dt`), and its methods
    assign them in place. Each method states its new fields in terms of the old
    ones and matches `Step`, `ResetState` or a gain update on the `FilterState`
    snapshot.
- `properties.dfy`, module `FilterProperties`:
  - `Run`, a caller feeding the filter a stream of samples one call after another;
  - lemmas over one update and over streams;
  - `WorkedExample`: a filter with alpha 0.5, beta 0.1 and time origin 0 is fed (1, 10) and then (2, 20); its postconditions give the expected estimates and derivatives.

All arithmetic is exact `real` arithmetic. It is not IEEE-754 `double` arithmetic.

Two points of the class's behaviour that are easy to misread:
- On the pass-through path (zero elapsed time), `dt` is still assigned first
  (AlphaBetaFilter.cs:41), so it becomes 0. It does not keep its old value, and the
  state is not left wholly untouched.
- `Reset` (AlphaBetaFilter.cs:83-86) reassigns only `LastSample`. `LastDerivative`
  and `dt` keep their values, so a reset returns the filter to its constructed state
  only when both are already 0 (`ResetRestoresInitialIff`).

## Model

| member | source | states |
|---|---|---|
| `Filter.Step` | InertialNavigationSystem/AlphaBetaFilter.cs:38-60 | An update never changes the gains or the time origin. The committed estimate and the returned estimate both stand at the input's time. With zero elapsed time the input comes back unchanged and the only state change is `dt` becoming 0. Otherwise the returned estimate is the one committed and `dt` is nonzero. |
| `Filter.AlphaBetaFilter.constructor` | InertialNavigationSystem/AlphaBetaFilter.cs:25-31 | The object holds the given gains and time origin, the estimate `(initialTime, 0)`, derivative 0 and `dt` 0. |
| `Filter.AlphaBetaFilter.AddSample` | InertialNavigationSystem/AlphaBetaFilter.cs:38-60 | `dt` is the input time minus the old estimate time. If `dt` is 0, the input is returned and the estimate and derivative are kept. Otherwise, with prediction `p = old value + old derivative * dt`, the call returns `(time, p + Alpha*(value - p))`, commits it, and sets the derivative to `old + Beta*(value - p)/dt`. The gains and time origin are unchanged. The new fields equal `Step` of the old ones. |
| `Filter.AlphaBetaFilter.SetAlpha` | InertialNavigationSystem/AlphaBetaFilter.cs:66-69 | `Alpha` takes the new value and every other field is unchanged. |
| `Filter.AlphaBetaFilter.SetBeta` | InertialNavigationSystem/AlphaBetaFilter.cs:75-78 | `Beta` takes the new value and every other field is unchanged. |
| `Filter.AlphaBetaFilter.Reset` | InertialNavigationSystem/AlphaBetaFilter.cs:83-86 | The estimate becomes `(InitialTime, 0)`. The gains, time origin, derivative and `dt` are unchanged. |
| `FilterProperties.Run` | InertialNavigationSystem/AlphaBetaFilter.cs:38-60 | Across a stream of updates there is one estimate per input. The gains and time origin never change. The committed estimate stands at the time of the last input, or where it started if the stream is empty. |
| `FilterProperties.RunAppend` | InertialNavigationSystem/AlphaBetaFilter.cs:38-60 | A structural fact about the stream model: feeding two streams one after the other gives the same final state and estimates as feeding their concatenation. |
| `FilterProperties.ResendingLastSampleIsPassThrough` | InertialNavigationSystem/AlphaBetaFilter.cs:41-44 | After any nonempty stream, sending its last sample again returns that sample. The final state differs only in `dt`, which becomes 0. |
| `FilterProperties.EstimatesKeepInputTimes` | InertialNavigationSystem/AlphaBetaFilter.cs:41-58 | In a stream, every returned estimate carries the time of the input it answers. |
| `FilterProperties.UpdateMovesEstimateIff` | InertialNavigationSystem/AlphaBetaFilter.cs:41-56 | An update changes the committed estimate if and only if time has elapsed since it. The derivative changes only when time has elapsed. |
| `FilterProperties.RepeatedSampleIsPassThrough` | InertialNavigationSystem/AlphaBetaFilter.cs:41-56 | Feeding the same sample twice in a row makes the second call a pass-through. It returns the sample and changes nothing except setting `dt` to 0. |
| `FilterProperties.ResetRestoresInitialIff` | InertialNavigationSystem/AlphaBetaFilter.cs:83-86 | A reset yields the constructed state if and only if the derivative and `dt` are both already 0. |
| `FilterProperties.ZeroGainsHoldValue` | InertialNavigationSystem/AlphaBetaFilter.cs:46-56 | Start with both gains 0 and derivative 0. Then across any stream the derivative stays 0 and the committed value never moves. Every returned estimate is either the raw input (a pass-through) or holds that value. |
| `FilterProperties.LinearStep` | InertialNavigationSystem/AlphaBetaFilter.cs:46-54 | Suppose the estimate lies on a line, the derivative equals its slope, and the input lies on the same line. Then the innovation is 0, the input is returned, and the filter stays on the line. |
| `FilterProperties.LinearSignalIsTrackedExactly` | InertialNavigationSystem/AlphaBetaFilter.cs:41-58 | Once the filter follows a line exactly, it returns every sample of that line unchanged, for any gains and any order of timestamps. |
| `FilterProperties.WorkedExample` | InertialNavigationSystem/AlphaBetaFilter.cs:25-58 | A filter with alpha 0.5, beta 0.1 and time origin 0 is fed `(1, 10)` and then `(2, 20)`. It returns `(1, 5)` with derivative 1, then `(2, 13)` with derivative 2.4. |

## Left out

- IEEE-754 `double` behaviour: NaN and infinity propagation (`inf - inf` is NaN, so two samples both at time +∞ do not pass through), and the rounding of a nonzero `dt` before it scales the derivative (AlphaBetaFilter.cs:48) and divides the innovation (AlphaBetaFilter.cs:54). Every quantity is an exact `real`, so NaN propagation (a NaN input making every later output NaN until `Reset`) has no counterpart in the model.
- Reference identity of `Sample`: if `Sample` is a class, the estimate `AddSample` returns is the same object it stores as `LastSample`, and a pass-through returns the caller's own object; if it is a struct, nothing is lost. `Sample` here is an immutable value, so aliasing between the returned sample and the filter's state is not modelled.
- The `IFilter` interface (AlphaBetaFilter.cs:9) and the `Sample` type's own definition are not part of this model. Only the `(time, value)` pair is modelled.
- Convergence of the derivative towards the slope of a linear input, for stable gains and increasing times, is an asymptotic property rather than a per-call contract, and is not modelled. The exact fixed-point case, `LinearSignalIsTrackedExactly`, is.
- Accessor visibility (`protected set`, `private set`) and the `using` directives have no behaviour and are not modelled. The constructor's optional `initialTime = 0` is an ordinary parameter here.
