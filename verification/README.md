# Signal-filtering pipeline of influxdb-viz-and-filters, in Dafny

This project models the filtering core of a small temperature-charting app:

- `SimpleKalmanFilter` (`kalman.dfy`, module `Kalman`): a scalar Kalman filter
  with constant process noise Q and measurement noise R. Its five mutable
  fields and its two fixed noise parameters form the state record
  `KalmanState`. `Update` is one call of `update(measurement)`, and `Get` is
  `get()`.
- The filter interface (`filters.dfy`, module `Filters`): a filter is a
  deterministic state machine. `Filter<S>` has an `update` that returns the
  next state and the value the call returns, and a `get` that reads the
  estimate off a state. `Run` feeds a sequence of measurements through a
  filter. `Readings` lists what `get` reports after each step. `Coherent`
  says that `update` returns exactly what a following `get` reports.
- `ChainableFilter` (`chainable.dfy`, module `Chainable`): the generic
  composition of two filters. The chain's state is the pair of their states.
  An update feeds the measurement to A, feeds A's result to B, and returns B's
  `get`.
- `visReducer` (`vis_reducer.dfy`, module `VisReducer`): a pure function on a
  `map<string, VisChart>`. A `DATA_LOADED` action stores the rows under
  "Temperature". It also derives "Temperature (KF)", "Temperature (MA)" and
  "Temperature (KFMA)" from the rows, using filters built fresh for the call.
  Every other action returns the state unchanged.

The moving-average filter's source is not part of this model. The reducer
takes it as a parameter `MovingAverage<M>`: an opaque `Filter<M>` plus a
constructor that takes the window size (the reducer passes 10). Nothing is
assumed about its window semantics. The `x` of a chart point is a type
parameter, because the source types it `any`.

Numbers are Dafny `real`. The Kalman update requires
`predictedUncertainty + measurementNoise != 0`, because the source's division
is unguarded there. The generic `Filter` needs a total step, so the Kalman
filter takes part in chains and in the reducer on the subset type
`ValidKalman`. A valid state has R > 0, Q >= 0,
0 <= estimateUncertainty <= predictedUncertainty, predictedEstimate == estimate
and a gain in [0, 1). `UpdatePreservesValid` proves that updates keep this
invariant. The reducer's constants (0, 1000, 0.5, 1.2) give a valid state.

At `src/filters/simple-kalman.filter.ts:26` the new estimate uncertainty is
`(1 - gain)` times the PREVIOUS estimate uncertainty. The textbook Kalman
recurrence uses the predicted uncertainty there. The model follows the code,
and `UncertaintyQuirk` compares the two values. A consequence is proved by
`UpdateShrinksByFactor`, `RunUncertaintyDecays` and
`UncertaintyDecaysAfterFirst`. Once the prediction carries the process noise,
which holds after every update, each step multiplies the estimate uncertainty
by at most R / (Q + R). So after the first measurement, n more measurements
leave at most (R / (Q + R))^n times the uncertainty the first one left. With
Q > 0 it tends to zero. This is unlike the textbook filter, whose posterior
uncertainty settles at a fixed point that depends on Q.

## Model

| member | source | states |
|---|---|---|
| Kalman.Create | src/filters/simple-kalman.filter.ts:8-17 | a new filter holds the given estimate, estimate uncertainty and noises; its prediction equals the initial estimate and uncertainty, its gain is 0, and `get()` returns the initial estimate before any update |
| Kalman.CreateValid | src/filters/simple-kalman.filter.ts:8-17 | a new filter satisfies the invariant exactly when R > 0, Q >= 0 and the initial uncertainty is >= 0 (both directions) |
| Kalman.Get | src/filters/simple-kalman.filter.ts:34-36 | reads the current estimate and changes nothing |
| Kalman.Update | src/filters/simple-kalman.filter.ts:19-36 | the gain g solves g·(P + R) = P for the prediction uncertainty P; the estimate is the mix (1-g)·prediction + g·measurement; the uncertainty is estU·R/(P + R); the new prediction equals the estimate and the new uncertainty plus Q; the noises do not change; the returned value is what `get()` then reports |
| Kalman.GainInUnitInterval | src/filters/simple-kalman.filter.ts:20-22 | with prediction uncertainty >= 0 and R > 0, the gain lies in [0, 1) |
| Kalman.EstimateBetween | src/filters/simple-kalman.filter.ts:23-25 | the new estimate lies between the previous prediction and the measurement |
| Kalman.ApproachesMeasurement | src/filters/simple-kalman.filter.ts:23-25 | measuring v never takes the estimate further from v than the previous prediction was |
| Kalman.UncertaintyShrinks | src/filters/simple-kalman.filter.ts:26 | the estimate uncertainty stays >= 0 and never increases |
| Kalman.UncertaintyQuirk | src/filters/simple-kalman.filter.ts:26 | the uncertainty the code computes is at most the textbook (1-g)·P, and equals it exactly when the previous estimate uncertainty equals P |
| Kalman.UpdatePreservesValid | src/filters/simple-kalman.filter.ts:19-29 | an update keeps the invariant (non-negative uncertainties, prediction = estimate, gain in [0, 1)) |
| Kalman.Step | src/filters/simple-kalman.filter.ts:19-32 | on a valid state, the returned value is the new estimate, lies between the old estimate and the measurement, the uncertainty does not grow and the noises stay fixed |
| Kalman.KalmanFilter | src/filters/simple-kalman.filter.ts:3-37 | the class as a filter on valid states: its `update` is the Kalman update and its `get` reads the estimate |
| Kalman.KalmanCoherent | src/filters/simple-kalman.filter.ts:31-36 | `update` returns exactly what an immediately following `get()` returns |
| Kalman.RunApproachesConstant | src/filters/simple-kalman.filter.ts:19-32 | fed a constant v, the distance of the successive estimates to v is non-increasing and never exceeds the starting distance |
| Kalman.RunKeepsParameters | src/filters/simple-kalman.filter.ts:10-13 | after any number of updates Q and R are unchanged and the estimate uncertainty has not grown |
| Kalman.UpdateShrinksByFactor | src/filters/simple-kalman.filter.ts:26-29 | once P >= Q, one update leaves at most R / (Q + R) times the estimate uncertainty |
| Kalman.RunUncertaintyDecays | src/filters/simple-kalman.filter.ts:19-32 | from a valid state with P >= Q, n updates leave at most (R / (Q + R))^n times the estimate uncertainty |
| Kalman.UncertaintyDecaysAfterFirst | src/filters/simple-kalman.filter.ts:19-32 | from any valid state, after 1 + n updates the estimate uncertainty is at most (R / (Q + R))^n times what the first update left |
| Filters.Run | src/contexts/vis.reducer.ts:51 | a run returns one value per measurement, the first being the first update's result |
| Filters.RunLastIsGet | src/filters/simple-kalman.filter.ts:31-36 | for a filter whose update returns its `get`, after a non-empty run `get` reports the last value returned |
| Chainable.ChainUpdate | src/filters/chainable.filter.ts:10-13 | one chain update advances A by one step on the measurement and B by one step on A's returned value, and returns B's `get` afterwards |
| Chainable.ChainGet | src/filters/chainable.filter.ts:6-8 | reads B's estimate and changes nothing |
| Chainable.ChainFilter | src/filters/chainable.filter.ts:3-14 | the class as a filter over the pair of states: its `update` is a chain update and its `get` reads B's estimate |
| Chainable.ChainCoherent | src/filters/chainable.filter.ts:6-13 | for any A and B, the chain's update returns what the chain's `get` then reports |
| Chainable.ChainRun | src/filters/chainable.filter.ts:10-13 | after n chain updates A is where a standalone A fed the same n inputs ends, B is where a standalone B fed A's outputs ends, and the chain's outputs are B's readings after each of those steps |
| Chainable.ChainRunCoherent | src/filters/chainable.filter.ts:11 | when B's update returns its `get`, the chain's outputs equal B's outputs on A's output sequence |
| VisReducer.InitialState | src/contexts/vis.context.tsx:24-30 | the state before any load holds only an empty "Temperature" chart, with no filter |
| VisReducer.FreshKalman | src/contexts/vis.reducer.ts:49 | the reducer's Kalman filter starts at estimate 0 and uncertainty 1000, with Q = 0.5 and R = 1.2; its prediction starts at 0 with uncertainty 1000, and its gain at 0 |
| VisReducer.FilterRows | src/contexts/vis.reducer.ts:50-51 | mapping rows through a filter keeps the length and every row's x; the new y-values are the filter's outputs on the old ones, in order |
| VisReducer.Reduce | src/contexts/vis.reducer.ts:40-72 | a non-`DATA_LOADED` action returns the state unchanged; a load adds exactly the four series keys, keeps every other chart, and stores the rows unchanged, with no filter, under "Temperature" |
| VisReducer.LoadKeepsShape | src/contexts/vis.reducer.ts:45-65 | each of the four series has one point per row, with that row's x at the same index |
| VisReducer.FreshKalmanFirstStep | src/filters/simple-kalman.filter.ts:20-25 | the first update of the reducer's fresh Kalman filter returns (1000/1001.2) times the measurement |
| VisReducer.StoredFilterStates | src/contexts/vis.reducer.ts:49-65 | the filter stored with "Temperature (KF)" is where a fresh Kalman filter ends after the rows' y-values; with "Temperature (MA)", where a fresh moving average ends after them; with "Temperature (KFMA)", that Kalman state paired with where a fresh moving average ends after the Kalman outputs |
| VisReducer.LoadKalmanSeries | src/contexts/vis.reducer.ts:49-53 | "Temperature (KF)" y-values are the outputs of a fresh Kalman(0, 1000, 0.5, 1.2) fed the rows' y-values; the first is (1000/1001.2)·y0 |
| VisReducer.LoadMovingAverageSeries | src/contexts/vis.reducer.ts:55-59 | "Temperature (MA)" y-values are the outputs of a fresh moving average of window 10 fed the rows' y-values |
| VisReducer.LoadChainSeries | src/contexts/vis.reducer.ts:61-65 | "Temperature (KFMA)" y-values are what a fresh moving average reports after each step when fed the "Temperature (KF)" values, because the chain's Kalman filter is fresh and identical to the KF one |
| VisReducer.LoadChainSeriesCoherent | src/contexts/vis.reducer.ts:61-65 | when the moving average's update returns its `get`, "Temperature (KFMA)" y-values are the outputs of a fresh moving average fed the "Temperature (KF)" y-values |
| VisReducer.StoredKalmanFilter | src/contexts/vis.reducer.ts:49-53 | for non-empty rows the Kalman filter stored with "Temperature (KF)" reports that series' last y |
| VisReducer.StoredAverageFilter | src/contexts/vis.reducer.ts:55-59 | for non-empty rows, and a moving average whose update returns its `get`, the filter stored with "Temperature (MA)" reports that series' last y |
| VisReducer.StoredChainFilter | src/contexts/vis.reducer.ts:61-65 | for non-empty rows the chain stored with "Temperature (KFMA)" reports that series' last y |
| VisReducer.LoadEmpty | src/contexts/vis.reducer.ts:45-65 | loading no rows yields the four series, each empty |
| VisReducer.LoadIgnoresPreviousState | src/contexts/vis.reducer.ts:49-65 | the four series depend only on the loaded rows, not on the state they replace |
| VisReducer.SecondLoadReplaces | src/contexts/vis.reducer.ts:40-72 | a load after any action gives the same state as that load alone |
| VisReducer.LoadFromInitialState | src/contexts/vis.context.tsx:24-30 | from the initial state (only an empty "Temperature"), a load yields exactly the four series |

## Left out

- Moving-average filter: its source (`filters/moving-average.filter.ts`) is not part of this model. It is an opaque parameter, so no property of its window or mean is stated.
- The `IFilter` interface (`filters/base.ts`) is not part of this model. Its role is played by the `Filter<S>` datatype.
- Kalman.Step: the generic Kalman filter runs only on valid states (R > 0, Q >= 0, non-negative uncertainties). The source accepts any parameters. `Kalman.Update` covers every state whose gain division is defined.
- VisReducer.StoredAverageFilter: this holds only when the moving average's update returns its own `get`, because its source is not modelled.
- VisReducer.LoadChainSeriesCoherent: the equality with the moving average's outputs needs the same hypothesis, for the same reason.
- IEEE-754 behaviour (rounding, NaN, infinities, division by zero) is not modelled: numbers are reals.
- `get()` is a pure read of a state value. That it mutates nothing, and that two calls agree, holds by construction and is not a separate lemma.
- Aliasing from the shallow copy `{ ...state }` is not modelled. The reducer writes into the previous state's `charts` object in place, but the model is a functional map update.
- Data loading over the network (`executeQuery`, `createQuery`), the sort by date, React context wiring, rendering, date pickers and time-zone conversion are I/O and UI code and are left out.
- The order sensitivity of a chain (A then B differs from B then A) is not stated: it needs a concrete second filter, and the moving average is opaque here.
- Overlapping asynchronous loads that resolve out of order are concurrency and are left out.
