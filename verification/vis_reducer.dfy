/** The chart state and its reducer (`visReducer`).

The state maps series names to charts. Loading a batch of rows stores the raw
rows under "Temperature" and derives three filtered series from them, each
with a filter built fresh for the call: a Kalman filter, a moving average of
window 10, and a chain of a second fresh Kalman filter feeding a second fresh
moving average. Any other action leaves the state as it is.

The moving-average filter is not part of this model: the reducer receives it
as a parameter, an opaque filter over some state type M together with the
constructor that yields a fresh state for a given window size. The `x` of a
row is opaque too (a type parameter X).
 */
module VisReducer {
  import opened Filters
  import opened Kalman
  import opened Chainable

  datatype Option<+T> = None | Some(value: T)

  /** One plotted point. */
  datatype ChartData<X> = ChartData(x: X, y: real)

  /** The filter instance kept with a derived series. */
  datatype FilterInstance<M> =
    | KalmanInstance(kalman: ValidKalman)
    | MovingAverageInstance(average: M)
    | ChainInstance(upstream: ValidKalman, downstream: M)

  datatype VisChart<X, M> = VisChart(data: seq<ChartData<X>>, filter: Option<FilterInstance<M>>)

  datatype VisState<X, M> = VisState(charts: map<string, VisChart<X, M>>)

  /** An action: its type tag, and the rows a load carries. */
  datatype VisAction<X> = VisAction(kind: string, rows: seq<ChartData<X>>)

  /** The opaque moving-average filter: its step and read-out, and a constructor
      taking the window size. */
  datatype MovingAverage<!M> = MovingAverage(filter: Filter<M>, create: nat -> M)

  const DataLoaded: string := "DATA_LOADED"

  const Temperature: string := "Temperature"
  const TemperatureKF: string := "Temperature (KF)"
  const TemperatureMA: string := "Temperature (MA)"
  const TemperatureKFMA: string := "Temperature (KFMA)"
  const SeriesNames: set<string> := {Temperature, TemperatureKF, TemperatureMA, TemperatureKFMA}

  const MovingAverageWindow: nat := 10

  /** The state before any load: an empty raw series and nothing else. */
  function InitialState<X, M>(): VisState<X, M>
  {
    VisState(map[Temperature := VisChart([], None)])
  }

  /** The reducer's Kalman filter: estimate 0, uncertainty 1000, process noise
      0.5, measurement noise 1.2; the prediction starts at the estimate and its
      uncertainty, and the gain at 0. */
  function FreshKalman(): (s: ValidKalman)
    ensures s.estimate == 0.0 && s.estimateUncertainty == 1000.0
    ensures s.predictedEstimate == 0.0 && s.predictedUncertainty == 1000.0 && s.gain == 0.0
    ensures s.processNoise == 0.5 && s.measurementNoise == 1.2
  {
    Create(0.0, 1000.0, 0.5, 1.2)
  }

  /** The y-values of a series. */
  function Ys<X>(rows: seq<ChartData<X>>): (ys: seq<real>)
    ensures |ys| == |rows|
    ensures forall i :: 0 <= i < |rows| ==> ys[i] == rows[i].y
  {
    seq(|rows|, i requires 0 <= i < |rows| => rows[i].y)
  }

  /** Maps the rows through one filter in order, replacing each y by the value
      the filter's update returns; also yields the filter's final state. */
  function FilterRows<X, S>(f: Filter<S>, s: S, rows: seq<ChartData<X>>): (r: (seq<ChartData<X>>, S))
    ensures |r.0| == |rows|
    ensures forall i :: 0 <= i < |rows| ==> r.0[i].x == rows[i].x
    ensures Ys(r.0) == Run(f, s, Ys(rows)).outputs
    ensures r.1 == Run(f, s, Ys(rows)).state
    decreases |rows|
  {
    if |rows| == 0 then ([], s)
    else
      var (s1, y) := f.update(s, rows[0].y);
      var rest := FilterRows(f, s1, rows[1..]);
      assert Ys(rows)[0] == rows[0].y;
      assert Ys(rows)[1..] == Ys(rows[1..]);
      var data := [rows[0].(y := y)] + rest.0;
      assert Ys(data) == [y] + Ys(rest.0);
      (data, rest.1)
  }

  /** The three derived series, each produced by a filter built fresh for the
      load, together with that filter's final state. */
  function KalmanSeries<X>(rows: seq<ChartData<X>>): (seq<ChartData<X>>, ValidKalman)
  {
    FilterRows(KalmanFilter(), FreshKalman(), rows)
  }

  function AverageSeries<X, M>(rows: seq<ChartData<X>>, ma: MovingAverage<M>): (seq<ChartData<X>>, M)
  {
    FilterRows(ma.filter, ma.create(MovingAverageWindow), rows)
  }

  function ChainSeries<X, M>(rows: seq<ChartData<X>>, ma: MovingAverage<M>): (seq<ChartData<X>>, (ValidKalman, M))
  {
    FilterRows(ChainFilter(KalmanFilter(), ma.filter), (FreshKalman(), ma.create(MovingAverageWindow)), rows)
  }

  /** The four charts the `DATA_LOADED` branch writes, computed from the rows alone. */
  function LoadedCharts<X, M>(rows: seq<ChartData<X>>, ma: MovingAverage<M>): (charts: map<string, VisChart<X, M>>)
    ensures charts.Keys == SeriesNames
  {
    var kf := KalmanSeries(rows);
    var mv := AverageSeries(rows, ma);
    var chain := ChainSeries(rows, ma);
    map[
      Temperature := VisChart(rows, None),
      TemperatureKF := VisChart(kf.0, Some(KalmanInstance(kf.1))),
      TemperatureMA := VisChart(mv.0, Some(MovingAverageInstance(mv.1))),
      TemperatureKFMA := VisChart(chain.0, Some(ChainInstance(chain.1.0, chain.1.1)))]
  }

  /** The reducer: a load replaces the four series and keeps every other chart;
      any other action returns the state unchanged. */
  function Reduce<X, M>(state: VisState<X, M>, action: VisAction<X>, ma: MovingAverage<M>): (r: VisState<X, M>)
    ensures action.kind != DataLoaded ==> r == state
    ensures action.kind == DataLoaded ==> r.charts.Keys == state.charts.Keys + SeriesNames
    ensures action.kind == DataLoaded ==>
      forall k :: k in state.charts && k !in SeriesNames ==> r.charts[k] == state.charts[k]
    ensures action.kind == DataLoaded ==> r.charts[Temperature] == VisChart(action.rows, None)
  {
    if action.kind == DataLoaded then VisState(state.charts + LoadedCharts(action.rows, ma)) else state
  }

  /** `get` on a stored filter instance. */
  function InstanceGet<M>(inst: FilterInstance<M>, ma: MovingAverage<M>): real
  {
    match inst
    case KalmanInstance(k) => Get(k)
    case MovingAverageInstance(m) => ma.filter.get(m)
    case ChainInstance(u, d) => ChainGet(ma.filter, (u, d))
  }

  /** The derived charts a load stores, one by one. */
  lemma LoadedChartsAre<X, M>(state: VisState<X, M>, action: VisAction<X>, ma: MovingAverage<M>)
    requires action.kind == DataLoaded
    ensures Reduce(state, action, ma).charts[TemperatureKF]
         == VisChart(KalmanSeries(action.rows).0, Some(KalmanInstance(KalmanSeries(action.rows).1)))
    ensures Reduce(state, action, ma).charts[TemperatureMA]
         == VisChart(AverageSeries(action.rows, ma).0, Some(MovingAverageInstance(AverageSeries(action.rows, ma).1)))
    ensures Reduce(state, action, ma).charts[TemperatureKFMA]
         == VisChart(ChainSeries(action.rows, ma).0,
                     Some(ChainInstance(ChainSeries(action.rows, ma).1.0, ChainSeries(action.rows, ma).1.1)))
  {
    var loaded := LoadedCharts(action.rows, ma);
    assert Reduce(state, action, ma).charts == state.charts + loaded;
  }

  /** The filter instance a load stores with each derived series is the state a
      fresh filter ends in after the rows' y-values: the Kalman filter's run,
      the moving average's run, and for the chain the Kalman filter's run
      paired with the moving average's run on the Kalman outputs. */
  lemma StoredFilterStates<X, M>(state: VisState<X, M>, action: VisAction<X>, ma: MovingAverage<M>)
    requires action.kind == DataLoaded
    ensures Reduce(state, action, ma).charts[TemperatureKF].filter
         == Some(KalmanInstance(Run(KalmanFilter(), FreshKalman(), Ys(action.rows)).state))
    ensures Reduce(state, action, ma).charts[TemperatureMA].filter
         == Some(MovingAverageInstance(Run(ma.filter, ma.create(MovingAverageWindow), Ys(action.rows)).state))
    ensures Reduce(state, action, ma).charts[TemperatureKFMA].filter
         == Some(ChainInstance(Run(KalmanFilter(), FreshKalman(), Ys(action.rows)).state,
                               Run(ma.filter, ma.create(MovingAverageWindow),
                                   Run(KalmanFilter(), FreshKalman(), Ys(action.rows)).outputs).state))
  {
    LoadedChartsAre(state, action, ma);
    ChainRun(KalmanFilter(), ma.filter, FreshKalman(), ma.create(MovingAverageWindow), Ys(action.rows));
  }

  /** A series has one point per row, carrying that row's x. */
  ghost predicate SameShape<X>(data: seq<ChartData<X>>, rows: seq<ChartData<X>>)
  {
    |data| == |rows| && forall i :: 0 <= i < |rows| ==> data[i].x == rows[i].x
  }

  /** Every series a load stores has one point per row, with that row's x. */
  lemma LoadKeepsShape<X, M>(state: VisState<X, M>, action: VisAction<X>, ma: MovingAverage<M>)
    requires action.kind == DataLoaded
    ensures forall k :: k in SeriesNames ==> SameShape(Reduce(state, action, ma).charts[k].data, action.rows)
  {
    LoadedChartsAre(state, action, ma);
    var rows := action.rows;
    var charts := Reduce(state, action, ma).charts;
    assert SameShape(charts[Temperature].data, rows);
    assert SameShape(charts[TemperatureKF].data, rows);
    assert SameShape(charts[TemperatureMA].data, rows);
    assert SameShape(charts[TemperatureKFMA].data, rows);
  }

  /** The first step of the reducer's fresh Kalman filter has gain 1000 / 1001.2,
      so it returns that multiple of the measurement. */
  lemma FreshKalmanFirstStep(z: real)
    ensures KalmanFilter().update(FreshKalman(), z).1 == (1000.0 / 1001.2) * z
  {
    assert KalmanFilter().update(FreshKalman(), z) == Step(FreshKalman(), z);
    var s1 := Update(FreshKalman(), z).0;
    assert s1.gain * 1001.2 == 1000.0;
    assert s1.gain == 1000.0 / 1001.2;
  }

  /** "Temperature (KF)" holds the outputs of a fresh Kalman filter fed the rows'
      y-values in order; the first is 1000 / 1001.2 times the first y. */
  lemma LoadKalmanSeries<X, M>(state: VisState<X, M>, action: VisAction<X>, ma: MovingAverage<M>)
    requires action.kind == DataLoaded
    ensures Ys(Reduce(state, action, ma).charts[TemperatureKF].data)
         == Run(KalmanFilter(), FreshKalman(), Ys(action.rows)).outputs
    ensures |action.rows| > 0 ==>
      Reduce(state, action, ma).charts[TemperatureKF].data[0].y == (1000.0 / 1001.2) * action.rows[0].y
  {
    LoadedChartsAre(state, action, ma);
    var data := KalmanSeries(action.rows).0;
    var outs := Run(KalmanFilter(), FreshKalman(), Ys(action.rows)).outputs;
    assert Ys(data) == outs;
    if |action.rows| > 0 {
      var z := action.rows[0].y;
      assert Ys(action.rows)[0] == z;
      assert data[0].y == Ys(data)[0] == outs[0];
      FreshKalmanFirstStep(z);
    }
  }

  /** "Temperature (MA)" holds the outputs of a fresh moving average of window 10
      fed the rows' y-values in order. */
  lemma LoadMovingAverageSeries<X, M>(state: VisState<X, M>, action: VisAction<X>, ma: MovingAverage<M>)
    requires action.kind == DataLoaded
    ensures Ys(Reduce(state, action, ma).charts[TemperatureMA].data)
         == Run(ma.filter, ma.create(MovingAverageWindow), Ys(action.rows)).outputs
  {
    LoadedChartsAre(state, action, ma);
  }

  /** "Temperature (KFMA)" is a fresh moving average run over the "Temperature (KF)"
      values: the chain reports the moving average's reading after each step. */
  lemma LoadChainSeries<X, M>(state: VisState<X, M>, action: VisAction<X>, ma: MovingAverage<M>)
    requires action.kind == DataLoaded
    ensures Ys(Reduce(state, action, ma).charts[TemperatureKFMA].data)
         == Readings(ma.filter, ma.create(MovingAverageWindow), Ys(Reduce(state, action, ma).charts[TemperatureKF].data))
  {
    var ys := Ys(action.rows);
    var m0 := ma.create(MovingAverageWindow);
    LoadedChartsAre(state, action, ma);
    assert Ys(KalmanSeries(action.rows).0) == Run(KalmanFilter(), FreshKalman(), ys).outputs;
    assert Ys(ChainSeries(action.rows, ma).0) == Run(ChainFilter(KalmanFilter(), ma.filter), (FreshKalman(), m0), ys).outputs;
    ChainRun(KalmanFilter(), ma.filter, FreshKalman(), m0, ys);
  }

  /** When the moving average's update returns its own reading, "Temperature (KFMA)"
      holds exactly the outputs of a fresh moving average fed the "Temperature (KF)" values. */
  lemma LoadChainSeriesCoherent<X, M(!new)>(state: VisState<X, M>, action: VisAction<X>, ma: MovingAverage<M>)
    requires action.kind == DataLoaded
    requires Coherent(ma.filter)
    ensures Ys(Reduce(state, action, ma).charts[TemperatureKFMA].data)
         == Run(ma.filter, ma.create(MovingAverageWindow), Ys(Reduce(state, action, ma).charts[TemperatureKF].data)).outputs
  {
    LoadChainSeries(state, action, ma);
    CoherentReadings(ma.filter, ma.create(MovingAverageWindow), Ys(Reduce(state, action, ma).charts[TemperatureKF].data));
  }

  /** A chart's stored filter reports the chart's last value. */
  predicate ReportsLast<X, M>(c: VisChart<X, M>, ma: MovingAverage<M>)
  {
    c.filter.Some? && |c.data| > 0 && InstanceGet(c.filter.value, ma) == c.data[|c.data| - 1].y
  }

  /** For non-empty rows, the Kalman filter stored with "Temperature (KF)" is the
      one that produced it: its `get` reports the series' last value. */
  lemma StoredKalmanFilter<X, M>(state: VisState<X, M>, action: VisAction<X>, ma: MovingAverage<M>)
    requires action.kind == DataLoaded
    requires |action.rows| > 0
    ensures ReportsLast(Reduce(state, action, ma).charts[TemperatureKF], ma)
  {
    LoadedChartsAre(state, action, ma);
    var ys := Ys(action.rows);
    var n := |action.rows| - 1;
    KalmanCoherent();
    RunLastIsGet(KalmanFilter(), FreshKalman(), ys);
    var kf := KalmanSeries(action.rows);
    assert Ys(kf.0)[n] == kf.0[n].y;
  }

  /** For non-empty rows, the chain stored with "Temperature (KFMA)" reports the
      series' last value. */
  lemma StoredChainFilter<X, M(!new)>(state: VisState<X, M>, action: VisAction<X>, ma: MovingAverage<M>)
    requires action.kind == DataLoaded
    requires |action.rows| > 0
    ensures ReportsLast(Reduce(state, action, ma).charts[TemperatureKFMA], ma)
  {
    LoadedChartsAre(state, action, ma);
    var ys := Ys(action.rows);
    var n := |action.rows| - 1;
    var m0 := ma.create(MovingAverageWindow);
    ChainCoherent(KalmanFilter(), ma.filter);
    RunLastIsGet(ChainFilter(KalmanFilter(), ma.filter), (FreshKalman(), m0), ys);
    var ch := ChainSeries(action.rows, ma);
    assert Ys(ch.0)[n] == ch.0[n].y;
  }

  /** For non-empty rows, and a moving average whose update returns its own
      reading, the moving average stored with "Temperature (MA)" reports the
      series' last value. */
  lemma StoredAverageFilter<X, M(!new)>(state: VisState<X, M>, action: VisAction<X>, ma: MovingAverage<M>)
    requires action.kind == DataLoaded
    requires |action.rows| > 0
    requires Coherent(ma.filter)
    ensures ReportsLast(Reduce(state, action, ma).charts[TemperatureMA], ma)
  {
    LoadedChartsAre(state, action, ma);
    var ys := Ys(action.rows);
    var n := |action.rows| - 1;
    RunLastIsGet(ma.filter, ma.create(MovingAverageWindow), ys);
    var mv := AverageSeries(action.rows, ma);
    assert Ys(mv.0)[n] == mv.0[n].y;
  }

  /** Loading no rows yields the four series, all empty. */
  lemma LoadEmpty<X, M>(state: VisState<X, M>, action: VisAction<X>, ma: MovingAverage<M>)
    requires action.kind == DataLoaded && action.rows == []
    ensures forall k :: k in SeriesNames ==> k in Reduce(state, action, ma).charts
    ensures forall k :: k in SeriesNames ==> Reduce(state, action, ma).charts[k].data == []
  {
    LoadKeepsShape(state, action, ma);
  }

  /** The four series depend on the rows alone, not on the state they replace. */
  lemma LoadIgnoresPreviousState<X, M>(s1: VisState<X, M>, s2: VisState<X, M>, action: VisAction<X>, ma: MovingAverage<M>)
    requires action.kind == DataLoaded
    ensures forall k :: k in SeriesNames ==>
      Reduce(s1, action, ma).charts[k] == Reduce(s2, action, ma).charts[k]
  {
    var loaded := LoadedCharts(action.rows, ma);
    assert Reduce(s1, action, ma).charts == s1.charts + loaded;
    assert Reduce(s2, action, ma).charts == s2.charts + loaded;
  }

  /** A load after any action leaves no trace of that action: the result is what
      the load alone would give. */
  lemma SecondLoadReplaces<X, M>(state: VisState<X, M>, first: VisAction<X>, second: VisAction<X>, ma: MovingAverage<M>)
    requires second.kind == DataLoaded
    ensures Reduce(Reduce(state, first, ma), second, ma) == Reduce(state, second, ma)
  {
    var loaded := LoadedCharts(second.rows, ma);
    var mid := Reduce(state, first, ma);
    assert Reduce(mid, second, ma).charts == mid.charts + loaded;
    assert Reduce(state, second, ma).charts == state.charts + loaded;
    if first.kind == DataLoaded {
      var earlier := LoadedCharts(first.rows, ma);
      assert mid.charts == state.charts + earlier;
      OverrideSameKeys(state.charts, earlier, loaded);
    }
  }

  /** Overriding with a map whose keys cover an earlier override erases it. */
  lemma OverrideSameKeys<K, V>(m: map<K, V>, a: map<K, V>, b: map<K, V>)
    requires a.Keys == b.Keys
    ensures (m + a) + b == m + b
  {
  }

  /** From the initial state, a load yields exactly the four series. */
  lemma LoadFromInitialState<X, M>(action: VisAction<X>, ma: MovingAverage<M>)
    requires action.kind == DataLoaded
    ensures Reduce(InitialState(), action, ma).charts.Keys == SeriesNames
  {
  }
}
