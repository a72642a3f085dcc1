/** The sensor history chart (src/components/dashboard/SensorHistoryChart.tsx): the readings of one
    sensor over a chosen period, each point with the moving average of the last five values. */
module SensorHistoryChart {
  import opened Wrappers
  import opened Insights
  import opened Toasts

  datatype Period = Hour | Day | Week | Month

  /** How far before now the chart starts: calendar arithmetic on `Date` is left to the clock. */
  datatype Offset = Offset(hours: nat, days: nat, months: nat)

  /** The start of each period: one hour, one day, seven days or one calendar month before now. */
  function StartOffset(p: Period): (o: Offset)
    ensures p == Hour ==> o == Offset(1, 0, 0)
    ensures p == Day ==> o == Offset(0, 1, 0)
    ensures p == Week ==> o == Offset(0, 7, 0)
    ensures p == Month ==> o == Offset(0, 0, 1)
  {
    match p
    case Hour => Offset(1, 0, 0)
    case Day => Offset(0, 1, 0)
    case Week => Offset(0, 7, 0)
    case Month => Offset(0, 0, 1)
  }

  /** `getPeriodLabel`: one label for each period. */
  function PeriodLabel(p: Period): (s: string)
    ensures s != ""
  {
    match p
    case Hour => "Última Hora"
    case Day => "Último Dia"
    case Week => "Última Semana"
    case Month => "Último Mês"
  }

  /** Different periods have different labels. */
  lemma PeriodLabelsDistinct(p: Period, q: Period)
    requires p != q
    ensures PeriodLabel(p) != PeriodLabel(q)
  {
  }

  const MaxWindow := 5

  /** A reading of the chart's sensor: its timestamp and the sensor's value (`None` for null). */
  datatype ChartReading = ChartReading(timestamp: string, value: Option<real>)

  /** A chart point: the formatted time, the raw value and the moving average. */
  datatype Point = Point(time: string, value: Option<real>, movingAvg: real)

  /** `Math.min(5, index + 1)`. */
  function WindowSize(index: nat): (n: nat)
    ensures 1 <= n <= MaxWindow && n <= index + 1
    ensures n == MaxWindow || n == index + 1
  {
    if index + 1 < MaxWindow then index + 1 else MaxWindow
  }

  /** `r[sensorKey] || 0`: null and 0 count as 0. */
  function ValueOrZero(r: ChartReading): real {
    if r.value.Some? then r.value.value else 0.0
  }

  function ValuesOrZero(readings: seq<ChartReading>): (v: seq<real>)
    ensures |v| == |readings| && forall i :: 0 <= i < |readings| ==> v[i] == ValueOrZero(readings[i])
  {
    seq(|readings|, i requires 0 <= i < |readings| => ValueOrZero(readings[i]))
  }

  /** `readings.slice(max(0, index - windowSize + 1), index + 1)`: the readings that end at `index`,
      exactly `WindowSize(index)` of them. */
  function Window(readings: seq<ChartReading>, index: nat): (w: seq<ChartReading>)
    requires index < |readings|
    ensures |w| == WindowSize(index)
    ensures w == readings[index + 1 - WindowSize(index)..index + 1]
  {
    var start := if index + 1 - WindowSize(index) > 0 then index + 1 - WindowSize(index) else 0;
    readings[start..index + 1]
  }

  /** The moving average at `index`: the window's sum, missing values as 0, over the window size. */
  function MovingAverage(readings: seq<ChartReading>, index: nat): (avg: real)
    requires index < |readings|
    ensures avg * (WindowSize(index) as real) == Sum(ValuesOrZero(Window(readings, index)))
  {
    Mean(ValuesOrZero(Window(readings, index)))
  }

  /** The processed series: one point per reading, in the readings' order. */
  function Points(readings: seq<ChartReading>, format: string -> string): (points: seq<Point>)
    ensures |points| == |readings|
    ensures forall i :: 0 <= i < |readings| ==>
      points[i] == Point(format(readings[i].timestamp), readings[i].value, MovingAverage(readings, i))
  {
    seq(|readings|, i requires 0 <= i < |readings| =>
      Point(format(readings[i].timestamp), readings[i].value, MovingAverage(readings, i)))
  }

  /** The sum of `n` copies of `c`. */
  lemma {:induction false} SumConstant(values: seq<real>, c: real)
    requires forall i :: 0 <= i < |values| ==> values[i] == c
    ensures Sum(values) == (|values| as real) * c
  {
    if values != [] {
      SumConstant(values[..|values| - 1], c);
    }
  }

  /** A sensor that reads the same value throughout has that value as every moving average. */
  lemma ConstantSeriesAverage(readings: seq<ChartReading>, c: real, index: nat)
    requires index < |readings|
    requires forall i :: 0 <= i < |readings| ==> readings[i].value == Some(c)
    ensures MovingAverage(readings, index) == c
  {
    var w := ValuesOrZero(Window(readings, index));
    assert forall i :: 0 <= i < |w| ==> w[i] == c;
    SumConstant(w, c);
    var n := WindowSize(index) as real;
    assert MovingAverage(readings, index) * n == n * c;
  }

  /** The moving average lies between the least and the greatest value in its window. */
  lemma AverageWithinWindow(readings: seq<ChartReading>, index: nat)
    requires index < |readings|
    ensures var w := ValuesOrZero(Window(readings, index));
      MinOf(w) <= MovingAverage(readings, index) <= MaxOf(w)
  {
    var w := ValuesOrZero(Window(readings, index));
    assert |w| == WindowSize(index);
    MeanWithinMinMax(w, MovingAverage(readings, index));
  }

  const LoadFailedToast := Failure("Erro ao carregar dados", "Não foi possível carregar o histórico")

  /** The chart's state. */
  class Chart {
    var period: Period
    var data: seq<Point>
    var loading: bool
    var toasts: seq<Toast>

    constructor ()
      ensures period == Day && data == [] && loading && toasts == []
    {
      period, data, loading, toasts := Day, [], true, [];
    }

    /** `fetchData`: `answer` is the readings since the period's start, oldest first (`None` data
        gives an empty series); an error keeps the series and notifies. Loading ends either way. */
    method FetchData(answer: Result<Option<seq<ChartReading>>, string>, format: string -> string)
      modifies this`data, this`loading, this`toasts
      ensures answer.Ok? ==>
        data == (if answer.value.Some? then Points(answer.value.value, format) else []) && toasts == old(toasts)
      ensures answer.Err? ==> data == old(data) && toasts == old(toasts) + [LoadFailedToast]
      ensures !loading
    {
      loading := true;
      if answer.Err? {
        toasts := toasts + [LoadFailedToast];
      } else {
        data := if answer.value.Some? then Points(answer.value.value, format) else [];
      }
      loading := false;
    }

    /** `setPeriod` from the period selector. A new period re-runs the effect, which fetches the
        readings since that period's start (`answer`); choosing the current period again changes
        nothing, since the effect's dependencies are unchanged. */
    method SetPeriod(p: Period, answer: Result<Option<seq<ChartReading>>, string>, format: string -> string)
      modifies this`period, this`data, this`loading, this`toasts
      ensures period == p
      ensures old(period) == p ==> data == old(data) && loading == old(loading) && toasts == old(toasts)
      ensures old(period) != p && answer.Ok? ==>
        data == (if answer.value.Some? then Points(answer.value.value, format) else []) && toasts == old(toasts)
      ensures old(period) != p && answer.Err? ==> data == old(data) && toasts == old(toasts) + [LoadFailedToast]
      ensures old(period) != p ==> !loading
    {
      if p != period {
        period := p;
        FetchData(answer, format);
      }
    }
  }
}
