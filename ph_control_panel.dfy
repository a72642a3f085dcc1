/** The pH panel (src/components/dashboard/PhControlPanel.tsx): the last 24 pH readings, their mean,
    the ideal range from the pH relay's configuration, and the status and alert derived from them. */
module PhControlPanel {
  import opened Wrappers
  import opened Insights

  const HistoryLimit := 24
  const DefaultLow := 5.8
  const DefaultHigh := 6.5

  /** A reading as the panel selects it. */
  datatype PhReading = PhReading(ph: real, timestamp: string)

  /** The last correction shown: when, the log message, and the mean the panel held then. */
  datatype PhLog = PhLog(timestamp: string, action: string, phAverage: real)

  /** An `event_logs` row that mentions a pH correction. */
  datatype LogRow = LogRow(timestamp: string, message: string)

  datatype PhRange = PhRange(low: real, high: real)

  datatype PhStatus = Unknown | Low | High | Ideal

  /** The list in reverse order (`Array.prototype.reverse`). */
  function Reversed<T>(s: seq<T>): (r: seq<T>)
    ensures |r| == |s|
    ensures forall i :: 0 <= i < |s| ==> r[i] == s[|s| - 1 - i]
  {
    if s == [] then [] else Reversed(s[1..]) + [s[0]]
  }

  /** The pH values of some readings. */
  function PhValues(readings: seq<PhReading>): (v: seq<real>)
    ensures |v| == |readings| && forall i :: 0 <= i < |readings| ==> v[i] == readings[i].ph
  {
    seq(|readings|, i requires 0 <= i < |readings| => readings[i].ph)
  }

  /** `x || fallback` on a nullable numeric column: null and 0 give the fallback. */
  function OrDefault(v: Option<real>, fallback: real): (r: real)
    ensures v.Some? && v.value != 0.0 ==> r == v.value
    ensures !(v.Some? && v.value != 0.0) ==> r == fallback
  {
    if v.Some? && v.value != 0.0 then v.value else fallback
  }

  /** The range from the pH relay's thresholds, each bound falling back to its default when falsy. */
  function RangeOf(low: Option<real>, high: Option<real>): PhRange {
    PhRange(OrDefault(low, DefaultLow), OrDefault(high, DefaultHigh))
  }

  /** `getPhStatus`: unknown without a mean (null or 0), low below the range, high above it, and
      ideal inside it, both bounds included. */
  function StatusOf(average: Option<real>, range: PhRange): (s: PhStatus)
    ensures s == Unknown <==> average.None? || average.value == 0.0
    ensures s == Low <==> average.Some? && average.value != 0.0 && average.value < range.low
    ensures s == High <==> average.Some? && average.value != 0.0 && range.low <= average.value && average.value > range.high
    ensures s == Ideal <==> average.Some? && average.value != 0.0 && range.low <= average.value <= range.high
  {
    if average.None? || average.value == 0.0 then Unknown
    else if average.value < range.low then Low
    else if average.value > range.high then High
    else Ideal
  }

  /** Whether the correction alert is shown: a mean is set (non-zero) and lies outside the range. */
  predicate ShowsAlert(average: Option<real>, range: PhRange) {
    average.Some? && average.value != 0.0 && (average.value < range.low || average.value > range.high)
  }

  /** The alert is shown exactly when the status is low or high. */
  lemma AlertIffOutOfRange(average: Option<real>, range: PhRange)
    ensures ShowsAlert(average, range) <==> StatusOf(average, range) in {Low, High}
  {
  }

  /** The `phAverage` that every run of `fetchPhData` reads. The effect has no dependencies, so the
      mount call and every interval tick run the closure of the first render, where the mean is
      still its initial null. */
  const ClosureAverage: Option<real> := None

  /** The panel's state. */
  class PhPanel {
    var history: seq<PhReading>
    var average: Option<real>
    var lastCorrection: Option<PhLog>
    var range: PhRange

    constructor ()
      ensures history == [] && average.None? && lastCorrection.None? && range == PhRange(DefaultLow, DefaultHigh)
    {
      history, average, lastCorrection, range := [], None, None, PhRange(DefaultLow, DefaultHigh);
    }

    /** `fetchPhData`. `newestFirst` is the readings table newest first (the query keeps the first
        24); a readings error ends the fetch before the other two queries. The correction records
        `phAverage || 0` as the closure sees it, which is always 0. */
    method FetchPhData(newestFirst: Result<seq<PhReading>, string>, log: Option<LogRow>,
                       thresholds: Option<(Option<real>, Option<real>)>)
      modifies this`history, this`average, this`lastCorrection, this`range
      ensures newestFirst.Err? ==>
        history == old(history) && average == old(average) && lastCorrection == old(lastCorrection) && range == old(range)
      ensures newestFirst.Ok? && newestFirst.value == [] ==> history == old(history) && average == old(average)
      ensures newestFirst.Ok? && newestFirst.value != [] ==>
        var fetched := newestFirst.value[..if |newestFirst.value| < HistoryLimit then |newestFirst.value| else HistoryLimit];
        history == Reversed(fetched) && 0 < |history| <= HistoryLimit &&
        average.Some? && average.value * (|fetched| as real) == Sum(PhValues(history))
      ensures newestFirst.Ok? ==>
        lastCorrection == (if log.Some? then Some(PhLog(log.value.timestamp, log.value.message, 0.0)) else old(lastCorrection))
      ensures newestFirst.Ok? ==>
        range == (if thresholds.Some? then RangeOf(thresholds.value.0, thresholds.value.1) else old(range))
    {
      if newestFirst.Err? {
        return;
      }
      var rows := newestFirst.value;
      var fetched := rows[..if |rows| < HistoryLimit then |rows| else HistoryLimit];
      if |fetched| > 0 {
        history := Reversed(fetched);
        var n := |fetched| as real;
        var sum := Sum(PhValues(history));
        average := Some(sum / n);
      }
      if log.Some? {
        lastCorrection := Some(PhLog(log.value.timestamp, log.value.message, OrDefault(ClosureAverage, 0.0)));
      }
      if thresholds.Some? {
        range := RangeOf(thresholds.value.0, thresholds.value.1);
      }
    }
  }

  /** The mean lies between the lowest and highest pH of the history it was computed from. */
  lemma AverageWithinHistory(history: seq<PhReading>, avg: real)
    requires history != []
    requires avg * (|history| as real) == Sum(PhValues(history))
    ensures MinOf(PhValues(history)) <= avg <= MaxOf(PhValues(history))
  {
    var v := PhValues(history);
    assert |v| == |history|;
    MeanWithinMinMax(v, avg);
  }
}
