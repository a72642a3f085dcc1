/** The plant details view (src/components/plants/PlantDetails.tsx): the status badge, the days spent in
    the current stage and the quality bars. */
module PlantDetails {
  import opened Wrappers
  import opened PlantSchema

  const Muted := "bg-muted"
  const Yellow := "bg-yellow-500/10 text-yellow-600 border-yellow-500/20"
  const Green := "bg-green-500/10 text-green-600 border-green-500/20"
  const Purple := "bg-purple-500/10 text-purple-600 border-purple-500/20"
  const Blue := "bg-blue-500/10 text-blue-600 border-blue-500/20"
  const Red := "bg-red-500/10 text-red-600 border-red-500/20"

  /** The status keys of the badge tables as written: the fifth is "discarded". */
  const TableKeys: set<string> := {"germinating", "vegetative", "flowering", "harvested", "discarded"}

  /** `getStatusColor`: the badge classes for the five table keys, "bg-muted" for any other status. */
  function StatusColor(status: string): (c: string)
    ensures status in TableKeys <==> c != Muted
  {
    match status
    case "germinating" => Yellow
    case "vegetative" => Green
    case "flowering" => Purple
    case "harvested" => Blue
    case "discarded" => Red
    case _ => Muted
  }

  /** `getStatusLabel`: the Portuguese label for the five table keys; any other status is shown as is. */
  function StatusLabel(status: string): (text: string)
    ensures status in TableKeys <==> text != status
  {
    match status
    case "germinating" => "Germinando"
    case "vegetative" => "Vegetativo"
    case "flowering" => "Floração"
    case "harvested" => "Colhida"
    case "discarded" => "Descartada"
    case _ => status
  }

  /** The two tables have the same keys: a status gets the muted colour exactly when it is shown raw. */
  lemma TablesAgree(status: string)
    ensures StatusColor(status) == Muted <==> StatusLabel(status) == status
  {
  }

  /** The schema's `discontinued` status is missing from both tables: it is shown as the raw enum text
      with the muted colour. */
  lemma DiscontinuedShownRaw()
    ensures StatusLabel(StatusName(Discontinued)) == "discontinued"
    ensures StatusColor(StatusName(Discontinued)) == Muted
  {
  }

  /** The badge label keyed by the schema's statuses: the intended "Descartada" for `discontinued`. */
  function StatusLabelOf(status: PlantStatus): (text: string)
    ensures text != StatusName(status)
  {
    match status
    case Germinating => "Germinando"
    case Vegetative => "Vegetativo"
    case Flowering => "Floração"
    case Harvested => "Colhida"
    case Discontinued => "Descartada"
  }

  /** The badge colour keyed by the schema's statuses: the intended red badge for `discontinued`. */
  function StatusColorOf(status: PlantStatus): (c: string)
    ensures c != Muted
  {
    match status
    case Germinating => Yellow
    case Vegetative => Green
    case Flowering => Purple
    case Harvested => Blue
    case Discontinued => Red
  }

  /** Every schema status gets its own label and its own colour. */
  lemma CorrectedTablesDistinct(a: PlantStatus, b: PlantStatus)
    ensures StatusLabelOf(a) == StatusLabelOf(b) <==> a == b
    ensures StatusColorOf(a) == StatusColorOf(b) <==> a == b
  {
    if a != b {
      assert StatusLabelOf(a)[0] != StatusLabelOf(b)[0];
    }
  }

  /** The four statuses the tables already know keep their label and colour. */
  lemma CorrectedTablesAgree(a: PlantStatus)
    requires a != Discontinued
    ensures StatusLabelOf(a) == StatusLabel(StatusName(a)) && StatusColorOf(a) == StatusColor(StatusName(a))
  {
  }

  const MillisecondsPerDay := 1000 * 60 * 60 * 24

  /** `getDaysInStage`: 0 without a stage start; otherwise the whole days, rounded down, from the start
      to now (both in milliseconds). */
  function DaysInStage(stageStartedAt: Option<int>, now: int): (days: int)
    ensures stageStartedAt.None? ==> days == 0
    ensures stageStartedAt.Some? ==>
      days * MillisecondsPerDay <= now - stageStartedAt.value < (days + 1) * MillisecondsPerDay
  {
    if stageStartedAt.None? then 0 else (now - stageStartedAt.value) / MillisecondsPerDay
  }

  /** A stage started k whole days and a part of a day ago is k days old; a later clock never shows fewer
      days. */
  lemma DaysCountWholeDays(start: int, k: int, part: int, later: int)
    requires 0 <= part < MillisecondsPerDay
    requires later >= start + k * MillisecondsPerDay + part
    ensures DaysInStage(Some(start), start + k * MillisecondsPerDay + part) == k
    ensures DaysInStage(Some(start), later) >= k
  {
    var days := DaysInStage(Some(start), start + k * MillisecondsPerDay + part);
    assert days * MillisecondsPerDay <= k * MillisecondsPerDay + part < (days + 1) * MillisecondsPerDay;
    FloorUnique(k * MillisecondsPerDay + part, days, k);
    var d2 := DaysInStage(Some(start), later);
    assert k * MillisecondsPerDay <= later - start < (d2 + 1) * MillisecondsPerDay;
    assert (d2 + 1 - k) * MillisecondsPerDay > 0;
  }

  /** At most one whole number of days brackets a duration. */
  lemma FloorUnique(duration: int, a: int, b: int)
    requires a * MillisecondsPerDay <= duration < (a + 1) * MillisecondsPerDay
    requires b * MillisecondsPerDay <= duration < (b + 1) * MillisecondsPerDay
    ensures a == b
  {
    assert (a - b) * MillisecondsPerDay < MillisecondsPerDay;
    assert (b - a) * MillisecondsPerDay < MillisecondsPerDay;
  }

  /** The five quality bars for a score (`[...Array(5)]`): bar i is highlighted iff i < score. The row is
      rendered only for a truthy score, so a null or zero score shows no bars. */
  function QualityBars(score: Option<real>): (bars: Option<seq<bool>>)
    ensures bars.Some? <==> score.Some? && score.value != 0.0
    ensures bars.Some? ==> |bars.value| == 5 && forall i :: 0 <= i < 5 ==> (bars.value[i] <==> (i as real) < score.value)
  {
    if score.None? || score.value == 0.0 then None else Some(seq(5, i => (i as real) < score.value))
  }

  /** How many bars are highlighted. */
  function Highlighted(bars: seq<bool>): (n: nat)
    ensures n <= |bars|
  {
    if bars == [] then 0 else (if bars[0] then 1 else 0) + Highlighted(bars[1..])
  }

  /** Highlighted bars come first: no plain bar precedes a highlighted one. */
  lemma BarsArePrefix(score: real)
    requires score != 0.0
    ensures var bars := QualityBars(Some(score)).value;
      forall i, j :: 0 <= i < j < 5 && bars[j] ==> bars[i]
  {
  }

  /** A whole score k from 1 to 5 highlights exactly k bars. */
  lemma {:induction false} WholeScoreHighlightsThatMany(k: int)
    requires 1 <= k <= 5
    ensures Highlighted(QualityBars(Some(k as real)).value) == k
  {
    var bars := QualityBars(Some(k as real)).value;
    PrefixCount(bars, k);
  }

  lemma {:induction false} PrefixCount(bars: seq<bool>, k: nat)
    requires k <= |bars|
    requires forall i :: 0 <= i < |bars| ==> (bars[i] <==> i < k)
    ensures Highlighted(bars) == k
  {
    if bars != [] {
      var rest := bars[1..];
      if k == 0 {
        PrefixCount(rest, 0);
      } else {
        assert forall i :: 0 <= i < |rest| ==> (rest[i] <==> i < k - 1) by {
          forall i | 0 <= i < |rest| ensures rest[i] <==> i < k - 1 {
            assert rest[i] == bars[i + 1];
          }
        }
        PrefixCount(rest, k - 1);
      }
    }
  }
}
