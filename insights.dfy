/** Sensor statistics and AI insights, shared by the two analytics edge functions
    (supabase/functions/ai-analytics and supabase/functions/ai-analytics-enhanced). */
module Insights {
  import opened Wrappers
  import opened Json

  /** `calculateStats`' result: the first value, the mean, the least and the greatest value. */
  datatype Stats = Stats(current: real, avg: real, min: real, max: real)

  /** The statistics of the five sensor columns. */
  datatype SensorStats = SensorStats(ph: Stats, ec: Stats, airTemp: Stats, humidity: Stats, waterTemp: Stats)

  /** `values.reduce((sum, v) => sum + v, 0)`. */
  function Sum(values: seq<real>): real {
    if values == [] then 0.0 else Sum(values[..|values| - 1]) + values[|values| - 1]
  }

  /** `Math.min(...values)` on a non-empty list. */
  function MinOf(values: seq<real>): (m: real)
    requires values != []
    ensures m in values
    ensures forall i :: 0 <= i < |values| ==> m <= values[i]
  {
    if |values| == 1 then values[0]
    else
      var rest := MinOf(values[1..]);
      if values[0] <= rest then values[0] else rest
  }

  /** `Math.max(...values)` on a non-empty list. */
  function MaxOf(values: seq<real>): (m: real)
    requires values != []
    ensures m in values
    ensures forall i :: 0 <= i < |values| ==> values[i] <= m
  {
    if |values| == 1 then values[0]
    else
      var rest := MaxOf(values[1..]);
      if values[0] >= rest then values[0] else rest
  }

  /** The arithmetic mean of a non-empty list: the value whose multiple by the count is the sum. */
  function Mean(values: seq<real>): (m: real)
    requires values != []
    ensures m * (|values| as real) == Sum(values)
  {
    Sum(values) / (|values| as real)
  }

  /** `calculateStats(values)`. Both handlers return early on an empty list, so it only sees non-empty ones. */
  function CalculateStats(values: seq<real>): (s: Stats)
    requires values != []
    ensures s.current == values[0]
    ensures forall i :: 0 <= i < |values| ==> s.min <= values[i] <= s.max
    ensures s.avg == Mean(values)
  {
    Stats(values[0], Mean(values), MinOf(values), MaxOf(values))
  }

  /** The least and the greatest statistic are values that occur in the list. */
  lemma StatsAttained(values: seq<real>)
    requires values != []
    ensures CalculateStats(values).min in values && CalculateStats(values).max in values
  {
    assert CalculateStats(values).min == MinOf(values);
  }

  lemma {:induction false} SumBounds(values: seq<real>, lo: real, hi: real)
    requires forall i :: 0 <= i < |values| ==> lo <= values[i] <= hi
    ensures (|values| as real) * lo <= Sum(values) <= (|values| as real) * hi
  {
    if values != [] {
      SumBounds(values[..|values| - 1], lo, hi);
    }
  }

  /** Over exact arithmetic the mean lies between the least and the greatest value. */
  lemma AvgWithinRange(values: seq<real>)
    requires values != []
    ensures CalculateStats(values).min <= CalculateStats(values).avg <= CalculateStats(values).max
  {
    MeanWithinMinMax(values, Mean(values));
  }

  lemma MeanBetween(values: seq<real>, lo: real, avg: real, hi: real)
    requires values != []
    requires forall i :: 0 <= i < |values| ==> lo <= values[i] <= hi
    requires avg * (|values| as real) == Sum(values)
    ensures lo <= avg <= hi
  {
    var n := |values| as real;
    SumBounds(values, lo, hi);
    CancelPositive(n, lo, avg);
    CancelPositive(n, avg, hi);
  }

  /** A mean lies between the least and the greatest of the values it is the mean of. */
  lemma MeanWithinMinMax(values: seq<real>, avg: real)
    requires values != []
    requires avg * (|values| as real) == Sum(values)
    ensures MinOf(values) <= avg <= MaxOf(values)
  {
    MeanBetween(values, MinOf(values), avg, MaxOf(values));
  }

  lemma CancelPositive(n: real, x: real, y: real)
    requires n > 0.0 && n * x <= n * y
    ensures x <= y
  {
  }

  /** One insight as the AI reply describes it; every member may be missing (`undefined`). */
  datatype Insight = Insight(
    kind: Option<Json>,
    title: Option<Json>,
    description: Option<Json>,
    severity: Option<Json>,
    recommendations: Option<Json>)

  /** The outcome of matching `{...}` in the AI reply and `JSON.parse`-ing it: no block, a block that
      does not parse, the parsed object's `insights` member (None when it is missing or falsy), or a
      truthy `insights` that `map` cannot turn into rows (not an array, or an array holding null). */
  datatype AiReply = NoJsonBlock | Unparsable | Parsed(insights: Option<seq<Insight>>) | Malformed

  const FallbackInsight := Insight(
    Some(JStr("recommendation")),
    Some(JStr("Análise em Processamento")),
    Some(JStr("Os dados estão sendo analisados. Por favor, tente novamente em alguns instantes.")),
    Some(JStr("info")),
    Some(JArr([JStr("Aguarde a próxima análise automática")])))

  /** The insights a handler goes on with: the parsed list (`parsed.insights || []`) or the single fallback. */
  function InsightsOf(reply: AiReply): (r: seq<Insight>)
    requires !reply.Malformed?
    ensures !reply.Parsed? ==> |r| == 1 && r[0].kind == Some(JStr("recommendation")) && r[0].severity == Some(JStr("info"))
    ensures reply.Parsed? && reply.insights.None? ==> r == []
    ensures reply.Parsed? && reply.insights.Some? ==> r == reply.insights.value
  {
    match reply
    case Parsed(insights) => if insights.Some? then insights.value else []
    case _ => [FallbackInsight]
  }

  /** A row of `ai_insights`. */
  datatype InsightRow = InsightRow(
    insightType: Option<Json>,
    title: Option<Json>,
    description: Option<Json>,
    severity: Option<Json>,
    recommendations: Json,
    dataPoints: SensorStats,
    isActive: bool)

  /** The row saved for one insight: active, its recommendations or [], and the statistics as data points. */
  function ToRow(i: Insight, stats: SensorStats): (r: InsightRow)
    ensures r.isActive && r.dataPoints == stats
    ensures r.insightType == i.kind && r.title == i.title && r.description == i.description && r.severity == i.severity
    ensures Truthy(i.recommendations) ==> r.recommendations == i.recommendations.value
    ensures !Truthy(i.recommendations) ==> r.recommendations == JArr([])
  {
    InsightRow(i.kind, i.title, i.description, i.severity,
      if Truthy(i.recommendations) then i.recommendations.value else JArr([]),
      stats, true)
  }

  function ToRows(insights: seq<Insight>, stats: SensorStats): (rows: seq<InsightRow>)
    ensures |rows| == |insights|
    ensures forall k :: 0 <= k < |rows| ==> rows[k] == ToRow(insights[k], stats)
  {
    if insights == [] then [] else [ToRow(insights[0], stats)] + ToRows(insights[1..], stats)
  }

  /** What `flatMap` takes from one insight's `recommendations || []`: the elements of an array, or the value itself. */
  function RecommendationsOf(i: Insight): seq<Json> {
    if !Truthy(i.recommendations) then []
    else match i.recommendations.value
      case JArr(items) => items
      case v => [v]
  }

  /** `insights.flatMap(i => i.recommendations || [])`. */
  function AllRecommendations(insights: seq<Insight>): seq<Json> {
    if insights == [] then [] else RecommendationsOf(insights[0]) + AllRecommendations(insights[1..])
  }

  /** The flattened recommendations of two lists of insights, in order, are those of the first then the second. */
  lemma {:induction false} AllRecommendationsAppend(a: seq<Insight>, b: seq<Insight>)
    ensures AllRecommendations(a + b) == AllRecommendations(a) + AllRecommendations(b)
  {
    if a == [] {
      assert a + b == b;
    } else {
      assert (a + b)[0] == a[0];
      assert (a + b)[1..] == a[1..] + b;
      AllRecommendationsAppend(a[1..], b);
    }
  }

  /** Each insight's recommendations are a contiguous part of the flattened list, starting right after
      those of the insights before it. */
  lemma RecommendationsKept(insights: seq<Insight>, k: nat)
    requires k < |insights|
    ensures var start, own := |AllRecommendations(insights[..k])|, RecommendationsOf(insights[k]);
      start + |own| <= |AllRecommendations(insights)| &&
      AllRecommendations(insights)[start..start + |own|] == own
  {
    var before, own, after := insights[..k], RecommendationsOf(insights[k]), insights[k + 1..];
    assert insights == before + ([insights[k]] + after);
    AllRecommendationsAppend(before, [insights[k]] + after);
    AllRecommendationsAppend([insights[k]], after);
    assert AllRecommendations([insights[k]]) == own + AllRecommendations([]);
  }

  /** The `species_profile` joined to a cultivation context. */
  datatype SpeciesProfile = SpeciesProfile(speciesName: string)

  /** A `cultivation_contexts` row with its species profile (null when the context has none). The
      stage is a value of the `growth_stage` enumeration. */
  datatype CultivationContext = CultivationContext(id: Json, currentStage: string, speciesProfile: Option<SpeciesProfile>)

  /** An `ai_analysis_history` row. The processing time is a clock reading and is not kept. */
  datatype HistoryRow = HistoryRow(
    plantId: Json,
    contextId: Json,
    snapshot: SensorStats,
    species: Option<SpeciesProfile>,
    stage: string,
    parameters: Option<Json>,
    knowledgeSourcesUsed: seq<Option<Json>>,
    insightsGenerated: seq<Insight>,
    recommendations: seq<Json>,
    confidenceScore: real)
}
