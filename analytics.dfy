/** What the two analytics edge functions share: the statistics of the latest readings, the AI call's
    outcome, and replacing the active insights with new ones. */
module Analytics {
  import opened Wrappers
  import opened Json
  import opened Strings
  import opened Http
  import opened Store
  import opened Insights

  const NoDataMessage := "Não há dados suficientes para análise"
  const CompletedMessage := "Análise concluída com sucesso"
  const AiErrorPrefix := "AI API error: "

  /** The five sensor columns of `readings`. */
  datatype Sensor = PhSensor | EcSensor | AirTempSensor | HumiditySensor | WaterTempSensor

  function Value(r: Reading, sensor: Sensor): real {
    match sensor
    case PhSensor => r.ph
    case EcSensor => r.ec
    case AirTempSensor => r.airTemp
    case HumiditySensor => r.humidity
    case WaterTempSensor => r.waterTemp
  }

  /** One column of the readings, in order (`readings.map(PhSensor)`). */
  function Column(readings: seq<Reading>, sensor: Sensor): (values: seq<real>)
    ensures |values| == |readings|
    ensures forall i :: 0 <= i < |readings| ==> values[i] == Value(readings[i], sensor)
  {
    seq(|readings|, i requires 0 <= i < |readings| => Value(readings[i], sensor))
  }

  /** The statistics of the five sensor columns of a non-empty list of readings. */
  function SensorStatsOf(readings: seq<Reading>): SensorStats
    requires readings != []
  {
    SensorStats(
      CalculateStats(Column(readings, PhSensor)),
      CalculateStats(Column(readings, EcSensor)),
      CalculateStats(Column(readings, AirTempSensor)),
      CalculateStats(Column(readings, HumiditySensor)),
      CalculateStats(Column(readings, WaterTempSensor)))
  }

  /** The readings as the query returns them: newest first. */
  predicate NewestFirst(readings: seq<Reading>) {
    forall i, j :: 0 <= i < j < |readings| ==> readings[i].timestamp >= readings[j].timestamp
  }

  /** Each column's `current` is the value of the newest reading, and its least and greatest values
      bound every reading and the mean. */
  lemma StatsOfReadings(readings: seq<Reading>)
    requires readings != [] && NewestFirst(readings)
    ensures var s := SensorStatsOf(readings);
      s.ph.current == readings[0].ph && s.ec.current == readings[0].ec && s.airTemp.current == readings[0].airTemp &&
      s.humidity.current == readings[0].humidity && s.waterTemp.current == readings[0].waterTemp
    ensures forall i :: 0 <= i < |readings| ==> readings[i].timestamp <= readings[0].timestamp
    ensures var s := SensorStatsOf(readings);
      forall i :: 0 <= i < |readings| ==>
        s.ph.min <= readings[i].ph <= s.ph.max && s.ec.min <= readings[i].ec <= s.ec.max &&
        s.airTemp.min <= readings[i].airTemp <= s.airTemp.max &&
        s.humidity.min <= readings[i].humidity <= s.humidity.max &&
        s.waterTemp.min <= readings[i].waterTemp <= s.waterTemp.max
    ensures var s := SensorStatsOf(readings);
      s.ph.min <= s.ph.avg <= s.ph.max && s.ec.min <= s.ec.avg <= s.ec.max &&
      s.airTemp.min <= s.airTemp.avg <= s.airTemp.max && s.humidity.min <= s.humidity.avg <= s.humidity.max &&
      s.waterTemp.min <= s.waterTemp.avg <= s.waterTemp.max
  {
    forall i | 0 < i < |readings|
      ensures readings[i].timestamp <= readings[0].timestamp
    {
    }
    AvgWithinRange(Column(readings, PhSensor));
    AvgWithinRange(Column(readings, EcSensor));
    AvgWithinRange(Column(readings, AirTempSensor));
    AvgWithinRange(Column(readings, HumiditySensor));
    AvgWithinRange(Column(readings, WaterTempSensor));
  }

  /** The AI request's outcome: its HTTP status, and the reply's content (None when reading
      `choices[0].message.content` throws). */
  datatype AiCall = AiCall(status: int, content: Option<AiReply>)

  function AiError(status: int): Thrown {
    Thrown(AiErrorPrefix + IntToString(status), true)
  }

  /** The success body `{message, insights_count}` of the plain handler. */
  function CompletedBody(count: nat): Json {
    JObj(map["message" := JStr(CompletedMessage), "insights_count" := JNum(count as real)])
  }

  /** The `ai_insights` table after the deactivate-then-insert sequence. The deactivation's error is
      ignored, so when it fails the old rows stay as they were. */
  function InsightsAfterSave(before: seq<InsightRow>, rows: seq<InsightRow>, deactivateError: Option<DbError>,
                             insertError: Option<DbError>): seq<InsightRow> {
    (if deactivateError.None? then Deactivated(before) else before) + (if insertError.None? then rows else [])
  }

  /** The update `is_active := false` on the active insights; its error is not looked at. */
  method Deactivate(db: Database, deactivateError: Option<DbError>)
    modifies db`insights
    ensures db.insights == InsightsAfterSave(old(db.insights), [], deactivateError, None)
  {
    if deactivateError.None? {
      db.DeactivateInsights();
    }
  }

  /** Deactivates every insight, then inserts the new rows; the insert's error is thrown. */
  method SaveInsights(db: Database, rows: seq<InsightRow>, deactivateError: Option<DbError>, insertError: Option<DbError>)
    returns (error: Option<Thrown>)
    modifies db`insights
    ensures db.insights == InsightsAfterSave(old(db.insights), rows, deactivateError, insertError)
    ensures error.Some? <==> insertError.Some?
    ensures error.Some? ==> error.value == Thrown(insertError.value.message, false)
  {
    Deactivate(db, deactivateError);
    if insertError.Some? {
      return Some(Thrown(insertError.value.message, false));
    }
    db.InsertInsights(rows);
    error := None;
  }

  /** After a save whose deactivation succeeds the active insights are exactly the new rows, and
      none at all when the insert fails. When the deactivation fails the old active rows stay active
      beside the new ones. */
  lemma {:induction false} OnlyNewRowsActive(before: seq<InsightRow>, insights: seq<Insight>, stats: SensorStats,
                                             deactivateError: Option<DbError>, insertError: Option<DbError>)
    ensures var after := InsightsAfterSave(before, ToRows(insights, stats), deactivateError, insertError);
      forall i :: 0 <= i < |after| ==>
        (after[i].isActive <==> (i < |before| && deactivateError.Some? && before[i].isActive) || (i >= |before| && insertError.None?))
    ensures var after := InsightsAfterSave(before, ToRows(insights, stats), deactivateError, insertError);
      |after| == |before| + (if insertError.None? then |insights| else 0)
  {
    var rows := ToRows(insights, stats);
    var after := InsightsAfterSave(before, rows, deactivateError, insertError);
    forall i | 0 <= i < |after|
      ensures after[i].isActive <==>
        (i < |before| && deactivateError.Some? && before[i].isActive) || (i >= |before| && insertError.None?)
    {
      if i < |before| {
        if deactivateError.None? {
          assert after[i] == Deactivated(before)[i];
        } else {
          assert after[i] == before[i];
        }
      } else {
        assert after[i] == rows[i - |before|];
      }
    }
  }

  // ---------------------------------------------------------------------------------------------
  // The steps both handlers take after their own preliminaries

  /** How the shared steps end: the response they produce, whether the AI was called, whether the
      deactivation of the old insights was issued, the rows inserted, and the insights and statistics the
      enhanced handler goes on with. */
  datatype Run = Run(response: Response, aiCalled: bool, deactivated: bool, saved: seq<InsightRow>,
                     insights: seq<Insight>, stats: Option<SensorStats>)

  /** Whether the shared steps completed: the readings, the AI reply, the rows and the insert all succeeded. */
  predicate Succeeded(run: Run) {
    run.deactivated && run.response.status == 200
  }

  /** Fetch the latest readings, compute their statistics, call the AI, then replace the active
      insights with the ones it returns (or the fallback). */
  function RunAnalysis(readings: Result<seq<Reading>, DbError>, ai: AiCall, insertError: Option<DbError>): (run: Run)
    ensures readings.Err? ==> run.response == ErrorResponse(500, "Erro desconhecido") && !run.aiCalled
    ensures readings == Ok([]) ==> run.response == MessageResponse(NoDataMessage) && !run.aiCalled
    ensures run.aiCalled <==> readings.Ok? && readings.value != []
    ensures run.aiCalled && !OkStatus(ai.status) ==> run.response == ErrorResponse(500, AiErrorPrefix + IntToString(ai.status))
    ensures run.aiCalled && OkStatus(ai.status) && ai.content.None? ==> run.response.status == 500
    ensures run.deactivated <==> run.aiCalled && OkStatus(ai.status) && ai.content.Some?
    ensures !run.deactivated ==> run.saved == []
    ensures run.deactivated ==> run.stats == Some(SensorStatsOf(readings.value))
    ensures run.deactivated && ai.content.value.Malformed? ==> run.saved == [] && run.response == Caught(EngineTypeError)
    ensures run.deactivated && !ai.content.value.Malformed? ==> run.insights == InsightsOf(ai.content.value)
    ensures run.deactivated && !ai.content.value.Malformed? && insertError.Some? ==>
      run.saved == [] && run.response == ErrorResponse(500, "Erro desconhecido")
    ensures run.deactivated && !ai.content.value.Malformed? && insertError.None? ==>
      run.saved == ToRows(run.insights, run.stats.value) && run.response == Response(200, CompletedBody(|run.saved|))
    ensures run.response.status == 200 || run.response.status == 500
    ensures run.response.status == 200 <==>
      readings == Ok([]) || (run.deactivated && !ai.content.value.Malformed? && insertError.None?)
  {
    match readings
    case Err(e) => Run(Caught(Thrown(e.message, false)), false, false, [], [], None)
    case Ok(rs) =>
      if rs == [] then Run(MessageResponse(NoDataMessage), false, false, [], [], None)
      else
        var stats := SensorStatsOf(rs);
        if !OkStatus(ai.status) then Run(Caught(AiError(ai.status)), true, false, [], [], Some(stats))
        else if ai.content.None? then Run(Caught(EngineTypeError), true, false, [], [], Some(stats))
        else if ai.content.value.Malformed? then Run(Caught(EngineTypeError), true, true, [], [], Some(stats))
        else
          var insights := InsightsOf(ai.content.value);
          if insertError.Some? then Run(Caught(Thrown(insertError.value.message, false)), true, true, [], insights, Some(stats))
          else
            var rows := ToRows(insights, stats);
            Run(Response(200, CompletedBody(|rows|)), true, true, rows, insights, Some(stats))
  }

  /** An AI reply without a usable JSON block still leaves exactly one active insight, the fallback
      recommendation with severity info, carrying the statistics. */
  lemma FallbackSaved(readings: seq<Reading>, ai: AiCall)
    requires readings != [] && OkStatus(ai.status) && ai.content.Some?
    requires ai.content.value.NoJsonBlock? || ai.content.value.Unparsable?
    ensures var run := RunAnalysis(Ok(readings), ai, None);
      Succeeded(run) && |run.saved| == 1 && run.saved[0].isActive &&
      run.saved[0].severity == Some(JStr("info")) && run.saved[0].insightType == Some(JStr("recommendation")) &&
      run.saved[0].dataPoints == SensorStatsOf(readings)
  {
  }

  /** A truthy `insights` that is not an array, or one holding null, throws in `map` after the old
      insights were deactivated: the answer is a 500 with the TypeError's message and, when the
      deactivation went through, no insight is left active. */
  lemma MalformedLeavesNoneActive(before: seq<InsightRow>, readings: seq<Reading>, ai: AiCall, insertError: Option<DbError>)
    requires readings != [] && OkStatus(ai.status) && ai.content == Some(Malformed)
    ensures var run := RunAnalysis(Ok(readings), ai, insertError);
      run.response == ErrorResponse(500, EngineTypeError.message) && run.deactivated && run.saved == []
    ensures var run := RunAnalysis(Ok(readings), ai, insertError);
      forall i :: 0 <= i < |before| ==> !InsightsAfterSave(before, run.saved, None, None)[i].isActive
  {
  }

  /** The shared steps against the database. `deactivateError` is the outcome of the deactivation,
      which the source does not look at. */
  method RunAgainst(db: Database, readings: Result<seq<Reading>, DbError>, ai: AiCall,
                    deactivateError: Option<DbError>, insertError: Option<DbError>) returns (run: Run)
    modifies db`insights
    ensures run == RunAnalysis(readings, ai, insertError)
    ensures db.insights == if run.deactivated then InsightsAfterSave(old(db.insights), run.saved, deactivateError, None) else old(db.insights)
  {
    if readings.Err? {
      return Run(Caught(Thrown(readings.error.message, false)), false, false, [], [], None);
    }
    var rs := readings.value;
    if rs == [] {
      return Run(MessageResponse(NoDataMessage), false, false, [], [], None);
    }
    var stats := SensorStatsOf(rs);
    if !OkStatus(ai.status) {
      return Run(Caught(AiError(ai.status)), true, false, [], [], Some(stats));
    }
    if ai.content.None? {
      return Run(Caught(EngineTypeError), true, false, [], [], Some(stats));
    }
    if ai.content.value.Malformed? {
      Deactivate(db, deactivateError);
      return Run(Caught(EngineTypeError), true, true, [], [], Some(stats));
    }
    var insights := InsightsOf(ai.content.value);
    var rows := ToRows(insights, stats);
    var error := SaveInsights(db, rows, deactivateError, insertError);
    if error.Some? {
      return Run(Caught(error.value), true, true, [], insights, Some(stats));
    }
    run := Run(Response(200, CompletedBody(|rows|)), true, true, rows, insights, Some(stats));
  }
}
