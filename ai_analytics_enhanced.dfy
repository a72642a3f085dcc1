/** The context-aware analytics edge function (supabase/functions/ai-analytics-enhanced): the same
    analysis as the plain one, enriched with the plant's cultivation context and verified knowledge,
    and recorded in the analysis history when the plant has a context. */
module AiAnalyticsEnhanced {
  import opened Wrappers
  import opened Json
  import opened Strings
  import opened Http
  import opened Store
  import opened Insights
  import opened Analytics

  const ConfidenceScore := 0.85

  // ---------------------------------------------------------------------------------------------
  // The knowledge query text

  /** `context?.current_stage` is truthy. */
  predicate HasStage(context: Option<CultivationContext>) {
    context.Some? && context.value.currentStage != ""
  }

  /** `buildKnowledgeQuery`: the species name, then the current stage, each only when present,
      joined by one space. */
  method BuildKnowledgeQuery(species: Option<SpeciesProfile>, context: Option<CultivationContext>) returns (query: string)
    ensures species.None? && !HasStage(context) ==> query == ""
    ensures species.Some? && !HasStage(context) ==> query == species.value.speciesName
    ensures species.None? && HasStage(context) ==> query == context.value.currentStage
    ensures species.Some? && HasStage(context) ==> query == species.value.speciesName + " " + context.value.currentStage
  {
    var issues: seq<string> := [];
    if species.Some? {
      issues := issues + [species.value.speciesName];
    }
    if context.Some? && context.value.currentStage != "" {
      issues := issues + [context.value.currentStage];
    }
    query := Join(issues, " ");
    if |issues| == 2 {
      assert issues[1..] == [issues[1]];
      assert Join(issues, " ") == issues[0] + " " + Join([issues[1]], " ");
    }
  }

  // ---------------------------------------------------------------------------------------------
  // The knowledge sources recorded in the history

  /** A `knowledge_base` row, in the columns the function can read. */
  datatype KnowledgeRow = KnowledgeRow(id: Json, title: Json, summary: Json, processedContent: Json)

  /** The value of one column of a row; `None` for a column the table does not have. */
  function ColumnOf(row: KnowledgeRow, column: string): Option<Json> {
    if column == "id" then Some(row.id)
    else if column == "title" then Some(row.title)
    else if column == "summary" then Some(row.summary)
    else if column == "processed_content" then Some(row.processedContent)
    else None
  }

  /** A row as a `select` of the given columns returns it: a property read of another column is `undefined`. */
  function Read(row: KnowledgeRow, columns: set<string>, column: string): (v: Option<Json>)
    ensures column !in columns ==> v.None?
    ensures column in columns ==> v == ColumnOf(row, column)
  {
    if column in columns then ColumnOf(row, column) else None
  }

  /** The columns the knowledge query selects as written: `id` is not among them. */
  const SelectedColumns: set<string> := {"title", "summary", "processed_content"}

  /** The columns once `id` is selected too. */
  const SelectedColumnsWithId: set<string> := SelectedColumns + {"id"}

  /** `relevantKnowledge?.map(k => k.id) || []`: one entry per fetched row (`undefined` is stored as
      null), or none when the query returned no data. */
  function SourcesUsed(knowledge: Option<seq<KnowledgeRow>>, columns: set<string>): (ids: seq<Option<Json>>)
    ensures knowledge.None? ==> ids == []
    ensures knowledge.Some? ==> |ids| == |knowledge.value|
    ensures knowledge.Some? ==> forall i :: 0 <= i < |ids| ==> ids[i] == Read(knowledge.value[i], columns, "id")
  {
    if knowledge.None? then []
    else seq(|knowledge.value|, i requires 0 <= i < |knowledge.value| => Read(knowledge.value[i], columns, "id"))
  }

  /** As written, the history records no knowledge source: every entry is null. */
  lemma SourcesAsWrittenAreNull(knowledge: seq<KnowledgeRow>)
    ensures forall i :: 0 <= i < |knowledge| ==> SourcesUsed(Some(knowledge), SelectedColumns)[i].None?
  {
  }

  /** With `id` selected, the history records the id of every knowledge row given to the AI, in order. */
  lemma SourcesWithIdAreIds(knowledge: seq<KnowledgeRow>)
    ensures |SourcesUsed(Some(knowledge), SelectedColumnsWithId)| == |knowledge|
    ensures forall i :: 0 <= i < |knowledge| ==> SourcesUsed(Some(knowledge), SelectedColumnsWithId)[i] == Some(knowledge[i].id)
  {
  }

  // ---------------------------------------------------------------------------------------------
  // The handler

  /** What the database answers: the plant's cultivation context (with its species profile), the
      stage parameters of its species and stage, and the verified knowledge rows (at most 5). */
  datatype Lookups = Lookups(context: Option<CultivationContext>, stageParameters: Option<Json>, knowledge: Option<seq<KnowledgeRow>>)

  /** The success body `{message, insights_count, context_used}`; the processing time is a clock reading and is left out. */
  function EnhancedBody(count: nat, contextUsed: bool): Json {
    JObj(map["message" := JStr(CompletedMessage), "insights_count" := JNum(count as real), "context_used" := JBool(contextUsed)])
  }

  /** The history row of a completed run for a plant with a context, as written: the knowledge
      sources are read from rows selected without `id`, so there is one null per knowledge row. */
  function HistoryOf(plantId: Json, context: CultivationContext, stageParameters: Option<Json>,
                     knowledge: Option<seq<KnowledgeRow>>, run: Run): (h: HistoryRow)
    requires run.stats.Some?
    ensures h.plantId == plantId && h.contextId == context.id && h.snapshot == run.stats.value
    ensures h.species == context.speciesProfile && h.stage == context.currentStage && h.parameters == stageParameters
    ensures h.insightsGenerated == run.insights && h.recommendations == AllRecommendations(run.insights)
    ensures h.knowledgeSourcesUsed == SourcesUsed(knowledge, SelectedColumns)
    ensures knowledge.None? ==> h.knowledgeSourcesUsed == []
    ensures knowledge.Some? ==> |h.knowledgeSourcesUsed| == |knowledge.value|
    ensures knowledge.Some? ==> forall i :: 0 <= i < |knowledge.value| ==> h.knowledgeSourcesUsed[i].None?
    ensures h.confidenceScore == ConfidenceScore
  {
    HistoryRow(plantId, context.id, run.stats.value, context.speciesProfile, context.currentStage, stageParameters,
      SourcesUsed(knowledge, SelectedColumns), run.insights, AllRecommendations(run.insights), ConfidenceScore)
  }

  /** The corrected history row: the same row, with the knowledge query selecting `id` as well, so
      that the sources are the ids of the knowledge rows given to the AI, in order. */
  function CorrectedHistoryOf(plantId: Json, context: CultivationContext, stageParameters: Option<Json>,
                              knowledge: Option<seq<KnowledgeRow>>, run: Run): (h: HistoryRow)
    requires run.stats.Some?
    ensures h == HistoryOf(plantId, context, stageParameters, knowledge, run).(knowledgeSourcesUsed := h.knowledgeSourcesUsed)
    ensures knowledge.None? ==> h.knowledgeSourcesUsed == []
    ensures knowledge.Some? ==> |h.knowledgeSourcesUsed| == |knowledge.value|
    ensures knowledge.Some? ==> forall i :: 0 <= i < |knowledge.value| ==> h.knowledgeSourcesUsed[i] == Some(knowledge.value[i].id)
  {
    HistoryOf(plantId, context, stageParameters, knowledge, run).(knowledgeSourcesUsed := SourcesUsed(knowledge, SelectedColumnsWithId))
  }

  /** The context the function finds: looked up only for a truthy `plantId`. */
  function ContextFor(plantId: Option<Json>, look: Lookups): Option<CultivationContext> {
    if Truthy(plantId) then look.context else None
  }

  /** Handles one request. `body` is the parsed request body (`None` when it is not JSON);
      `deactivateError`, `insertError` and `historyError` are the outcomes of the three writes. */
  method Serve(db: Database, body: Option<Json>, look: Lookups, readings: Result<seq<Reading>, DbError>, ai: AiCall,
               deactivateError: Option<DbError>, insertError: Option<DbError>, historyError: Option<DbError>)
    returns (response: Response)
    modifies db`insights, db`analysisHistory
    ensures body.None? ==> response == Caught(BodyParseError)
    ensures body.Some? && body.value.JNull? ==> response == Caught(EngineTypeError)
    ensures Nullish(body) ==> db.insights == old(db.insights) && db.analysisHistory == old(db.analysisHistory)
    ensures !Nullish(body) ==> response == ResponseOf(Prop(body, "plantId"), look, RunAnalysis(readings, ai, insertError))
    ensures !Nullish(body) ==>
      var run := RunAnalysis(readings, ai, insertError);
      db.insights == (if run.deactivated then InsightsAfterSave(old(db.insights), run.saved, deactivateError, None) else old(db.insights))
    ensures !Nullish(body) ==>
      db.analysisHistory == old(db.analysisHistory) +
        HistoryRows(Prop(body, "plantId"), look, RunAnalysis(readings, ai, insertError), historyError)
  {
    if body.None? {
      return Caught(BodyParseError);
    }
    if body.value.JNull? {
      return Caught(EngineTypeError);
    }
    var plantId := Prop(body, "plantId");
    var run := RunAgainst(db, readings, ai, deactivateError, insertError);
    response := Conclude(db, plantId, look, run, historyError);
  }

  /** The response of the enhanced function: the shared steps' response, with `context_used` added
      on success. */
  function ResponseOf(plantId: Option<Json>, look: Lookups, run: Run): (r: Response)
    ensures !Succeeded(run) ==> r == run.response
    ensures Succeeded(run) ==> (r.status == 200 && r.body.JObj? &&
      r.body.fields.Keys == {"message", "insights_count", "context_used"} &&
      r.body.fields["insights_count"] == JNum(|run.saved| as real) &&
      r.body.fields["context_used"] == JBool(ContextFor(plantId, look).Some? && ContextFor(plantId, look).value.speciesProfile.Some?))
  {
    if !Succeeded(run) then run.response
    else
      var context := ContextFor(plantId, look);
      Response(200, EnhancedBody(|run.saved|, context.Some? && context.value.speciesProfile.Some?))
  }

  /** The rows appended to `ai_analysis_history`: one for a completed run when the plant's context
      was found and the insert succeeds, none otherwise. */
  function HistoryRows(plantId: Option<Json>, look: Lookups, run: Run, historyError: Option<DbError>): (rows: seq<HistoryRow>)
    requires run.deactivated ==> run.stats.Some?
    ensures |rows| <= 1
    ensures |rows| == 1 <==> Succeeded(run) && Truthy(plantId) && look.context.Some? && historyError.None?
    ensures |rows| == 1 ==> rows[0] == HistoryOf(plantId.value, look.context.value, look.stageParameters, look.knowledge, run)
  {
    var context := ContextFor(plantId, look);
    if Succeeded(run) && context.Some? && historyError.None? then
      [HistoryOf(plantId.value, context.value, look.stageParameters, look.knowledge, run)]
    else []
  }

  /** The steps after the shared ones: the knowledge query text (built and not used: the knowledge
      rows fetched do not depend on it), the history row, and the response. The history insert's
      error is not looked at: the response is the same whether it succeeds or not. */
  method Conclude(db: Database, plantId: Option<Json>, look: Lookups, run: Run, historyError: Option<DbError>)
    returns (response: Response)
    requires run.deactivated ==> run.stats.Some?
    modifies db`analysisHistory
    ensures response == ResponseOf(plantId, look, run)
    ensures db.analysisHistory == old(db.analysisHistory) + HistoryRows(plantId, look, run, historyError)
  {
    if !Succeeded(run) {
      return run.response;
    }
    var context := ContextFor(plantId, look);
    var species: Option<SpeciesProfile> := None;
    var stageParameters: Option<Json> := None;
    if context.Some? {
      species := context.value.speciesProfile;
      stageParameters := look.stageParameters;
    }
    var knowledgeQuery := BuildKnowledgeQuery(species, context);
    if Truthy(plantId) && context.Some? && historyError.None? {
      db.InsertHistory(HistoryOf(plantId.value, context.value, stageParameters, look.knowledge, run));
    }
    response := Response(200, EnhancedBody(|run.saved|, species.Some?));
  }

  /** A history row is written exactly when the run completes for a truthy `plantId` whose context
      exists and the history insert succeeds; a failed history insert changes nothing in the response. */
  lemma HistoryWritten(body: Json, look: Lookups, readings: Result<seq<Reading>, DbError>, ai: AiCall,
                       insertError: Option<DbError>, historyError: Option<DbError>)
    requires !body.JNull?
    ensures var run := RunAnalysis(readings, ai, insertError);
      (|HistoryRows(Prop(Some(body), "plantId"), look, run, historyError)| == 1 <==>
        Truthy(Prop(Some(body), "plantId")) && look.context.Some? && readings.Ok? && readings.value != [] &&
        OkStatus(ai.status) && ai.content.Some? && !ai.content.value.Malformed? && insertError.None? && historyError.None?)
  {
  }
}
