/** The analytics edge function (supabase/functions/ai-analytics): statistics of the latest 50
    readings, an AI analysis of them, and the insights it returns saved as the new active set. */
module AiAnalytics {
  import opened Wrappers
  import opened Http
  import opened Store
  import opened Insights
  import opened Analytics

  /** Handles one request. `readings` is the answer to the query for the 50 newest readings, newest
      first; `ai` the outcome of the AI request; `deactivateError` and `insertError` the outcomes of
      the deactivation and of the insight insert. */
  method Serve(db: Database, readings: Result<seq<Reading>, DbError>, ai: AiCall,
               deactivateError: Option<DbError>, insertError: Option<DbError>) returns (response: Response)
    modifies db`insights
    ensures response == RunAnalysis(readings, ai, insertError).response
    ensures var run := RunAnalysis(readings, ai, insertError);
      db.insights == (if run.deactivated then InsightsAfterSave(old(db.insights), run.saved, deactivateError, None)
                      else old(db.insights))
    ensures readings.Ok? && readings.value == [] ==> response == MessageResponse(NoDataMessage) && db.insights == old(db.insights)
    ensures response.status == 200 && readings != Ok([]) ==>
      db.insights == InsightsAfterSave(old(db.insights), ToRows(InsightsOf(ai.content.value), SensorStatsOf(readings.value)),
                                       deactivateError, None)
    ensures response.status == 200 && readings != Ok([]) ==>
      response.body == CompletedBody(|InsightsOf(ai.content.value)|)
  {
    var run := RunAgainst(db, readings, ai, deactivateError, insertError);
    response := run.response;
  }
}
