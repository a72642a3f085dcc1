/** The collector edge function (supabase/functions/mqtt-collector): validates one sensor reading,
    stores it and logs the outcome in `event_logs`. */
module Collector {
  import opened Wrappers
  import opened Json
  import opened Http
  import opened Store
  import Bridge


  /** What one request does: the response, the reading inserted (if any) and the event logs written. */
  datatype Outcome = Outcome(response: Response, reading: Option<ReadingInsert>, logs: seq<EventLog>)

  /** The five required members, each truthy (so a reading of 0 is rejected). */
  predicate HasRequiredFields(data: Json)
    requires !data.JNull?
  {
    Truthy(Prop(Some(data), "ph")) && Truthy(Prop(Some(data), "ec")) && Truthy(Prop(Some(data), "airTemp")) &&
    Truthy(Prop(Some(data), "humidity")) && Truthy(Prop(Some(data), "waterTemp"))
  }

  /** The row inserted for `data`: the values copied as they are, `airTemp` and `waterTemp` renamed. */
  function RowOf(data: Json): ReadingInsert
    requires data.JObj? && HasRequiredFields(data)
  {
    ReadingInsert(data.fields["ph"], data.fields["ec"], data.fields["airTemp"], data.fields["humidity"], data.fields["waterTemp"])
  }

  /** Whether the request body is an object whose `action` is exactly "process". */
  predicate IsProcessRequest(body: Option<Json>) {
    body.Some? && body.value.JObj? && Prop(body, "action") == Some(JStr("process"))
  }

  /** Whether a "process" request carries a valid `data` object. */
  predicate HasValidData(body: Option<Json>) {
    body.Some? && body.value.JObj? && "data" in body.value.fields &&
    body.value.fields["data"].JObj? && HasRequiredFields(body.value.fields["data"])
  }

  /** The collector's decision for one request. `insertError` is what the `readings` insert returns. */
  function Collect(body: Option<Json>, insertError: Option<DbError>): (o: Outcome)
    ensures o.reading.Some? <==> IsProcessRequest(body) && HasValidData(body) && insertError.None?
    ensures o.reading.Some? ==> o.reading.value == RowOf(body.value.fields["data"])
    ensures o.response.status == 200 <==> o.reading.Some?
    ensures o.response.status in {200, 400, 500}
    ensures body.Some? && body.value.JObj? && !IsProcessRequest(body) ==>
      o == Outcome(ErrorResponse(400, "Ação inválida"), None, [])
    ensures IsProcessRequest(body) && Nullish(Prop(body, "data")) ==> o == Outcome(Caught(EngineTypeError), None, [])
    ensures IsProcessRequest(body) && !Nullish(Prop(body, "data")) && !HasRequiredFields(Prop(body, "data").value) ==>
      o == Outcome(ErrorResponse(400, "Dados inválidos"), None,
        [EventLog("validation_error", InvalidDataReceived(Prop(body, "data").value))])
    ensures o.reading.Some? ==>
      o.response == MessageResponse("Leitura processada com sucesso") &&
      o.logs == [EventLog("reading_received", ReadingProcessed(body.value.fields["data"].fields["ph"], body.value.fields["data"].fields["ec"]))]
    ensures IsProcessRequest(body) && HasValidData(body) && insertError.Some? ==>
      o.response == ErrorResponse(500, "Erro desconhecido") &&
      o.logs == [EventLog("database_error", ReadingInsertFailed(insertError.value.message))]
    ensures |o.logs| <= 1
  {
    if body.None? then Outcome(Caught(BodyParseError), None, [])
    else if body.value.JNull? then Outcome(Caught(EngineTypeError), None, [])
    else
      var action := Prop(body, "action");
      var data := Prop(body, "data");
      if action != Some(JStr("process")) then Outcome(ErrorResponse(400, "Ação inválida"), None, [])
      else if Nullish(data) then Outcome(Caught(EngineTypeError), None, [])
      else if !HasRequiredFields(data.value) then
        Outcome(ErrorResponse(400, "Dados inválidos"), None, [EventLog("validation_error", InvalidDataReceived(data.value))])
      else if insertError.Some? then
        Outcome(Caught(Thrown(insertError.value.message, false)), None,
          [EventLog("database_error", ReadingInsertFailed(insertError.value.message))])
      else
        Outcome(MessageResponse("Leitura processada com sucesso"), Some(RowOf(data.value)),
          [EventLog("reading_received", ReadingProcessed(data.value.fields["ph"], data.value.fields["ec"]))])
  }

  /** A reading of 0 in any required member is rejected as invalid data, and nothing is stored. */
  lemma ZeroReadingRejected(fields: map<string, Json>, key: string, insertError: Option<DbError>)
    requires key in {"ph", "ec", "airTemp", "humidity", "waterTemp"}
    ensures var data := JObj(fields[key := JNum(0.0)]);
      Collect(Some(JObj(map["action" := JStr("process"), "data" := data])), insertError) ==
      Outcome(ErrorResponse(400, "Dados inválidos"), None, [EventLog("validation_error", InvalidDataReceived(data))])
  {
  }

  /** Every envelope the bridge forwards is answered 400 "Ação inválida", and nothing is written:
      the bridge sends "process_sensors" or "process_relay_status", the collector accepts only "process". */
  lemma BridgedMessagesRejected(topic: string, payload: Option<Json>, outcome: Bridge.HttpOutcome, insertError: Option<DbError>)
    requires Bridge.OnMessage(topic, payload, outcome).Some?
    ensures var body := Bridge.OnMessage(topic, payload, outcome).value.post.body;
      Collect(Some(body), insertError) == Outcome(ErrorResponse(400, "Ação inválida"), None, [])
  {
    Bridge.ForwardedActions(topic, payload, outcome);
  }

  /** The handler as it runs against the database: its writes are exactly those Collect decides. */
  method Serve(db: Database, body: Option<Json>, insertError: Option<DbError>) returns (response: Response)
    modifies db`readings, db`eventLogs
    ensures var o := Collect(body, insertError);
      response == o.response &&
      db.readings == old(db.readings) + (if o.reading.Some? then [o.reading.value] else []) &&
      db.eventLogs == old(db.eventLogs) + o.logs
  {
    if body.None? {
      return Caught(BodyParseError);
    }
    if body.value.JNull? {
      return Caught(EngineTypeError);
    }
    var action := Prop(body, "action");
    var data := Prop(body, "data");
    if action == Some(JStr("process")) {
      if Nullish(data) {
        return Caught(EngineTypeError);
      }
      if !HasRequiredFields(data.value) {
        db.InsertEventLog(EventLog("validation_error", InvalidDataReceived(data.value)));
        return ErrorResponse(400, "Dados inválidos");
      }
      if insertError.Some? {
        db.InsertEventLog(EventLog("database_error", ReadingInsertFailed(insertError.value.message)));
        return Caught(Thrown(insertError.value.message, false));
      }
      db.InsertReading(RowOf(data.value));
      db.InsertEventLog(EventLog("reading_received", ReadingProcessed(data.value.fields["ph"], data.value.fields["ec"])));
      return MessageResponse("Leitura processada com sucesso");
    }
    return ErrorResponse(400, "Ação inválida");
  }
}
