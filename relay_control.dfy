/** The relay-control edge function (supabase/functions/relay-control): queues a relay command in
    `relay_commands` for a device-side bridge to execute, and logs it. */
module RelayControl {
  import opened Wrappers
  import opened Json
  import opened Http
  import opened Store

  const BridgeHint := "Configure um bridge MQTT para buscar e executar este comando"

  /** The success body `{message, command_id, info}`. */
  function Registered(id: int): Json {
    JObj(map["message" := JStr("Comando registrado com sucesso"), "command_id" := JNum(id as real), "info" := JStr(BridgeHint)])
  }

  /** The error the database returns when a null goes into `relay_commands.relay_index` or
      `relay_commands.command`, both NOT NULL columns. Like every database error it is a plain object,
      not an `Error`. */
  const NotNullViolation := Thrown("null value violates not-null constraint", false)

  /** What one request does: the response, the command queued (relay index, command) and the logs written. */
  datatype Outcome = Outcome(response: Response, queued: Option<(Json, Json)>, logs: seq<EventLog>)

  /** The decision for one request. `insertError` is what the insert of non-null values returns;
      `newId` the id it assigns. */
  function Register(body: Option<Json>, insertError: Option<DbError>, newId: int): (o: Outcome)
    ensures o.queued.Some? <==> (body.Some? && !body.value.JNull? &&
      Prop(body, "relay_index").Some? && Prop(body, "command").Some? &&
      !Prop(body, "relay_index").value.JNull? && !Prop(body, "command").value.JNull? && insertError.None?)
    ensures o.queued.Some? ==> o.queued.value == (Prop(body, "relay_index").value, Prop(body, "command").value)
    ensures o.response.status == 200 <==> o.queued.Some?
    ensures o.queued.Some? ==> o.response.body == Registered(newId)
    ensures o.queued.Some? ==> o.logs == [EventLog("relay_command", CommandRegistered(o.queued.value.0, Truthy(Some(o.queued.value.1))))]
    ensures o.queued.None? ==> o.logs == []
    ensures body.Some? && !body.value.JNull? && (Prop(body, "relay_index").None? || Prop(body, "command").None?) ==>
      o.response == ErrorResponse(400, "relay_index e command são obrigatórios")
  {
    if body.None? then Outcome(Caught(BodyParseError), None, [])
    else if body.value.JNull? then Outcome(Caught(EngineTypeError), None, [])
    else
      var relayIndex := Prop(body, "relay_index");
      var command := Prop(body, "command");
      if relayIndex.None? || command.None? then
        Outcome(ErrorResponse(400, "relay_index e command são obrigatórios"), None, [])
      else if relayIndex.value.JNull? || command.value.JNull? then
        Outcome(Caught(NotNullViolation), None, [])
      else if insertError.Some? then
        Outcome(Caught(Thrown(insertError.value.message, false)), None, [])
      else
        Outcome(Response(200, Registered(newId)), Some((relayIndex.value, command.value)),
          [EventLog("relay_command", CommandRegistered(relayIndex.value, Truthy(command)))])
  }

  /** The presence test rejects only missing members: relay 0 with command `false` is queued, and
      members that are `null` pass it, to be refused by the NOT NULL columns with the catch's
      "Erro desconhecido" rather than the 400 of the presence test. */
  lemma FalsyValuesQueued(newId: int, insertError: Option<DbError>)
    ensures Register(Some(JObj(map["relay_index" := JNum(0.0), "command" := JBool(false)])), None, newId).queued ==
      Some((JNum(0.0), JBool(false)))
    ensures var o := Register(Some(JObj(map["relay_index" := JNull, "command" := JNull])), insertError, newId);
      o.queued.None? && o.response == ErrorResponse(500, "Erro desconhecido")
  {
  }

  /** The handler against the database: the queued row gets the next id, and that id is returned. */
  method Serve(db: Database, body: Option<Json>, insertError: Option<DbError>) returns (response: Response)
    requires db.Valid()
    modifies db`relayCommands, db`nextCommandId, db`eventLogs
    ensures db.Valid()
    ensures var o := Register(body, insertError, old(db.nextCommandId));
      response == o.response &&
      db.eventLogs == old(db.eventLogs) + o.logs &&
      db.relayCommands == old(db.relayCommands) +
        (if o.queued.Some? then [RelayCommand(old(db.nextCommandId), o.queued.value.0, o.queued.value.1, false)] else [])
  {
    if body.None? {
      return Caught(BodyParseError);
    }
    if body.value.JNull? {
      return Caught(EngineTypeError);
    }
    var relayIndex := Prop(body, "relay_index");
    var command := Prop(body, "command");
    if relayIndex.None? || command.None? {
      return ErrorResponse(400, "relay_index e command são obrigatórios");
    }
    if relayIndex.value.JNull? || command.value.JNull? {
      return Caught(NotNullViolation);
    }
    if insertError.Some? {
      return Caught(Thrown(insertError.value.message, false));
    }
    var id := db.InsertRelayCommand(relayIndex.value, command.value);
    db.InsertEventLog(EventLog("relay_command", CommandRegistered(relayIndex.value, Truthy(command))));
    response := Response(200, Registered(id));
  }
}
