/** The ping edge function (supabase/functions/mqtt-ping): queues the special command relay -1 / true. */
module MqttPing {
  import opened Wrappers
  import opened Json
  import opened Http
  import opened Store

  /** The relay index that marks a ping in `relay_commands`. */
  const PingRelayIndex := JNum(-1.0)

  function Pinged(id: int): Json {
    JObj(map["success" := JBool(true), "message" := JStr("Ping enviado"), "commandId" := JNum(id as real)])
  }

  /** The decision for one ping. The catch block reports the error's own message (no `instanceof` test). */
  function Ping(insertError: Option<DbError>, newId: int): (r: Response)
    ensures r.status == 200 <==> insertError.None?
    ensures insertError.None? ==> (r.body.JObj? && "commandId" in r.body.fields && "success" in r.body.fields &&
      r.body.fields["commandId"] == JNum(newId as real) && r.body.fields["success"] == JBool(true))
    ensures insertError.Some? ==> r == ErrorResponse(500, insertError.value.message)
  {
    if insertError.Some? then ErrorResponse(500, insertError.value.message)
    else Response(200, Pinged(newId))
  }

  method Serve(db: Database, insertError: Option<DbError>) returns (response: Response)
    requires db.Valid()
    modifies db`relayCommands, db`nextCommandId, db`eventLogs
    ensures db.Valid()
    ensures response == Ping(insertError, old(db.nextCommandId))
    ensures insertError.None? ==>
      db.relayCommands == old(db.relayCommands) + [RelayCommand(old(db.nextCommandId), PingRelayIndex, JBool(true), false)] &&
      db.eventLogs == old(db.eventLogs) + [EventLog("mqtt_ping", PingRequested)]
    ensures insertError.Some? ==> db.relayCommands == old(db.relayCommands) && db.eventLogs == old(db.eventLogs)
  {
    if insertError.Some? {
      return ErrorResponse(500, insertError.value.message);
    }
    var id := db.InsertRelayCommand(PingRelayIndex, JBool(true));
    db.InsertEventLog(EventLog("mqtt_ping", PingRequested));
    response := Response(200, Pinged(id));
  }
}
