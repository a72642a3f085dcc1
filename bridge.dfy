/** The MQTT-to-HTTP bridge (mqtt-bridge/bridge.py): it subscribes to two broker topics and forwards
    every decodable message to the collector edge function as `{action, data}`. */
module Bridge {
  import opened Wrappers
  import opened Json

  const TopicSensors := "aquasys/sensors/all"
  const TopicRelayStatus := "aquasys/relay/status"
  const EdgeFunctionUrl := "https://oaabtbvwxsjomeeizciq.supabase.co/functions/v1/mqtt-collector"
  const ActionSensors := "process_sensors"
  const ActionRelayStatus := "process_relay_status"
  const RequestTimeoutSeconds := 10
  const KeepaliveSeconds := 60

  /** The action a message on `topic` is forwarded with; other topics are dropped. */
  function ActionFor(topic: string): (a: Option<string>)
    ensures a == Some(ActionSensors) <==> topic == TopicSensors
    ensures a == Some(ActionRelayStatus) <==> topic == TopicRelayStatus
    ensures a.None? <==> topic != TopicSensors && topic != TopicRelayStatus
  {
    if topic == TopicSensors then Some(ActionSensors)
    else if topic == TopicRelayStatus then Some(ActionRelayStatus)
    else None
  }

  /** The JSON body `{"action": action, "data": data}`. */
  function Envelope(action: string, data: Json): (e: Json)
    ensures e.JObj? && e.fields.Keys == {"action", "data"}
    ensures e.fields["action"] == JStr(action) && e.fields["data"] == data
  {
    JObj(map["action" := JStr(action), "data" := data])
  }

  /** One HTTP POST the bridge issues. */
  datatype Post = Post(url: string, contentType: string, timeoutSeconds: int, body: Json)

  /** What `requests.post` did: answered with a status code, or raised (timeout, refused connection). */
  datatype HttpOutcome = Answered(statusCode: int) | Raised

  /** What `send_to_edge_function` reports after its POST. */
  datatype Delivery = Delivered | Refused(statusCode: int) | RequestFailed

  datatype Forward = Forward(post: Post, delivery: Delivery)

  /** `send_to_edge_function(action, data)`: one POST of the envelope to the collector; success is status 200 exactly. */
  function SendToEdgeFunction(action: string, data: Json, outcome: HttpOutcome): (f: Forward)
    ensures f.post.url == EdgeFunctionUrl && f.post.contentType == "application/json"
    ensures f.post.timeoutSeconds == RequestTimeoutSeconds
    ensures f.post.body == Envelope(action, data)
    ensures f.delivery.Delivered? <==> outcome == Answered(200)
    ensures f.delivery.RequestFailed? <==> outcome.Raised?
  {
    var post := Post(EdgeFunctionUrl, "application/json", RequestTimeoutSeconds, Envelope(action, data));
    match outcome
    case Raised => Forward(post, RequestFailed)
    case Answered(code) => Forward(post, if code == 200 then Delivered else Refused(code))
  }

  /** `on_message`: `payload` is the message decoded as UTF-8 JSON, None when decoding raised (the
      exception is caught and the message dropped). At most one POST per message. */
  function OnMessage(topic: string, payload: Option<Json>, outcome: HttpOutcome): (r: Option<Forward>)
    ensures r.Some? <==> payload.Some? && (topic == TopicSensors || topic == TopicRelayStatus)
    ensures r.Some? ==> r.value.post.body == Envelope(ActionFor(topic).value, payload.value)
  {
    match payload
    case None => None
    case Some(data) =>
      match ActionFor(topic)
      case None => None
      case Some(action) => Some(SendToEdgeFunction(action, data, outcome))
  }

  /** The action of every envelope the bridge sends is one of its two actions, never "process". */
  lemma ForwardedActions(topic: string, payload: Option<Json>, outcome: HttpOutcome)
    requires OnMessage(topic, payload, outcome).Some?
    ensures var body := OnMessage(topic, payload, outcome).value.post.body;
      body.fields["action"] in {JStr(ActionSensors), JStr(ActionRelayStatus)} &&
      body.fields["action"] != JStr("process")
  {
  }

  /** The paho client as the bridge configures it. */
  class MqttClient {
    var credentials: Option<(string, string)>
    var tlsEnabled: bool
    var callbacksSet: bool
    /** Broker, port and keepalive passed to `connect`. */
    var connectArgs: Option<(string, int, int)>
    var subscriptions: seq<string>
    /** Whether `loop_forever` was entered: from then on the process serves messages until it is killed. */
    var looping: bool

    constructor ()
      ensures credentials.None? && !tlsEnabled && !callbacksSet && connectArgs.None?
      ensures subscriptions == [] && !looping
    {
      credentials, tlsEnabled, callbacksSet, connectArgs := None, false, false, None;
      subscriptions, looping := [], false;
    }

    /** `on_connect`: subscribes to both topics when the return code is 0, and to nothing otherwise. */
    method OnConnect(rc: int)
      modifies this`subscriptions
      ensures rc == 0 ==> subscriptions == old(subscriptions) + [TopicSensors, TopicRelayStatus]
      ensures rc != 0 ==> subscriptions == old(subscriptions)
    {
      if rc == 0 {
        subscriptions := subscriptions + [TopicSensors];
        subscriptions := subscriptions + [TopicRelayStatus];
      }
    }
  }

  /** `main`: configures a client and connects; when `connect` raises, it returns without looping. */
  method RunBridge(broker: string, port: int, username: string, password: string, connectRaises: bool)
    returns (client: MqttClient)
    ensures fresh(client)
    ensures client.credentials == Some((username, password)) && client.tlsEnabled && client.callbacksSet
    ensures client.connectArgs == Some((broker, port, KeepaliveSeconds))
    ensures client.looping <==> !connectRaises
    ensures client.subscriptions == []
  {
    client := new MqttClient();
    client.credentials := Some((username, password));
    client.tlsEnabled := true;
    client.callbacksSet := true;
    client.connectArgs := Some((broker, port, KeepaliveSeconds));
    if !connectRaises {
      client.looping := true;
    }
  }
}
