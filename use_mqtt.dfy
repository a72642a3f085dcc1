/** The `useMqtt` hook (src/hooks/useMqtt.tsx): the browser's MQTT connection, the last message
    received on the subscribed topics, and the publish operations the dashboard uses. */
module UseMqtt {
  import opened Wrappers
  import opened Json
  import opened Strings
  import opened Http
  import opened Toasts

  const TopicSensors := "aquasys/sensors/all"
  const TopicRelayStatus := "aquasys/relay/status"
  const TopicRelayCommands := "aquasys/relay/commands"

  /** QoS level 1, "at least once" delivery (section 4.3.2 of OASIS MQTT 3.1.1). */
  const AtLeastOnce := 1

  const NotConnectedMessage := "MQTT não conectado"

  /** A message kept as `lastMessage`: its topic, its parsed payload and the time it was received. */
  datatype Message = Message(topic: string, payload: Json, timestamp: int)

  /** One `subscribe` call: the topic list and the QoS requested. */
  datatype Subscription = Subscription(topics: seq<string>, qos: int)

  /** One `publish` call handed to the client: topic, payload text and QoS. */
  datatype Publication = Publication(topic: string, payload: string, qos: int)

  /** The `message` argument of `publish`: a string, or any other value. */
  datatype Outgoing = Text(s: string) | Value(v: Json)

  /** The payload text `publish` sends: a string unchanged, any other value through `stringify`
      (`JSON.stringify`, which the model leaves uninterpreted). */
  function PayloadText(message: Outgoing, stringify: Json -> string): (p: string)
    ensures message.Text? ==> p == message.s
    ensures message.Value? ==> p == stringify(message.v)
  {
    match message
    case Text(s) => s
    case Value(v) => stringify(v)
  }

  /** The relay command message `{relay_index, command, timestamp}`. */
  function RelayCommandMessage(relayIndex: int, command: bool, timestamp: string): (m: Json)
    ensures m.JObj? && m.fields.Keys == {"relay_index", "command", "timestamp"}
    ensures m.fields["relay_index"] == JNum(relayIndex as real)
    ensures m.fields["command"] == JBool(command) && m.fields["timestamp"] == JStr(timestamp)
  {
    JObj(map["relay_index" := JNum(relayIndex as real), "command" := JBool(command), "timestamp" := JStr(timestamp)])
  }

  /** The notification after a relay command was published. */
  function CommandSentToast(relayIndex: int, command: bool): Toast {
    Info("Comando enviado", "Relé " + IntToString(relayIndex) + " → " + (if command then "ON" else "OFF"))
  }

  const CommandFailedToast := Failure("Erro ao enviar comando", "Falha na comunicação MQTT")
  const SubscribeFailedToast := Failure("Erro MQTT", "Falha ao subscrever nos tópicos")
  const ConnectionErrorToast := Failure("Erro de Conexão", "Falha na conexão MQTT")

  /** The hook's state together with the parts of the MQTT client it reads and drives. */
  class MqttHook {
    /** The `isConnected` state the hook exposes. */
    var isConnected: bool
    var lastMessage: Option<Message>
    /** Whether `clientRef.current` holds a client. */
    var hasClient: bool
    /** The client's own `connected` flag, which the guards of `connect` and `publish` read. */
    var clientConnected: bool
    /** How many clients `mqtt.connect` created, and how many of them were ended. */
    var clientsCreated: nat
    var clientsEnded: nat
    var subscriptions: seq<Subscription>
    var published: seq<Publication>
    var toasts: seq<Toast>

    /** The hook never reports a connection, and the client never counts as connected, without a client. */
    predicate Valid()
      reads this`isConnected, this`hasClient, this`clientConnected, this`clientsCreated, this`clientsEnded
    {
      (isConnected ==> hasClient) && (clientConnected ==> hasClient) &&
      clientsEnded + (if hasClient then 1 else 0) <= clientsCreated
    }

    /** The state on first render: no client, not connected, no message. */
    constructor ()
      ensures Valid()
      ensures !isConnected && lastMessage.None? && !hasClient && !clientConnected
      ensures clientsCreated == 0 && clientsEnded == 0
      ensures subscriptions == [] && published == [] && toasts == []
    {
      isConnected, lastMessage, hasClient, clientConnected := false, None, false, false;
      clientsCreated, clientsEnded := 0, 0;
      subscriptions, published, toasts := [], [], [];
    }

    /** `connect`: nothing when the current client is connected; otherwise a new client replaces
        the reference (a previous, unconnected client is not ended). Also what the mount effect runs. */
    method Connect()
      requires Valid()
      modifies this`hasClient, this`clientConnected, this`clientsCreated
      ensures Valid()
      ensures old(hasClient && clientConnected) ==>
        hasClient && clientConnected && clientsCreated == old(clientsCreated)
      ensures !old(hasClient && clientConnected) ==>
        hasClient && !clientConnected && clientsCreated == old(clientsCreated) + 1
    {
      if hasClient && clientConnected {
        return;
      }
      hasClient, clientConnected := true, false;
      clientsCreated := clientsCreated + 1;
    }

    /** The client's `connect` event: the hook reports the connection and subscribes to the sensor and
        relay-status topics with QoS 1; a failed subscription only shows a notification. */
    method OnConnect(subscribeFails: bool)
      requires Valid() && hasClient
      modifies this`isConnected, this`clientConnected, this`subscriptions, this`toasts
      ensures Valid()
      ensures isConnected && clientConnected
      ensures subscriptions == old(subscriptions) + [Subscription([TopicSensors, TopicRelayStatus], AtLeastOnce)]
      ensures toasts == old(toasts) + (if subscribeFails then [SubscribeFailedToast] else [])
    {
      clientConnected := true;
      isConnected := true;
      subscriptions := subscriptions + [Subscription([TopicSensors, TopicRelayStatus], AtLeastOnce)];
      if subscribeFails {
        toasts := toasts + [SubscribeFailedToast];
      }
    }

    /** The client's `message` event. `parsed` is `JSON.parse` of the payload text, `None` when it
        throws: such a message is dropped and `lastMessage` is unchanged. */
    method OnMessage(topic: string, parsed: Option<Json>, now: int)
      modifies this`lastMessage
      ensures parsed.Some? ==> lastMessage == Some(Message(topic, parsed.value, now))
      ensures parsed.None? ==> lastMessage == old(lastMessage)
    {
      if parsed.Some? {
        lastMessage := Some(Message(topic, parsed.value, now));
      }
    }

    /** The client's `error` event: a notification and nothing else. */
    method OnError()
      modifies this`toasts
      ensures toasts == old(toasts) + [ConnectionErrorToast]
    {
      toasts := toasts + [ConnectionErrorToast];
    }

    /** The client's `disconnect` event (a DISCONNECT packet from the broker). */
    method OnDisconnect()
      requires Valid()
      modifies this`isConnected
      ensures Valid() && !isConnected
    {
      isConnected := false;
    }

    /** The client's `offline` event: the connection is closed, so the client's flag is down as well. */
    method OnOffline()
      requires Valid()
      modifies this`isConnected, this`clientConnected
      ensures Valid() && !isConnected && !clientConnected
    {
      clientConnected := false;
      isConnected := false;
    }

    /** `disconnect`: ends the client, clears the reference and reports no connection; nothing
        without a client. Also what the unmount cleanup runs. */
    method Disconnect()
      requires Valid()
      modifies this`hasClient, this`clientConnected, this`clientsEnded, this`isConnected
      ensures Valid()
      ensures !old(hasClient) ==> clientsEnded == old(clientsEnded) && isConnected == old(isConnected)
      ensures old(hasClient) ==> clientsEnded == old(clientsEnded) + 1 && !isConnected
      ensures !hasClient && !clientConnected
    {
      if hasClient {
        clientsEnded := clientsEnded + 1;
        hasClient, clientConnected := false, false;
        isConnected := false;
      }
    }

    /** `publish(topic, message, {qos})`: rejects with "MQTT não conectado" without publishing when
        the client is not connected; otherwise hands one publication to the client and settles with
        what the client reports. */
    method Publish(topic: string, message: Outgoing, qos: int, stringify: Json -> string, sendError: Option<Thrown>)
      returns (outcome: Result<(), Thrown>)
      modifies this`published
      ensures !(hasClient && clientConnected) ==>
        published == old(published) && outcome == Err(Thrown(NotConnectedMessage, true))
      ensures hasClient && clientConnected ==>
        published == old(published) + [Publication(topic, PayloadText(message, stringify), qos)] &&
        outcome == (if sendError.Some? then Err(sendError.value) else Ok(()))
    {
      if !(hasClient && clientConnected) {
        return Err(Thrown(NotConnectedMessage, true));
      }
      var payload := PayloadText(message, stringify);
      published := published + [Publication(topic, payload, qos)];
      if sendError.Some? {
        return Err(sendError.value);
      }
      return Ok(());
    }

    /** `publishRelayCommand`: publishes the command message on the relay-commands topic with QoS 1,
        notifies the outcome, and rethrows a failure to its caller. */
    method PublishRelayCommand(relayIndex: int, command: bool, timestamp: string, stringify: Json -> string,
                               sendError: Option<Thrown>) returns (outcome: Result<(), Thrown>)
      modifies this`published, this`toasts
      ensures !(hasClient && clientConnected) ==>
        published == old(published) && outcome == Err(Thrown(NotConnectedMessage, true))
      ensures hasClient && clientConnected ==>
        published == old(published) +
          [Publication(TopicRelayCommands, stringify(RelayCommandMessage(relayIndex, command, timestamp)), AtLeastOnce)] &&
        outcome == (if sendError.Some? then Err(sendError.value) else Ok(()))
      ensures outcome.Ok? ==> toasts == old(toasts) + [CommandSentToast(relayIndex, command)]
      ensures outcome.Err? ==> toasts == old(toasts) + [CommandFailedToast]
    {
      var message := RelayCommandMessage(relayIndex, command, timestamp);
      outcome := Publish(TopicRelayCommands, Value(message), AtLeastOnce, stringify, sendError);
      if outcome.Ok? {
        toasts := toasts + [CommandSentToast(relayIndex, command)];
      } else {
        toasts := toasts + [CommandFailedToast];
      }
    }
  }

  /** The life of one hook: publishing is rejected until the client's `connect` event, succeeds after
      it, and is rejected again once `disconnect` has run. */
  method ConnectThenPublish(stringify: Json -> string) returns (before: Result<(), Thrown>, after: Result<(), Thrown>, closed: Result<(), Thrown>)
    ensures before == Err(Thrown(NotConnectedMessage, true))
    ensures after == Ok(())
    ensures closed == Err(Thrown(NotConnectedMessage, true))
  {
    var hook := new MqttHook();
    hook.Connect();
    before := hook.Publish(TopicRelayCommands, Text("x"), AtLeastOnce, stringify, None);
    hook.OnConnect(false);
    after := hook.Publish(TopicRelayCommands, Text("x"), AtLeastOnce, stringify, None);
    hook.Disconnect();
    closed := hook.Publish(TopicRelayCommands, Text("x"), AtLeastOnce, stringify, None);
  }
}
