/** The ESP32 Wi-Fi manager (src/components/wifi/ESP32WifiManager.tsx): signal bands of the two
    modules, and the MQTT messages that ask a module for its status or give it new credentials. */
module ESP32WifiManager {
  import opened Json
  import opened Strings
  import opened Wrappers
  import opened Http
  import opened Toasts
  import opened UseMqtt

  datatype Strength = Fraco | Razoavel | Bom | Excelente
  datatype BadgeColor = Destructive | Secondary | Default

  /** `getSignalStrength`: at least -50 dBm is excellent, -60 good, -70 fair, anything lower weak. */
  function SignalStrength(rssi: int): (s: Strength)
    ensures s == Excelente <==> rssi >= -50
    ensures s == Bom <==> -60 <= rssi < -50
    ensures s == Razoavel <==> -70 <= rssi < -60
    ensures s == Fraco <==> rssi < -70
  {
    if rssi >= -50 then Excelente
    else if rssi >= -60 then Bom
    else if rssi >= -70 then Razoavel
    else Fraco
  }

  function StrengthText(s: Strength): string {
    match s
    case Excelente => "Excelente"
    case Bom => "Bom"
    case Razoavel => "Razoável"
    case Fraco => "Fraco"
  }

  /** `getSignalColor`: at least -60 dBm default, -70 secondary, anything lower destructive. */
  function SignalColor(rssi: int): (c: BadgeColor)
    ensures c == Default <==> rssi >= -60
    ensures c == Secondary <==> -70 <= rssi < -60
    ensures c == Destructive <==> rssi < -70
  {
    if rssi >= -60 then Default
    else if rssi >= -70 then Secondary
    else Destructive
  }

  function StrengthRank(s: Strength): nat {
    match s
    case Fraco => 0
    case Razoavel => 1
    case Bom => 2
    case Excelente => 3
  }

  function ColorRank(c: BadgeColor): nat {
    match c
    case Destructive => 0
    case Secondary => 1
    case Default => 2
  }

  /** Both classifiers are monotone: a stronger signal never gets a weaker band or colour. */
  lemma SignalMonotone(a: int, b: int)
    requires a <= b
    ensures StrengthRank(SignalStrength(a)) <= StrengthRank(SignalStrength(b))
    ensures ColorRank(SignalColor(a)) <= ColorRank(SignalColor(b))
  {
  }

  /** The colour agrees with the strength: default exactly for good or excellent, destructive
      exactly for weak. */
  lemma ColorFollowsStrength(rssi: int)
    ensures SignalColor(rssi) == Default <==> SignalStrength(rssi) in {Bom, Excelente}
    ensures SignalColor(rssi) == Destructive <==> SignalStrength(rssi) == Fraco
  {
  }

  /** `esp32/module{n}/wifi/{leaf}`. */
  function ModuleTopic(moduleNumber: int, leaf: string): string {
    "esp32/module" + IntToString(moduleNumber) + "/wifi/" + leaf
  }

  const StatusRequest := Obj1("command", JStr("get_status"))

  /** The credentials message `{ssid, password}`. */
  function CredentialsMessage(ssid: string, password: string): (m: Json)
    ensures m.JObj? && m.fields.Keys == {"ssid", "password"}
    ensures m.fields["ssid"] == JStr(ssid) && m.fields["password"] == JStr(password)
  {
    JObj(map["ssid" := JStr(ssid), "password" := JStr(password)])
  }

  const NotConnectedToast := Failure("Erro", "Não conectado ao MQTT")
  const MissingFieldsToast := Failure("Erro", "Preencha SSID e senha")
  const StatusFailedToast := Failure("Erro", "Falha ao solicitar status de rede")
  const ConfigFailedToast := Failure("Erro", "Falha ao enviar configuração")

  function StatusRequestedToast(moduleNumber: int): Toast {
    Info("Solicitação enviada", "Atualizando status do Módulo " + IntToString(moduleNumber) + "...")
  }

  function ConfigSentToast(moduleNumber: int): Toast {
    Info("Configuração enviada", "Módulo " + IntToString(moduleNumber) + " tentará conectar à nova rede")
  }

  /** The manager's form: new SSID and password per module, and its notifications. */
  class WifiManager {
    var ssid1: string
    var password1: string
    var ssid2: string
    var password2: string
    var toasts: seq<Toast>

    constructor ()
      ensures ssid1 == "" && password1 == "" && ssid2 == "" && password2 == "" && toasts == []
    {
      ssid1, password1, ssid2, password2, toasts := "", "", "", "", [];
    }

    function Ssid(moduleNumber: int): string
      reads this
    {
      if moduleNumber == 1 then ssid1 else ssid2
    }

    function Password(moduleNumber: int): string
      reads this
    {
      if moduleNumber == 1 then password1 else password2
    }

    /** `handleRefreshNetwork(n)`: without an MQTT connection only a notification; otherwise a status
        request on the module's status topic. */
    method HandleRefreshNetwork(mqtt: MqttHook, moduleNumber: int, stringify: Json -> string, sendError: Option<Thrown>)
      requires moduleNumber == 1 || moduleNumber == 2
      modifies this`toasts, mqtt`published
      ensures !mqtt.isConnected ==> mqtt.published == old(mqtt.published) && toasts == old(toasts) + [NotConnectedToast]
      ensures mqtt.isConnected && mqtt.hasClient && mqtt.clientConnected ==>
        mqtt.published == old(mqtt.published) + [Publication(ModuleTopic(moduleNumber, "status"), stringify(StatusRequest), AtLeastOnce)]
      ensures mqtt.isConnected && mqtt.hasClient && mqtt.clientConnected && sendError.None? ==>
        toasts == old(toasts) + [StatusRequestedToast(moduleNumber)]
      ensures mqtt.isConnected && mqtt.hasClient && mqtt.clientConnected && sendError.Some? ==>
        toasts == old(toasts) + [StatusFailedToast]
      ensures mqtt.isConnected && !(mqtt.hasClient && mqtt.clientConnected) ==>
        mqtt.published == old(mqtt.published) && toasts == old(toasts) + [StatusFailedToast]
    {
      if !mqtt.isConnected {
        toasts := toasts + [NotConnectedToast];
        return;
      }
      var outcome := mqtt.Publish(ModuleTopic(moduleNumber, "status"), Value(StatusRequest), AtLeastOnce, stringify, sendError);
      if outcome.Ok? {
        toasts := toasts + [StatusRequestedToast(moduleNumber)];
      } else {
        toasts := toasts + [StatusFailedToast];
      }
    }

    /** `handleUpdateWifi(n)`: nothing is published when the module's SSID or password is empty or
        MQTT is not connected; otherwise the credentials go to the module's config topic, and after a
        successful publish only that module's two fields are cleared. */
    method HandleUpdateWifi(mqtt: MqttHook, moduleNumber: int, stringify: Json -> string, sendError: Option<Thrown>)
      requires moduleNumber == 1 || moduleNumber == 2
      modifies this, mqtt`published
      ensures Ssid(moduleNumber) == old(Ssid(moduleNumber)) || Ssid(moduleNumber) == ""
      ensures Ssid(3 - moduleNumber) == old(Ssid(3 - moduleNumber)) && Password(3 - moduleNumber) == old(Password(3 - moduleNumber))
      ensures old(Ssid(moduleNumber)) == "" || old(Password(moduleNumber)) == "" ==>
        mqtt.published == old(mqtt.published) && toasts == old(toasts) + [MissingFieldsToast] &&
        Ssid(moduleNumber) == old(Ssid(moduleNumber)) && Password(moduleNumber) == old(Password(moduleNumber))
      ensures old(Ssid(moduleNumber)) != "" && old(Password(moduleNumber)) != "" && !mqtt.isConnected ==>
        mqtt.published == old(mqtt.published) && toasts == old(toasts) + [NotConnectedToast] &&
        Ssid(moduleNumber) == old(Ssid(moduleNumber)) && Password(moduleNumber) == old(Password(moduleNumber))
      ensures old(Ssid(moduleNumber)) != "" && old(Password(moduleNumber)) != "" && mqtt.isConnected &&
              !(mqtt.hasClient && mqtt.clientConnected && sendError.None?) ==>
        toasts == old(toasts) + [ConfigFailedToast] &&
        Ssid(moduleNumber) == old(Ssid(moduleNumber)) && Password(moduleNumber) == old(Password(moduleNumber))
      ensures mqtt.isConnected && !(mqtt.hasClient && mqtt.clientConnected) ==> mqtt.published == old(mqtt.published)
      ensures old(Ssid(moduleNumber)) != "" && old(Password(moduleNumber)) != "" && mqtt.isConnected &&
              mqtt.hasClient && mqtt.clientConnected ==>
        mqtt.published == old(mqtt.published) +
          [Publication(ModuleTopic(moduleNumber, "config"), stringify(CredentialsMessage(old(Ssid(moduleNumber)), old(Password(moduleNumber)))), AtLeastOnce)]
      ensures old(Ssid(moduleNumber)) != "" && old(Password(moduleNumber)) != "" && mqtt.isConnected &&
              mqtt.hasClient && mqtt.clientConnected && sendError.None? ==>
        Ssid(moduleNumber) == "" && Password(moduleNumber) == "" && toasts == old(toasts) + [ConfigSentToast(moduleNumber)]
    {
      var ssid := if moduleNumber == 1 then ssid1 else ssid2;
      var password := if moduleNumber == 1 then password1 else password2;
      if ssid == "" || password == "" {
        toasts := toasts + [MissingFieldsToast];
        return;
      }
      if !mqtt.isConnected {
        toasts := toasts + [NotConnectedToast];
        return;
      }
      var outcome := mqtt.Publish(ModuleTopic(moduleNumber, "config"), Value(CredentialsMessage(ssid, password)), AtLeastOnce, stringify, sendError);
      if outcome.Err? {
        toasts := toasts + [ConfigFailedToast];
        return;
      }
      toasts := toasts + [ConfigSentToast(moduleNumber)];
      if moduleNumber == 1 {
        ssid1, password1 := "", "";
      } else {
        ssid2, password2 := "", "";
      }
    }
  }
}
