/** The list of scanned devices (src/components/bluetooth/BluetoothDeviceList.tsx): a signal band per
    device and a connect button per device. */
module BluetoothDeviceList {
  import opened Wrappers
  import opened UseBluetoothLE

  datatype Strength = Desconhecido | Fraco | Regular | Bom | Excelente
  datatype BadgeVariant = Default | Secondary | Outline | Destructive

  /** `getSignalStrength`: unknown for a missing or zero rssi; otherwise strict thresholds, above
      -60 dBm excellent, above -70 good, above -80 regular, else weak. */
  function SignalStrength(rssi: Option<int>): (s: Strength)
    ensures s == Desconhecido <==> rssi.None? || rssi.value == 0
    ensures rssi.Some? && rssi.value != 0 ==>
      (s == Excelente <==> rssi.value > -60) && (s == Bom <==> -70 < rssi.value <= -60) &&
      (s == Regular <==> -80 < rssi.value <= -70) && (s == Fraco <==> rssi.value <= -80)
  {
    if rssi.None? || rssi.value == 0 then Desconhecido
    else if rssi.value > -60 then Excelente
    else if rssi.value > -70 then Bom
    else if rssi.value > -80 then Regular
    else Fraco
  }

  /** `getSignalColor`: default for a missing or zero rssi and above -60 dBm, secondary above -70,
      outline above -80, destructive otherwise. */
  function SignalColor(rssi: Option<int>): (c: BadgeVariant)
    ensures rssi.None? || rssi.value == 0 ==> c == Default
    ensures rssi.Some? && rssi.value != 0 ==>
      (c == Default <==> rssi.value > -60) && (c == Secondary <==> -70 < rssi.value <= -60) &&
      (c == Outline <==> -80 < rssi.value <= -70) && (c == Destructive <==> rssi.value <= -80)
  {
    if rssi.None? || rssi.value == 0 then Default
    else if rssi.value > -60 then Default
    else if rssi.value > -70 then Secondary
    else if rssi.value > -80 then Outline
    else Destructive
  }

  /** The strength and colour bands use the same thresholds: each strength has exactly one colour. */
  lemma BandsAgree(rssi: Option<int>)
    ensures SignalStrength(rssi) in {Desconhecido, Excelente} <==> SignalColor(rssi) == Default
    ensures SignalStrength(rssi) == Bom <==> SignalColor(rssi) == Secondary
    ensures SignalStrength(rssi) == Regular <==> SignalColor(rssi) == Outline
    ensures SignalStrength(rssi) == Fraco <==> SignalColor(rssi) == Destructive
  {
  }

  /** The connect button of a device is disabled exactly when it is the connected device. */
  predicate ConnectDisabled(connectedDeviceId: Option<string>, result: ScanResult) {
    connectedDeviceId == Some(result.device.deviceId)
  }

  /** In a scan list with unique ids, at most one connect button is disabled. */
  lemma AtMostOneDisabled(devices: seq<ScanResult>, connectedDeviceId: Option<string>)
    requires UniqueIds(devices)
    ensures forall i, j :: 0 <= i < j < |devices| && ConnectDisabled(connectedDeviceId, devices[i]) ==>
      !ConnectDisabled(connectedDeviceId, devices[j])
  {
  }
}
