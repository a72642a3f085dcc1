/** The `useBluetoothLE` hook (src/hooks/useBluetoothLE.tsx): scanning for BLE devices, the connected
    device, writing text to a characteristic and the log of text read from the device. */
module UseBluetoothLE {
  import opened Wrappers
  import opened Toasts

  /** A BLE device as the plugin reports it. */
  datatype Device = Device(deviceId: string, name: Option<string>)

  /** One scan result: the device and its signal strength, when reported. */
  datatype ScanResult = ScanResult(device: Device, rssi: Option<int>)

  /** A characteristic of a device: service and characteristic UUIDs. */
  datatype Characteristic = Characteristic(deviceId: string, service: string, characteristic: string)

  /** An unsigned 8-bit value, one byte of a `DataView`. */
  newtype Byte = x: int | 0 <= x < 256

  /** One `BleClient.write` call: the characteristic and the bytes of the data view. */
  datatype Write = Write(target: Characteristic, bytes: seq<Byte>)

  /** No two scan results are for the same device. */
  predicate UniqueIds(devices: seq<ScanResult>) {
    forall i, j :: 0 <= i < j < |devices| ==> devices[i].device.deviceId != devices[j].device.deviceId
  }

  /** `devices.find(d => d.device.deviceId === deviceId)`: the first result for that device. */
  function Find(devices: seq<ScanResult>, deviceId: string): (r: Option<ScanResult>)
    ensures r.None? <==> forall i :: 0 <= i < |devices| ==> devices[i].device.deviceId != deviceId
    ensures r.Some? ==> r.value in devices && r.value.device.deviceId == deviceId
  {
    if devices == [] then None
    else if devices[0].device.deviceId == deviceId then Some(devices[0])
    else Find(devices[1..], deviceId)
  }

  /** With unique ids, the result `Find` returns is the only one for that device. */
  lemma {:induction false} FindUnique(devices: seq<ScanResult>, i: int)
    requires UniqueIds(devices) && 0 <= i < |devices|
    ensures Find(devices, devices[i].device.deviceId) == Some(devices[i])
  {
    if i > 0 {
      assert devices[0].device.deviceId != devices[i].device.deviceId;
      assert devices[1..][i - 1] == devices[i];
      FindUnique(devices[1..], i - 1);
    }
  }

  /** The scan list after one more result: unchanged when the device is already listed, otherwise
      the result appended at the end. */
  function AddResult(devices: seq<ScanResult>, result: ScanResult): (r: seq<ScanResult>)
    ensures Find(devices, result.device.deviceId).Some? ==> r == devices
    ensures Find(devices, result.device.deviceId).None? ==> r == devices + [result]
    ensures UniqueIds(devices) ==> UniqueIds(r)
    ensures Find(r, result.device.deviceId).Some?
  {
    if Find(devices, result.device.deviceId).Some? then devices
    else
      var r := devices + [result];
      assert r[|devices|] == result;
      r
  }

  /** `DataView.setUint8(i, data.charCodeAt(i))` for every index: one byte per character, the code
      reduced modulo 256. */
  function Bytes(data: string): (b: seq<Byte>)
    ensures |b| == |data|
    ensures forall i :: 0 <= i < |data| ==> b[i] as int == data[i] as int % 256
  {
    seq(|data|, i requires 0 <= i < |data| => (data[i] as int % 256) as Byte)
  }

  function ConnectedToast(device: Device): Toast {
    Info("Conectado", "Conectado a " + (if device.name.Some? && device.name.value != "" then device.name.value else "dispositivo"))
  }

  const ScanningToast := Info("Escaneando", "Procurando dispositivos Bluetooth próximos...")
  const ScanFailedToast := Failure("Erro ao escanear", "Verifique as permissões do app")
  const LostToast := Failure("Dispositivo Desconectado", "A conexão foi perdida")
  const ConnectFailedToast := Failure("Erro de Conexão", "Não foi possível conectar ao dispositivo")
  const DisconnectedToast := Info("Desconectado", "Dispositivo desconectado com sucesso")
  const NoDeviceToast := Failure("Erro", "Nenhum dispositivo conectado")
  const WriteFailedToast := Failure("Erro ao Enviar", "Não foi possível enviar os dados")
  const ReadFailedToast := Failure("Erro ao Ler", "Não foi possível ler os dados")

  function SentToast(data: string): Toast {
    Info("Dados Enviados", "Enviado: " + data)
  }

  /** The hook's state together with the calls it made on the BLE plugin. */
  class BleHook {
    var isScanning: bool
    var devices: seq<ScanResult>
    var connectedDevice: Option<Device>
    var receivedData: seq<string>
    var toasts: seq<Toast>
    /** The writes handed to the plugin, and the characteristics whose notifications were started. */
    var writes: seq<Write>
    var notifying: seq<Characteristic>

    /** The scan list never holds two results for the same device. */
    predicate Valid()
      reads this`devices
    {
      UniqueIds(devices)
    }

    constructor ()
      ensures Valid()
      ensures !isScanning && devices == [] && connectedDevice.None? && receivedData == []
      ensures toasts == [] && writes == [] && notifying == []
    {
      isScanning, devices, connectedDevice, receivedData := false, [], None, [];
      toasts, writes, notifying := [], [], [];
    }

    /** `startScan`: clears the list and marks the scan running; when the plugin refuses the scan,
        the scan is marked stopped again. */
    method StartScan(scanFails: bool)
      modifies this`isScanning, this`devices, this`toasts
      ensures Valid()
      ensures devices == [] && isScanning == !scanFails
      ensures toasts == old(toasts) + [if scanFails then ScanFailedToast else ScanningToast]
    {
      isScanning, devices := true, [];
      if scanFails {
        isScanning := false;
        toasts := toasts + [ScanFailedToast];
      } else {
        toasts := toasts + [ScanningToast];
      }
    }

    /** The scan callback: a result is added only for a device not yet listed. */
    method OnScanResult(result: ScanResult)
      requires Valid()
      modifies this`devices
      ensures Valid()
      ensures devices == AddResult(old(devices), result)
      ensures Find(devices, result.device.deviceId).Some?
    {
      devices := AddResult(devices, result);
    }

    /** `stopScan`: marks the scan stopped unless the plugin call fails. */
    method StopScan(stopFails: bool)
      modifies this`isScanning
      ensures isScanning == (old(isScanning) && stopFails)
    {
      if !stopFails {
        isScanning := false;
      }
    }

    /** `connect(deviceId)`: after the plugin connects, the device becomes the connected one when it
        is in the scan list; an id not in the list leaves the state unchanged. */
    method Connect(deviceId: string, connectFails: bool)
      modifies this`connectedDevice, this`toasts
      ensures connectFails ==> connectedDevice == old(connectedDevice) && toasts == old(toasts) + [ConnectFailedToast]
      ensures !connectFails && Find(devices, deviceId).Some? ==>
        connectedDevice == Some(Find(devices, deviceId).value.device) &&
        toasts == old(toasts) + [ConnectedToast(Find(devices, deviceId).value.device)]
      ensures !connectFails && Find(devices, deviceId).None? ==>
        connectedDevice == old(connectedDevice) && toasts == old(toasts)
      ensures connectedDevice.Some? && connectedDevice != old(connectedDevice) ==> connectedDevice.value.deviceId == deviceId
    {
      if connectFails {
        toasts := toasts + [ConnectFailedToast];
        return;
      }
      var found := Find(devices, deviceId);
      if found.Some? {
        connectedDevice := Some(found.value.device);
        toasts := toasts + [ConnectedToast(found.value.device)];
      }
    }

    /** The disconnect callback registered by `connect(deviceId)`: it clears the connected device
        only when the device that dropped is the one it was registered for. */
    method OnDeviceDisconnected(deviceId: string, disconnectedId: string)
      modifies this`connectedDevice, this`toasts
      ensures disconnectedId == deviceId ==> connectedDevice.None? && toasts == old(toasts) + [LostToast]
      ensures disconnectedId != deviceId ==> connectedDevice == old(connectedDevice) && toasts == old(toasts)
    {
      if disconnectedId == deviceId {
        connectedDevice := None;
        toasts := toasts + [LostToast];
      }
    }

    /** `disconnect`: nothing without a connected device; otherwise, once the plugin disconnects,
        clears the device and the received data. */
    method Disconnect(disconnectFails: bool)
      modifies this`connectedDevice, this`receivedData, this`toasts
      ensures old(connectedDevice).None? || disconnectFails ==>
        connectedDevice == old(connectedDevice) && receivedData == old(receivedData) && toasts == old(toasts)
      ensures old(connectedDevice).Some? && !disconnectFails ==>
        connectedDevice.None? && receivedData == [] && toasts == old(toasts) + [DisconnectedToast]
    {
      if connectedDevice.None? {
        return;
      }
      if !disconnectFails {
        connectedDevice, receivedData := None, [];
        toasts := toasts + [DisconnectedToast];
      }
    }

    /** `writeData`: refuses without a connected device; otherwise fills a buffer of `|data|` bytes,
        byte `i` being the code of character `i` modulo 256, and writes it to the characteristic. */
    method WriteData(service: string, characteristic: string, data: string, writeFails: bool)
      modifies this`writes, this`toasts
      ensures old(connectedDevice).None? ==> writes == old(writes) && toasts == old(toasts) + [NoDeviceToast]
      ensures old(connectedDevice).Some? ==>
        writes == old(writes) + [Write(Characteristic(connectedDevice.value.deviceId, service, characteristic), Bytes(data))] &&
        toasts == old(toasts) + [if writeFails then WriteFailedToast else SentToast(data)]
    {
      if connectedDevice.None? {
        toasts := toasts + [NoDeviceToast];
        return;
      }
      var buffer := new Byte[|data|];
      for i := 0 to |data|
        invariant forall k :: 0 <= k < i ==> buffer[k] as int == data[k] as int % 256
        invariant writes == old(writes) && toasts == old(toasts)
      {
        buffer[i] := (data[i] as int % 256) as Byte;
      }
      assert buffer[..] == Bytes(data);
      writes := writes + [Write(Characteristic(connectedDevice.value.deviceId, service, characteristic), buffer[..])];
      if writeFails {
        toasts := toasts + [WriteFailedToast];
      } else {
        toasts := toasts + [SentToast(data)];
      }
    }

    /** `readData`: nothing without a connected device; a successful read appends the decoded text
        at the end of the received data and returns it, a failed one only notifies. */
    method ReadData(service: string, characteristic: string, read: Option<string>) returns (text: Option<string>)
      modifies this`receivedData, this`toasts
      ensures old(connectedDevice).None? ==> text.None? && receivedData == old(receivedData) && toasts == old(toasts)
      ensures old(connectedDevice).Some? && read.Some? ==>
        text == read && receivedData == old(receivedData) + [read.value] && toasts == old(toasts)
      ensures old(connectedDevice).Some? && read.None? ==>
        text.None? && receivedData == old(receivedData) && toasts == old(toasts) + [ReadFailedToast]
    {
      if connectedDevice.None? {
        return None;
      }
      if read.Some? {
        receivedData := receivedData + [read.value];
        return read;
      }
      toasts := toasts + [ReadFailedToast];
      return None;
    }

    /** `startNotifications`: nothing without a connected device; otherwise subscribes to the
        characteristic unless the plugin fails. */
    method StartNotifications(service: string, characteristic: string, startFails: bool)
      modifies this`notifying
      ensures old(connectedDevice).None? || startFails ==> notifying == old(notifying)
      ensures old(connectedDevice).Some? && !startFails ==>
        notifying == old(notifying) + [Characteristic(connectedDevice.value.deviceId, service, characteristic)]
    {
      if connectedDevice.None? || startFails {
        return;
      }
      notifying := notifying + [Characteristic(connectedDevice.value.deviceId, service, characteristic)];
    }

    /** The notification callback: the decoded text is appended at the end of the received data. */
    method OnNotification(text: string)
      modifies this`receivedData
      ensures receivedData == old(receivedData) + [text]
    {
      receivedData := receivedData + [text];
    }
  }

  /** Scanning keeps one entry per device whatever the plugin reports: after any sequence of results
      the list still has unique ids, and every reported device is in it. */
  lemma {:induction false} ScanListsEachDeviceOnce(results: seq<ScanResult>, devices: seq<ScanResult>)
    requires UniqueIds(devices)
    ensures UniqueIds(AddAll(devices, results))
    ensures forall k :: 0 <= k < |results| ==> Find(AddAll(devices, results), results[k].device.deviceId).Some?
  {
    AddAllUnique(devices, results);
    forall k | 0 <= k < |results|
      ensures Find(AddAll(devices, results), results[k].device.deviceId).Some?
    {
      AddAllFinds(devices, results, k);
    }
  }

  lemma {:induction false} AddAllUnique(devices: seq<ScanResult>, results: seq<ScanResult>)
    requires UniqueIds(devices)
    ensures UniqueIds(AddAll(devices, results))
    decreases |results|
  {
    if results != [] {
      AddAllUnique(AddResult(devices, results[0]), results[1..]);
    }
  }

  lemma {:induction false} AddAllFinds(devices: seq<ScanResult>, results: seq<ScanResult>, k: int)
    requires 0 <= k < |results|
    ensures Find(AddAll(devices, results), results[k].device.deviceId).Some?
    decreases |results|
  {
    var next := AddResult(devices, results[0]);
    if k == 0 {
      AddAllKeeps(next, results[1..], results[0].device.deviceId);
    } else {
      assert results[k] == results[1..][k - 1];
      AddAllFinds(next, results[1..], k - 1);
    }
  }

  /** The scan list after a sequence of results, in order. */
  function AddAll(devices: seq<ScanResult>, results: seq<ScanResult>): (r: seq<ScanResult>)
    ensures |devices| <= |r|
    ensures r[..|devices|] == devices
    decreases |results|
  {
    if results == [] then devices else AddAll(AddResult(devices, results[0]), results[1..])
  }

  /** A listed device stays listed as results arrive. */
  lemma {:induction false} AddAllKeeps(devices: seq<ScanResult>, results: seq<ScanResult>, id: string)
    requires Find(devices, id).Some?
    ensures Find(AddAll(devices, results), id).Some?
    decreases |results|
  {
    if results != [] {
      var next := AddResult(devices, results[0]);
      var i :| 0 <= i < |devices| && devices[i].device.deviceId == id;
      assert next[i] == devices[i];
      AddAllKeeps(next, results[1..], id);
    }
  }
}
