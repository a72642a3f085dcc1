/** The relay panel (src/components/dashboard/RelayControls.tsx): the relay configurations, the latest
    relay status row, and which status column each relay card shows. */
module RelayControls {
  import opened Wrappers
  import opened Json
  import opened Strings

  /** The columns of a `relay_status` row, relay by relay. */
  const StatusColumns: seq<string> := ["relay1_led", "relay2_pump", "relay3_ph_up", "relay4_fan",
                                       "relay5_humidity", "relay6_ec", "relay7_co2", "relay8_generic"]

  /** The PostgREST code for "the query returned no rows", which `.single()` reports as an error. */
  const NoRowsCode := "PGRST116"

  /** A `relay_configs` row, in the columns the panel reads. */
  datatype RelayConfig = RelayConfig(relayIndex: int, mode: string, name: Option<string>)

  /** The status column of relay `index`: relays 0 to 7 have one each, any other index none. */
  function StatusColumn(index: int): (c: Option<string>)
    ensures 0 <= index < 8 <==> c.Some?
    ensures c.Some? ==> c.value == StatusColumns[index]
  {
    if 0 <= index < 8 then Some(StatusColumns[index]) else None
  }

  /** Different relays read different columns. */
  lemma StatusColumnsDistinct(i: int, j: int)
    requires 0 <= i < 8 && 0 <= j < 8 && i != j
    ensures StatusColumn(i) != StatusColumn(j)
  {
  }

  /** `getRelayStatus(index)`: false without a status row or for an index with no column; otherwise
      whether that column is truthy (`relayStatus[key] || false`). */
  function RelayIsOn(status: Option<map<string, Json>>, index: int): (on: bool)
    ensures status.None? ==> !on
    ensures !(0 <= index < 8) ==> !on
    ensures status.Some? && 0 <= index < 8 ==>
      (on <==> StatusColumns[index] in status.value && Truthy(Some(status.value[StatusColumns[index]])))
  {
    if status.None? then false
    else
      var column := StatusColumn(index);
      column.Some? && column.value in status.value && Truthy(Some(status.value[column.value]))
  }

  /** The name a relay card shows: the configured name, or `Relé n` (counting from 1) when it is
      missing or empty. */
  function DisplayName(config: RelayConfig): (name: string)
    ensures config.name.Some? && config.name.value != "" ==> name == config.name.value
    ensures !(config.name.Some? && config.name.value != "") ==> name == "Relé " + IntToString(config.relayIndex + 1)
  {
    if config.name.Some? && config.name.value != "" then config.name.value
    else "Relé " + IntToString(config.relayIndex + 1)
  }

  /** The panel's state: the configs shown and the latest status row. */
  class RelayPanel {
    var configs: seq<RelayConfig>
    var status: Option<map<string, Json>>

    constructor ()
      ensures configs == [] && status.None?
    {
      configs, status := [], None;
    }

    /** `fetchRelayConfigs`: the answer to the ordered query replaces the list (`data || []`); an
        error leaves it unchanged. `answer` is the database's reply, already in `relay_index` order. */
    method FetchRelayConfigs(answer: Result<Option<seq<RelayConfig>>, string>)
      modifies this`configs
      ensures answer.Err? ==> configs == old(configs)
      ensures answer.Ok? ==> configs == (if answer.value.Some? then answer.value.value else [])
    {
      if answer.Err? {
        return;
      }
      configs := if answer.value.Some? then answer.value.value else [];
    }

    /** `fetchLatestRelayStatus`: an error other than "no rows" leaves the status unchanged; otherwise
        a returned row replaces it and no row keeps the old one. */
    method FetchLatestRelayStatus(data: Option<map<string, Json>>, errorCode: Option<string>)
      modifies this`status
      ensures errorCode.Some? && errorCode.value != NoRowsCode ==> status == old(status)
      ensures (errorCode.None? || errorCode.value == NoRowsCode) && data.Some? ==> status == data
      ensures data.None? ==> status == old(status)
    {
      if errorCode.Some? && errorCode.value != NoRowsCode {
        return;
      }
      if data.Some? {
        status := data;
      }
    }

    /** The relay-status subscription: a newly inserted row becomes the status. */
    method OnStatusInserted(row: map<string, Json>)
      modifies this`status
      ensures status == Some(row)
    {
      status := Some(row);
    }
  }
}
