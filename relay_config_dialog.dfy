/** The relay configuration dialog (src/components/dashboard/RelayConfigDialog.tsx): the mode and the
    parameter fields of one relay, saved as an update of that relay's `relay_configs` row. */
module RelayConfigDialog {
  import opened Wrappers
  import opened Json
  import opened Toasts

  /** A row, or a record of column values, by column name. */
  type Record = map<string, Json>

  const DefaultMode := JStr("unused")
  const SavedToast := Info("Sucesso", "Configuração salva com sucesso!")

  /** `useState(config?.mode || "unused")`: the config's mode when it is truthy, else "unused". */
  function InitialMode(config: Option<Record>): (mode: Option<Json>)
    ensures config.Some? && "mode" in config.value && Truthy(Some(config.value["mode"])) ==> mode == Some(config.value["mode"])
    ensures !(config.Some? && "mode" in config.value && Truthy(Some(config.value["mode"]))) ==> mode == Some(DefaultMode)
  {
    if config.Some? && "mode" in config.value && Truthy(Some(config.value["mode"])) then Some(config.value["mode"])
    else Some(DefaultMode)
  }

  /** `{mode, ...formData, updated_at}` AS WRITTEN: a `mode` key in the form data overrides the
      selected mode. An undefined mode leaves the key out, as JSON serialisation does. */
  function UpdateRecordAsWritten(mode: Option<Json>, formData: Record, now: string): (r: Record)
    ensures r.Keys == formData.Keys + {"updated_at"} + (if mode.Some? then {"mode"} else {})
    ensures r["updated_at"] == JStr(now)
    ensures forall k :: k in formData && k != "updated_at" ==> r[k] == formData[k]
  {
    (if mode.Some? then map["mode" := mode.value] else map[]) + formData + map["updated_at" := JStr(now)]
  }

  /** The update record with the selected mode applied after the form data, so that it is the mode saved. */
  function UpdateRecord(mode: Option<Json>, formData: Record, now: string): (r: Record)
    ensures r.Keys == formData.Keys + {"updated_at"} + (if mode.Some? then {"mode"} else {})
    ensures r["updated_at"] == JStr(now)
    ensures mode.Some? ==> r["mode"] == mode.value
    ensures forall k :: k in formData && k != "updated_at" && k != "mode" ==> r[k] == formData[k]
    ensures mode.None? && "mode" in formData ==> r["mode"] == formData["mode"]
  {
    formData + (if mode.Some? then map["mode" := mode.value] else map[]) + map["updated_at" := JStr(now)]
  }

  /** `.update(record).eq("relay_index", relayIndex)`: every row of that relay takes the record's
      values over its own; every other row is unchanged. */
  function ApplyUpdate(rows: seq<Record>, relayIndex: int, update: Record): (r: seq<Record>)
    ensures |r| == |rows|
    ensures forall i :: 0 <= i < |rows| ==>
      r[i] == (if "relay_index" in rows[i] && rows[i]["relay_index"] == JNum(relayIndex as real) then rows[i] + update else rows[i])
  {
    seq(|rows|, i requires 0 <= i < |rows| =>
      if "relay_index" in rows[i] && rows[i]["relay_index"] == JNum(relayIndex as real) then rows[i] + update else rows[i])
  }

  /** The `relay_configs` table. */
  class ConfigTable {
    var rows: seq<Record>

    constructor (rows: seq<Record>)
      ensures this.rows == rows
    {
      this.rows := rows;
    }
  }

  /** The dialog of one relay. */
  class Dialog {
    const relayIndex: int
    var mode: Option<Json>
    var formData: Record
    var isSaving: bool
    var open: bool
    var toasts: seq<Toast>
    /** How many times `onSave` was called. */
    var saves: nat

    constructor (relayIndex: int, config: Option<Record>)
      ensures this.relayIndex == relayIndex && mode == InitialMode(config) && formData == map[]
      ensures !isSaving && open && toasts == [] && saves == 0
    {
      this.relayIndex := relayIndex;
      mode, formData, isSaving, open := InitialMode(config), map[], false, true;
      toasts, saves := [], 0;
    }

    /** The effect on `config`: a present config replaces both the mode and the whole form data. */
    method LoadConfig(config: Option<Record>)
      modifies this`mode, this`formData
      ensures config.Some? ==> formData == config.value && mode == (if "mode" in config.value then Some(config.value["mode"]) else None)
      ensures config.None? ==> formData == old(formData) && mode == old(mode)
    {
      if config.Some? {
        mode := if "mode" in config.value then Some(config.value["mode"]) else None;
        formData := config.value;
      }
    }

    /** The mode selector. */
    method SelectMode(m: string)
      modifies this`mode
      ensures mode == Some(JStr(m))
    {
      mode := Some(JStr(m));
    }

    /** A parameter input: one form field set. */
    method SetField(key: string, value: Json)
      modifies this`formData
      ensures formData == old(formData)[key := value]
    {
      formData := formData[key := value];
    }

    /** `handleSave`: updates this relay's row with the update record as written (the form data
        spread after the mode); on success notifies, calls
        `onSave` and closes, on error notifies with the error's message and stays open. */
    method HandleSave(table: ConfigTable, now: string, updateError: Option<string>)
      modifies this`isSaving, this`open, this`toasts, this`saves, table
      ensures updateError.None? ==>
        table.rows == ApplyUpdate(old(table.rows), relayIndex, UpdateRecordAsWritten(mode, formData, now)) &&
        !open && saves == old(saves) + 1 && toasts == old(toasts) + [SavedToast]
      ensures updateError.Some? ==>
        table.rows == old(table.rows) && open == old(open) && saves == old(saves) &&
        toasts == old(toasts) + [Failure("Erro", updateError.value)]
      ensures !isSaving
    {
      isSaving := true;
      if updateError.Some? {
        toasts := toasts + [Failure("Erro", updateError.value)];
      } else {
        table.rows := ApplyUpdate(table.rows, relayIndex, UpdateRecordAsWritten(mode, formData, now));
        toasts := toasts + [SavedToast];
        saves := saves + 1;
        open := false;
      }
      isSaving := false;
    }
  }

  /** As written, a mode chosen after the config was loaded is not saved: loading "led" and then
      selecting "ec" still writes "led". */
  lemma SelectedModeLostAsWritten(now: string)
    ensures var loaded := map["relay_index" := JNum(0.0), "mode" := JStr("led")];
      UpdateRecordAsWritten(Some(JStr("ec")), loaded, now)["mode"] == JStr("led")
  {
  }

  /** With the mode applied last, the selected mode is the one saved, whatever the loaded form holds. */
  lemma SelectedModeSaved(m: string, loaded: Record, now: string)
    ensures UpdateRecord(Some(JStr(m)), loaded, now)["mode"] == JStr(m)
  {
  }
}
