/** One relay card (src/components/dashboard/RelayCard.tsx): direct on/off control, allowed only in
    manual mode, and renaming the relay. */
module RelayCard {
  import opened Wrappers
  import opened Json
  import opened Strings
  import opened Http
  import opened Toasts

  const Manual := "manual"

  /** The modes of the `relay_mode` enum in the generated database types. */
  const SchemaRelayModes: set<string> := {"unused", "led", "cycle", "ph_up", "ph_down", "temperature", "humidity", "ec"}

  /** `getModeLabel`: the label of a known mode, and the mode itself for any other. */
  function ModeLabel(mode: string): (text: string)
    ensures mode == "unused" ==> text == "Não usado"
    ensures mode == "manual" ==> text == "Manual"
    ensures mode == "ph_up" ==> text == "pH Up"
    ensures mode == "ph_down" ==> text == "pH Down"
    ensures mode == "temperature" ==> text == "Temperatura"
    ensures mode == "humidity" ==> text == "Umidade"
    ensures mode == "led" ==> text == "LED Programado"
    ensures mode == "ec" ==> text == "EC"
    ensures mode == "cycle" ==> text == "Timer Cíclico"
    ensures mode !in SchemaRelayModes + {Manual} ==> text == mode
  {
    var labels := map["unused" := "Não usado", "manual" := "Manual", "ph_up" := "pH Up", "ph_down" := "pH Down",
                      "temperature" := "Temperatura", "humidity" := "Umidade", "led" := "LED Programado",
                      "ec" := "EC", "cycle" := "Timer Cíclico"];
    if mode in labels then labels[mode] else mode
  }

  /** Every mode a card can be given has its own label, and no two modes share one. */
  lemma ModeLabelsDistinct(m1: string, m2: string)
    requires m1 in SchemaRelayModes + {Manual} && m2 in SchemaRelayModes + {Manual} && m1 != m2
    ensures ModeLabel(m1) != ModeLabel(m2)
  {
  }

  /** The body sent to the relay-control function: the relay index and the opposite of its current state. */
  function ToggleBody(relayIndex: int, isOn: bool): (body: Json)
    ensures body.JObj? && body.fields.Keys == {"relay_index", "command"}
    ensures body.fields["relay_index"] == JNum(relayIndex as real) && body.fields["command"] == JBool(!isOn)
  {
    JObj(map["relay_index" := JNum(relayIndex as real), "command" := JBool(!isOn)])
  }

  const WrongModeToast := Failure("Modo incorreto",
    "O relé deve estar em modo manual para controle direto. Configure o modo nas configurações (ícone de engrenagem).")
  const WrongModeBadgeToast := Failure("Modo incorreto", "O relé deve estar em modo manual para controle direto")
  const EmptyNameToast := Failure("Erro", "O nome não pode estar vazio")
  const NameSavedToast := Info("Sucesso", "Nome do relé atualizado")
  const NameFailedToast := Failure("Erro", "Falha ao atualizar nome")

  function CommandSentToast(relayIndex: int, isOn: bool): Toast {
    Info("Comando enviado", "Relé " + IntToString(relayIndex + 1) + " - " + (if !isOn then "LIGAR" else "DESLIGAR") +
      ". Aguardando confirmação do ESP32...")
  }

  /** The error notification of a failed command: the error's message, or a fixed text for a
      thrown value that is not an `Error`. */
  function CommandFailedToast(e: Thrown): (t: Toast)
    ensures t.destructive
    ensures t.description == (if e.isErrorInstance then e.message else "Falha ao enviar comando")
  {
    Failure("Erro", if e.isErrorInstance then e.message else "Falha ao enviar comando")
  }

  /** Whether the status badge gets a click handler: only in manual mode. */
  predicate BadgeClickable(mode: string) {
    mode == Manual
  }

  /** One card's state and the calls it made. */
  class Card {
    const relayIndex: int
    var isLoading: bool
    var isEditingName: bool
    var newName: string
    var toasts: seq<Toast>
    /** The bodies of the `relay-control` invocations. */
    var commands: seq<Json>
    /** The `relay_configs` name updates issued, as (relay index, name). */
    var nameUpdates: seq<(int, string)>
    /** How many times `onNameUpdate` was called. */
    var refreshes: nat

    constructor (relayIndex: int, name: string)
      ensures this.relayIndex == relayIndex && newName == name
      ensures !isLoading && !isEditingName && toasts == [] && commands == [] && nameUpdates == [] && refreshes == 0
    {
      this.relayIndex := relayIndex;
      isLoading, isEditingName, newName := false, false, name;
      toasts, commands, nameUpdates, refreshes := [], [], [], 0;
    }

    /** `handleToggle`: outside manual mode only a notification; in manual mode one invocation with
        the opposite of the current state, a notification of the outcome, and loading reset. */
    method HandleToggle(mode: string, isOn: bool, invokeError: Option<Thrown>)
      modifies this`isLoading, this`toasts, this`commands
      ensures mode != Manual ==>
        commands == old(commands) && isLoading == old(isLoading) && toasts == old(toasts) + [WrongModeToast]
      ensures mode == Manual ==> commands == old(commands) + [ToggleBody(relayIndex, isOn)] && !isLoading
      ensures mode == Manual && invokeError.None? ==> toasts == old(toasts) + [CommandSentToast(relayIndex, isOn)]
      ensures mode == Manual && invokeError.Some? ==> toasts == old(toasts) + [CommandFailedToast(invokeError.value)]
    {
      if mode != Manual {
        toasts := toasts + [WrongModeToast];
        return;
      }
      isLoading := true;
      commands := commands + [ToggleBody(relayIndex, isOn)];
      if invokeError.Some? {
        toasts := toasts + [CommandFailedToast(invokeError.value)];
      } else {
        toasts := toasts + [CommandSentToast(relayIndex, isOn)];
      }
      isLoading := false;
    }

    /** `handleBadgeClick`: re-checks the mode, then toggles. */
    method HandleBadgeClick(mode: string, isOn: bool, invokeError: Option<Thrown>)
      modifies this`isLoading, this`toasts, this`commands
      ensures mode != Manual ==>
        commands == old(commands) && isLoading == old(isLoading) && toasts == old(toasts) + [WrongModeBadgeToast]
      ensures mode == Manual ==> commands == old(commands) + [ToggleBody(relayIndex, isOn)] && !isLoading
      ensures mode == Manual && invokeError.None? ==> toasts == old(toasts) + [CommandSentToast(relayIndex, isOn)]
      ensures mode == Manual && invokeError.Some? ==> toasts == old(toasts) + [CommandFailedToast(invokeError.value)]
    {
      if mode != Manual {
        toasts := toasts + [WrongModeBadgeToast];
        return;
      }
      HandleToggle(mode, isOn, invokeError);
    }

    /** `handleSaveName`: refuses a name that is blank after trimming; otherwise stores the name as
        typed (untrimmed) on this relay's row and, on success, leaves editing and refreshes the list. */
    method HandleSaveName(updateError: bool)
      modifies this`isEditingName, this`toasts, this`nameUpdates, this`refreshes
      ensures Blank(newName) ==>
        nameUpdates == old(nameUpdates) && isEditingName == old(isEditingName) && refreshes == old(refreshes) &&
        toasts == old(toasts) + [EmptyNameToast]
      ensures !Blank(newName) ==> nameUpdates == old(nameUpdates) + [(relayIndex, newName)]
      ensures !Blank(newName) && !updateError ==>
        !isEditingName && refreshes == old(refreshes) + 1 && toasts == old(toasts) + [NameSavedToast]
      ensures !Blank(newName) && updateError ==>
        isEditingName == old(isEditingName) && refreshes == old(refreshes) && toasts == old(toasts) + [NameFailedToast]
    {
      if Blank(newName) {
        toasts := toasts + [EmptyNameToast];
        return;
      }
      nameUpdates := nameUpdates + [(relayIndex, newName)];
      if updateError {
        toasts := toasts + [NameFailedToast];
        return;
      }
      toasts := toasts + [NameSavedToast];
      isEditingName := false;
      refreshes := refreshes + 1;
    }
  }

  /** No mode of the generated `relay_mode` enum is "manual": a card whose mode comes from the
      database never sends a command. */
  lemma SchemaModesNeverToggle(mode: string)
    requires mode in SchemaRelayModes
    ensures mode != Manual && !BadgeClickable(mode)
  {
  }
}
