/** The tables the edge functions write, held by one `Database` object whose methods are the
    inserts and updates the functions issue through the Supabase client. */
module Store {
  import opened Wrappers
  import opened Json
  import opened Insights

  /** A `readings` row as the collector inserts it: the request's values are copied unchanged. */
  datatype ReadingInsert = ReadingInsert(ph: Json, ec: Json, airTemp: Json, humidity: Json, waterTemp: Json)

  /** A `readings` row as a query returns it (numeric columns, timestamp in milliseconds). */
  datatype Reading = Reading(timestamp: int, ph: real, ec: real, airTemp: real, humidity: real, waterTemp: real)

  /** The text of an `event_logs` row, kept as the values it interpolates. */
  datatype LogMessage =
    | InvalidDataReceived(data: Json)          // "Dados inválidos recebidos: <JSON of data>"
    | ReadingInsertFailed(reason: string)      // "Erro ao inserir leitura: <message>"
    | ReadingProcessed(ph: Json, ec: Json)     // "Leitura processada: pH <ph>, EC <ec>"
    | CommandRegistered(relayIndex: Json, switchOn: bool)  // "Comando registrado: Relé <i> - LIGAR|DESLIGAR"
    | PingRequested                            // "Ping MQTT solicitado via dashboard"

  datatype EventLog = EventLog(kind: string, message: LogMessage)

  /** A `relay_commands` row: the queue of commands for the relays (relay index -1 is a ping). */
  datatype RelayCommand = RelayCommand(id: int, relayIndex: Json, command: Json, executed: bool)

  /** An error returned by the database client: a plain object carrying a message. */
  datatype DbError = DbError(message: string)

  datatype ProcessingStatus = Pending | Processing | Completed | Failed

  /** The columns of a `knowledge_base` row the processing function writes. */
  datatype KnowledgeEntry = KnowledgeEntry(
    status: ProcessingStatus,
    processedContent: Option<string>,
    summary: Option<Json>,
    wordCount: Option<nat>,
    processingError: Option<string>)

  /** A `knowledge_embeddings` row. */
  datatype EmbeddingRow = EmbeddingRow(
    knowledgeId: Json,
    chunkText: string,
    chunkIndex: nat,
    embedding: seq<real>,
    tokenCount: nat,
    startPosition: int,
    endPosition: int)

  /** The insight rows with every row made inactive. */
  function Deactivated(rows: seq<InsightRow>): (r: seq<InsightRow>)
    ensures |r| == |rows|
    ensures forall i :: 0 <= i < |rows| ==> r[i] == rows[i].(isActive := false)
  {
    seq(|rows|, i requires 0 <= i < |rows| => rows[i].(isActive := false))
  }

  class Database {
    var readings: seq<ReadingInsert>
    var eventLogs: seq<EventLog>
    var relayCommands: seq<RelayCommand>
    /** The value the serial `id` column of `relay_commands` hands out next. */
    var nextCommandId: int
    var insights: seq<InsightRow>
    var analysisHistory: seq<HistoryRow>
    var knowledgeBase: map<Json, KnowledgeEntry>
    var embeddings: seq<EmbeddingRow>

    /** Command ids are handed out in increasing order, so they are unique. */
    ghost predicate Valid()
      reads this
    {
      (forall i :: 0 <= i < |relayCommands| ==> relayCommands[i].id < nextCommandId) &&
      (forall i, j :: 0 <= i < j < |relayCommands| ==> relayCommands[i].id < relayCommands[j].id)
    }

    constructor ()
      ensures Valid()
      ensures readings == [] && eventLogs == [] && relayCommands == [] && insights == []
      ensures analysisHistory == [] && knowledgeBase == map[] && embeddings == []
    {
      readings, eventLogs, relayCommands, nextCommandId := [], [], [], 1;
      insights, analysisHistory, knowledgeBase, embeddings := [], [], map[], [];
    }

    method InsertReading(r: ReadingInsert)
      modifies this`readings
      ensures readings == old(readings) + [r]
    {
      readings := readings + [r];
    }

    method InsertEventLog(e: EventLog)
      modifies this`eventLogs
      ensures eventLogs == old(eventLogs) + [e]
    {
      eventLogs := eventLogs + [e];
    }

    /** `insert({relay_index, command, executed: false}).select().single()`: returns the new row's id. */
    method InsertRelayCommand(relayIndex: Json, command: Json) returns (id: int)
      requires Valid()
      modifies this`relayCommands, this`nextCommandId
      ensures Valid()
      ensures id == old(nextCommandId)
      ensures relayCommands == old(relayCommands) + [RelayCommand(id, relayIndex, command, false)]
      ensures forall i :: 0 <= i < |old(relayCommands)| ==> old(relayCommands)[i].id != id
    {
      id := nextCommandId;
      relayCommands := relayCommands + [RelayCommand(id, relayIndex, command, false)];
      nextCommandId := nextCommandId + 1;
    }

    /** `update({is_active: false}).eq('is_active', true)`: every row ends up inactive, nothing else changes. */
    method DeactivateInsights()
      modifies this`insights
      ensures insights == Deactivated(old(insights))
    {
      var i := 0;
      while i < |insights|
        invariant 0 <= i <= |insights| == |old(insights)|
        invariant forall k :: 0 <= k < i ==> insights[k] == old(insights)[k].(isActive := false)
        invariant forall k :: i <= k < |insights| ==> insights[k] == old(insights)[k]
      {
        insights := insights[i := insights[i].(isActive := false)];
        i := i + 1;
      }
    }

    method InsertInsights(rows: seq<InsightRow>)
      modifies this`insights
      ensures insights == old(insights) + rows
    {
      insights := insights + rows;
    }

    method InsertHistory(row: HistoryRow)
      modifies this`analysisHistory
      ensures analysisHistory == old(analysisHistory) + [row]
    {
      analysisHistory := analysisHistory + [row];
    }

    /** `update(...).eq('id', id)` on `knowledge_base`: rewrites the row with that id, if there is one. */
    method UpdateKnowledge(id: Json, f: KnowledgeEntry -> KnowledgeEntry)
      modifies this`knowledgeBase
      ensures id in old(knowledgeBase) ==> knowledgeBase == old(knowledgeBase)[id := f(old(knowledgeBase)[id])]
      ensures id !in old(knowledgeBase) ==> knowledgeBase == old(knowledgeBase)
    {
      if id in knowledgeBase {
        knowledgeBase := knowledgeBase[id := f(knowledgeBase[id])];
      }
    }

    method InsertEmbeddings(rows: seq<EmbeddingRow>)
      modifies this`embeddings
      ensures embeddings == old(embeddings) + rows
    {
      embeddings := embeddings + rows;
    }
  }
}
