# AquaSys Nexus — a verified model of the hydroponics monitor's core

AquaSys Nexus watches a hydroponic grow: ESP32 modules publish sensor readings and relay states over
MQTT, a Python bridge forwards them to Supabase edge functions, and a React dashboard shows readings,
alerts, relays, plants and a knowledge base. This project models that system's logic in Dafny and
proves what each piece promises:

- **The device-message path** (`bridge.dfy`): the topic router of `mqtt-bridge/bridge.py`, the
  `{action, data}` envelope, the "success iff HTTP 200" rule and the connect-failure exit of `main`.
  The paho client is a class whose subscriptions, callbacks and loop are fields.
- **The edge functions**. Each handler is a method over a `Database` class (`store.dfy`). The class
  holds the tables the handlers append to or update: `readings`, `event_logs`, `relay_commands`,
  `ai_insights`, `ai_analysis_history` (the field `analysisHistory`), `knowledge_base` and
  `knowledge_embeddings`. The tables the handlers only read, such as `cultivation_contexts`, are
  not fields: what a query on them returns is a parameter of the handler.
  - The collector: `collector.dfy`.
  - relay-control and mqtt-ping: `relay_control.dfy` and `mqtt_ping.dfy`.
  - The CSV export: `export_readings.dfy`.
  - The knowledge chunker, the 32-bit string hash and the synthetic embedding: `process_knowledge.dfy`.
  - The two AI-analytics handlers: `analytics.dfy`, `ai_analytics.dfy` and `ai_analytics_enhanced.dfy`,
    with the statistics they share in `insights.dfy`.
  - HTTP responses and their statuses: `http.dfy`. A JSON value model with JavaScript truthiness:
    `json.dfy`.
- **The client hooks**: `useMqtt` (`use_mqtt.dfy`) and `useBluetoothLE` (`use_bluetooth_le.dfy`).
  Each is a class whose fields are the hook's state and whose methods are its handlers and event
  callbacks.
- **The domain rules in the UI**: each component is a module. Pure classifiers are functions.
  Handlers that change a component's state are methods on a class holding that state. Toasts,
  inserted rows and published messages are recorded in sequences, so the contracts can state exactly
  what each handler emits.
  - Relays: `relay_controls.dfy`, `relay_card.dfy`, `relay_config_dialog.dfy`.
  - The dashboard: `ph_control_panel.dfy`, `alerts_panel.dfy`, `dashboard_stats.dfy` and
    `sensor_history_chart.dfy`.
  - Wi-Fi and Bluetooth: `esp32_wifi_manager.dfy` and `bluetooth_device_list.dfy`.
  - The knowledge dialogs: `knowledge_forms.dfy`, `upload_knowledge_dialog.dfy` and
    `add_article_dialog.dfy`.
  - Plants and the forum: `create_plant_dialog.dfy`, `create_post_dialog.dfy`, `plants_page.dfy`,
    `plant_details.dfy`, and the database enums in `plant_schema.dfy`.
- **Shared helpers**:
  - `strings.dfy`: JavaScript's `trim`, `split`, `join`, `indexOf`, `replace` and `/\s+/`
    splitting, each proved against its meaning.
  - `wrappers.dfy`: `Option` and `Result`.
  - `toasts.dfy`: notifications.
  - `accounts.dfy`: the signed-in guard.

How the model treats the outside world:

- Everything outside the program is a parameter: HTTP statuses, database errors, parsed AI replies,
  BLE call outcomes, the clock and locale formatting.
- Strings are sequences of Unicode scalar values, one `char` each; text outside the Basic Multilingual Plane, which JavaScript holds as two UTF-16 code units, is not modelled.
- Sensor values and statistics are `real`s.
- The integer arithmetic of the hash and the seed loop is written out with its 32-bit wrap-around.
- JavaScript's `||`, `!x` and optional chaining are modelled with explicit truthiness. For example, a
  reading of 0 counts as missing where the source tests `!value`.

One cross-file fact is proved: the bridge only ever sends the actions `process_sensors` and
`process_relay_status`, and the collector accepts only `process`. So every bridged message ends in
the collector's 400 branch and no reading is ever stored from the bridge
(`Collector.BridgedMessagesRejected`).

## Model

| member | source | states |
|---|---|---|
| Bridge.ActionFor | mqtt-bridge/bridge.py:36-40 | the sensors topic maps to `process_sensors`, the relay-status topic to `process_relay_status`, and any other topic to no action, each as an if-and-only-if |
| Bridge.Envelope | mqtt-bridge/bridge.py:47-50 | the forwarded body has exactly the keys `action` and `data`, and `data` is the decoded payload unmodified |
| Bridge.SendToEdgeFunction | mqtt-bridge/bridge.py:45-65 | one POST of the envelope to the collector URL, as JSON, with a 10 s timeout; delivered iff the status is 200, and a raised transport error is reported, never propagated |
| Bridge.OnMessage | mqtt-bridge/bridge.py:30-43 | a message is forwarded iff its payload decodes and its topic is one of the two; the forward carries the topic's action and the payload |
| Bridge.ForwardedActions | mqtt-bridge/bridge.py:36-40 | every envelope the bridge sends has action `process_sensors` or `process_relay_status`, never `process` |
| Bridge.MqttClient.OnConnect | mqtt-bridge/bridge.py:20-28 | return code 0 subscribes to exactly the sensors and relay-status topics, in that order; any other code subscribes to nothing |
| Bridge.RunBridge | mqtt-bridge/bridge.py:67-90 | the client gets the credentials, TLS and both callbacks, connects with keepalive 60, and enters the receive loop iff `connect` did not raise |
| Collector.Collect | supabase/functions/mqtt-collector/index.ts:19-85 | a reading is inserted iff the action is `process`, all five fields are truthy and the insert succeeds; status 200 iff a reading was stored; a stored reading is answered "Leitura processada com sucesso" with one `reading_received` log holding its pH and EC; other actions get 400 "Ação inválida" with no log; a `process` request whose `data` is null or missing throws (500); one whose `data` lacks a truthy field gets 400 "Dados inválidos" with exactly one `validation_error` log; an insert error gives 500 with a `database_error` log; at most one log per request |
| Collector.ZeroReadingRejected | supabase/functions/mqtt-collector/index.ts:23-34 | a value of 0 in any required field is treated as missing: 400, one `validation_error` log, no reading |
| Collector.BridgedMessagesRejected | supabase/functions/mqtt-collector/index.ts:21-75 | every envelope the bridge forwards takes the invalid-action branch: 400 and no write at all |
| Collector.Serve | supabase/functions/mqtt-collector/index.ts:9-87 | the database after a request holds exactly the reading and logs `Collect` decides, appended after the old rows, and the response is `Collect`'s |
| RelayControl.Register | supabase/functions/relay-control/index.ts:19-69 | a command is queued iff the body parses as a non-null value with both `relay_index` and `command` present and non-null (the columns are NOT NULL) and the insert succeeds, and then exactly those two values are queued; status 200 iff queued, with the new id in the body and one `relay_command` log; a missing member gives 400 "relay_index e command são obrigatórios"; nothing is logged unless queued |
| RelayControl.FalsyValuesQueued | supabase/functions/relay-control/index.ts:22-42 | the presence test only rejects missing members: relay 0 with command `false` is queued, while a body with both members null passes the test and is refused by the NOT NULL columns with 500 "Erro desconhecido", whatever else the database would answer |
| RelayControl.Serve | supabase/functions/relay-control/index.ts:14-71 | the handler against the database: the response is `Register`'s, the logs are appended, and the queued command is stored unexecuted under the id the response returns |
| MqttPing.Ping | supabase/functions/mqtt-ping/index.ts:20-67 | status 200 iff the insert succeeds, with `success: true` and the new command's id; an insert error gives 500 with that error's message |
| MqttPing.Serve | supabase/functions/mqtt-ping/index.ts:18-69 | a successful ping stores the command relay -1 / `true`, unexecuted, under the returned id, and one `mqtt_ping` log; a failed insert writes nothing |
| Store.Deactivated | supabase/functions/ai-analytics/index.ts:159-163 | the update `is_active = false where is_active`: every row is kept, in order, with only its active flag cleared |
| Store.Database.InsertReading | supabase/functions/mqtt-collector/index.ts:38-47 | the `readings` table gains exactly the new row at its end |
| Store.Database.InsertEventLog | supabase/functions/mqtt-collector/index.ts:26-33 | the `event_logs` table gains exactly the new row at its end |
| Store.Database.InsertRelayCommand | supabase/functions/relay-control/index.ts:30-38 | the new command is appended under a fresh id, different from every id already in `relay_commands`, and that id is returned (`.select().single()`) |
| Store.Database.DeactivateInsights | supabase/functions/ai-analytics/index.ts:159-163 | a loop over the table leaves it equal to `Deactivated` of the old one |
| Store.Database.InsertInsights | supabase/functions/ai-analytics/index.ts:176-178 | the new insight rows are appended in order, the old rows kept |
| Store.Database.InsertHistory | supabase/functions/ai-analytics-enhanced/index.ts:191-203 | the `ai_analysis_history` table gains exactly the new row at its end |
| Store.Database.UpdateKnowledge | supabase/functions/process-knowledge/index.ts:26-29 | an update by id changes only that entry, and changes nothing when no entry has the id |
| Store.Database.InsertEmbeddings | supabase/functions/process-knowledge/index.ts:86-88 | the embedding rows are appended in order, the old rows kept |
| ProcessKnowledge.EstimateIsCeiling | supabase/functions/process-knowledge/index.ts:201-204 | the token estimate is the ceiling of a quarter of the length: four times it covers the text, and one less would not |
| ProcessKnowledge.EstimateTokenCount | supabase/functions/process-knowledge/index.ts:201-204 | `Math.ceil(text.length / 4)` on a non-negative length, written as `(length + 3) / 4`; `EstimateIsCeiling` proves it is that ceiling |
| ProcessKnowledge.Group | supabase/functions/process-knowledge/index.ts:180-197 | the greedy loop of `splitIntoChunks` as recursion over the remaining words, carrying the current chunk and its token sum; what it yields is stated by `GroupFlattens`, `GroupNonEmpty`, `GroupWithinLimit` and `GroupGreedy` |
| ProcessKnowledge.Chunks | supabase/functions/process-knowledge/index.ts:178-197 | the grouping started with an empty chunk and 0 tokens; `SplitIntoChunks` proves the loop computes it and `ChunkingProperties` states its properties |
| ProcessKnowledge.GroupFlattens | supabase/functions/process-knowledge/index.ts:180-197 | the greedy grouping loses, duplicates and reorders no word: the groups concatenate to the pending words followed by the input |
| ProcessKnowledge.GroupNonEmpty | supabase/functions/process-knowledge/index.ts:183-195 | no chunk is empty: a chunk is pushed only when it holds a word |
| ProcessKnowledge.GroupWithinLimit | supabase/functions/process-knowledge/index.ts:181-190 | every chunk is within the token limit unless it is a single word over the limit by itself |
| ProcessKnowledge.GroupGreedy | supabase/functions/process-knowledge/index.ts:183-186 | chunks are as full as the rule allows: each chunk plus the first word of the next is over the limit |
| ProcessKnowledge.JoinEach | supabase/functions/process-knowledge/index.ts:184-194 | one chunk text per word group, each the group joined with single spaces |
| ProcessKnowledge.SplitIntoChunks | supabase/functions/process-knowledge/index.ts:174-198 | the loop yields exactly the joined greedy groups of the whitespace-split words |
| ProcessKnowledge.ChunkingProperties | supabase/functions/process-knowledge/index.ts:174-198 | for any document: at least one chunk, words kept in order, no empty chunk, each within the limit unless one over-long word, each as full as allowed |
| ProcessKnowledge.ToInt32 | supabase/functions/process-knowledge/index.ts:229-230 | the 32-bit wrap-around of `<<` and `&`: the unique value in [-2^31, 2^31) congruent to its input modulo 2^32 |
| ProcessKnowledge.HashFold | supabase/functions/process-knowledge/index.ts:225-233 | the 32-bit string hash stays within the signed 32-bit range |
| ProcessKnowledge.HashStep | supabase/functions/process-knowledge/index.ts:229-230 | one loop step, `((h << 5) - h) + c` then `h & h`, is the wrapped `31 * h + c` |
| ProcessKnowledge.HashString | supabase/functions/process-knowledge/index.ts:225-233 | the loop computes the absolute value of the 32-bit hash of the code units, a value in [0, 2^31] |
| ProcessKnowledge.InitialSeed | supabase/functions/process-knowledge/index.ts:210 | the seed is the hash's absolute value, never negative, so the later `%` behaves as Dafny's |
| ProcessKnowledge.SeedAfter | supabase/functions/process-knowledge/index.ts:214 | after at least one linear congruential step the seed lies in [0, 233280) |
| ProcessKnowledge.RawEmbedding | supabase/functions/process-knowledge/index.ts:208-217 | the vector before normalisation has exactly 1536 components |
| ProcessKnowledge.RawEmbeddingInRange | supabase/functions/process-knowledge/index.ts:215-216 | every raw component lies in [-1, 1), as the source's comment promises |
| ProcessKnowledge.RawEmbeddingNonZero | supabase/functions/process-knowledge/index.ts:214-220 | the first two raw components are never both 0, so the sum of squares under the magnitude has a non-zero term |
| ProcessKnowledge.ComponentZero | supabase/functions/process-knowledge/index.ts:215-216 | a component is 0 exactly for the seed 116640 |
| ProcessKnowledge.GenerateRawEmbedding | supabase/functions/process-knowledge/index.ts:208-217 | the loop fills the vector with component i taken from the seed after i + 1 steps |
| ProcessKnowledge.Normalize | supabase/functions/process-knowledge/index.ts:221 | the same number of components, each the input divided by the magnitude |
| ProcessKnowledge.SumSquaresScaled | supabase/functions/process-knowledge/index.ts:220-221 | dividing by m divides the sum of squares by m * m, so dividing by the square root of the sum of squares gives a unit vector |
| ProcessKnowledge.EmbeddingOf | supabase/functions/process-knowledge/index.ts:72-222 | every stored embedding has 1536 components |
| ProcessKnowledge.EmbeddingRowFor | supabase/functions/process-knowledge/index.ts:74-82 | the row for chunk i carries the id, the chunk, i, its embedding and token estimate; its start is the first index where the content contains the chunk, or -1 iff it never does; its end is start plus the chunk's length |
| ProcessKnowledge.StartPositionMissing | supabase/functions/process-knowledge/index.ts:80-184 | the content "a  b" gives the single chunk "a b", which the content does not contain, so its start position is stored as -1 |
| ProcessKnowledge.BuildEmbeddingRows | supabase/functions/process-knowledge/index.ts:38-83 | the loop fails iff some chunk's AI request is not ok, and then with the error for the first such status; otherwise one row per chunk, in order |
| ProcessKnowledge.FirstNotOk | supabase/functions/process-knowledge/index.ts:38-68 | the first chunk whose AI request is not ok, or none iff all are ok |
| ProcessKnowledge.AllRows | supabase/functions/process-knowledge/index.ts:36-83 | one row per chunk of the content, row j being chunk j's row |
| ProcessKnowledge.Try | supabase/functions/process-knowledge/index.ts:31-142 | the `try` block succeeds iff every embedding request is ok, the insert succeeds, the summary is read and the completion update succeeds, and then returns the summary; it stores either nothing or all the rows, and nothing iff it stops before the insert |
| ProcessKnowledge.ResponseOf | supabase/functions/process-knowledge/index.ts:21-169 | the response is 200 or 500, 200 iff the body was read with a text `content` and the `try` block succeeded, with `success`, the chunk count and the summary |
| ProcessKnowledge.AfterProcessingUpdate | supabase/functions/process-knowledge/index.ts:25-29 | the 'processing' update sets the row's status to 'processing' and nothing else; when the update fails, which the handler does not check, the row keeps its status |
| ProcessKnowledge.KnowledgeAfter | supabase/functions/process-knowledge/index.ts:26-160 | only the requested row changes; it ends 'completed' on success and 'failed' otherwise, including a `content` that is not a string (the intended catch) |
| ProcessKnowledge.KnowledgeAfterAsWritten | supabase/functions/process-knowledge/index.ts:147-161 | as written, the second `req.json()` in the catch rejects on the consumed body and after any failure, including a `content` that is not a string, the row keeps the status the 'processing' update left: 'processing', or its old status when that update failed |
| ProcessKnowledge.FailureStatus | supabase/functions/process-knowledge/index.ts:144-169 | on any failure after the body was read the row stays 'processing' as written (its old status if the 'processing' update failed too), while the corrected catch records 'failed' with the message the response carries |
| ProcessKnowledge.NonTextContent | supabase/functions/process-knowledge/index.ts:21-32 | a body such as `{knowledgeId: 7}` whose `content` is not a string: the row is set to 'processing' unless that update fails, splitting the content throws a TypeError, the response is a 500 with its message, and as written the row is left as that update made it while the corrected catch records the message |
| ProcessKnowledge.RateLimitedStaysProcessing | supabase/functions/process-knowledge/index.ts:66-161 | a 429 from the AI gateway gives a 500 "Erro ao gerar embedding: 429" and leaves the row 'processing' as written |
| ProcessKnowledge.ServeAsWritten | supabase/functions/process-knowledge/index.ts:9-171 | the handler as written: the response is `ResponseOf`, the knowledge table `KnowledgeAfterAsWritten`, and the embeddings table gains what `Try` stored |
| ProcessKnowledge.Serve | supabase/functions/process-knowledge/index.ts:9-171 | the handler with the corrected catch: the same response and embeddings, the knowledge table `KnowledgeAfter` |
| ProcessKnowledge.Process | supabase/functions/process-knowledge/index.ts:21-131 | the `try` block against the database fails iff `Try` fails, with the same error, and otherwise returns its summary and rows; the 'processing' update is applied only when it succeeds, and its failure changes neither the response nor the rest of the run |
| ExportReadings.BuildQuery | supabase/functions/export-readings/index.ts:19-33 | readings in ascending time; a lower bound iff `start_date` is present and non-empty, and then exactly it; likewise the upper bound for `end_date` |
| ExportReadings.Cells | supabase/functions/export-readings/index.ts:47-54 | one cell per header column, in the header's order |
| ExportReadings.Fields | supabase/functions/export-readings/index.ts:47-55 | one field per cell, each the cell itself or, in the corrected export, the cell quoted |
| ExportReadings.RowLines | supabase/functions/export-readings/index.ts:46-56 | one line per reading, the i-th line being the i-th reading's cells joined with commas |
| ExportReadings.CsvLines | supabase/functions/export-readings/index.ts:43-56 | the header line first, then one line per reading, in the query's order |
| ExportReadings.BuildCsv | supabase/functions/export-readings/index.ts:43-58 | the loop builds the lines joined with newlines |
| ExportReadings.JoinAvoids | supabase/functions/export-readings/index.ts:55-58 | joining parts that avoid a character with a separator that avoids it gives a text that avoids it |
| ExportReadings.LinesRecovered | supabase/functions/export-readings/index.ts:44-58 | when no rendering holds a newline, splitting the CSV at newlines gives back exactly its lines |
| ExportReadings.HeaderColumns | supabase/functions/export-readings/index.ts:43-44 | the header line splits back into its six column names |
| ExportReadings.RowColumns | supabase/functions/export-readings/index.ts:47-55 | a row whose renderings hold no comma splits back into its six cells |
| ExportReadings.CommaInDateShiftsColumns | supabase/functions/export-readings/index.ts:47-55 | the pt-BR timestamp "19/10/2026, 14:30:00" holds a comma, so the unquoted row splits into seven fields under a six-column header |
| ExportReadings.QuotedText | supabase/functions/export-readings/index.ts:47-55 | reading a quoted field consumes input: what is left is never longer |
| ExportReadings.PlainText | supabase/functions/export-readings/index.ts:47-55 | an unquoted field runs to the next comma or the end |
| ExportReadings.NextField | supabase/functions/export-readings/index.ts:47-55 | reading one field never lengthens the input left |
| ExportReadings.QuotedTextEscape | supabase/functions/export-readings/index.ts:47-55 | reading back an escaped cell and its closing quote gives the cell and the rest of the input |
| ExportReadings.NextFieldQuoted | supabase/functions/export-readings/index.ts:47-55 | a quoted cell reads back as itself, with the input after it left over |
| ExportReadings.QuotedRecordRoundTrip | supabase/functions/export-readings/index.ts:47-55 | any non-empty list of cells, quoted and joined with commas, parses back to the same cells |
| ExportReadings.QuotedRowRoundTrip | supabase/functions/export-readings/index.ts:47-55 | with quoting, every row parses back to its six cells, whatever the renderings contain |
| ExportReadings.Serve | supabase/functions/export-readings/index.ts:9-80 | the query is in ascending time, with a lower bound iff `start_date` is present and non-empty, and then equal to it, and likewise the upper bound for `end_date`; a query error gives a 500 JSON error; otherwise the reply is the CSV attachment named for today's date, holding the header and the readings' lines with their cells joined unquoted, as written |
| ExportReadings.ServeQuoted | supabase/functions/export-readings/index.ts:9-80 | the corrected handler: the same query, with each bound present iff its parameter is non-empty and then equal to it, the same error handling, with every cell quoted, so that each reading's line reads back as exactly its six cells |
| ExportReadings.Export | supabase/functions/export-readings/index.ts:19-79 | the steps both handlers share: the query with its bounds equal to the non-empty parameters, a 500 "Erro desconhecido" JSON error when the query fails (a PostgREST error is not an `Error`), otherwise the attachment named `FileName(today)` holding the CSV lines joined with newlines |
| ExportReadings.FileName | supabase/functions/export-readings/index.ts:66 | the attachment is named "leituras_aquasys_", the date part of the current ISO time, then ".csv"; the handlers' ensures fix the reply's file name to it |
| Insights.MinOf | supabase/functions/ai-analytics-enhanced/index.ts:241 | `Math.min` of a non-empty list is one of its values and at most every value |
| Insights.MaxOf | supabase/functions/ai-analytics-enhanced/index.ts:242 | `Math.max` of a non-empty list is one of its values and at least every value |
| Insights.Mean | supabase/functions/ai-analytics-enhanced/index.ts:240 | the mean times the count is the sum |
| Insights.CalculateStats | supabase/functions/ai-analytics-enhanced/index.ts:237-244 | `current` is the first value, `min` and `max` bound every value, and `avg` is the mean |
| Insights.StatsAttained | supabase/functions/ai-analytics-enhanced/index.ts:241-242 | `min` and `max` are values that occur in the list |
| Insights.SumBounds | supabase/functions/ai-analytics-enhanced/index.ts:240 | a sum of values within [lo, hi] lies within [n lo, n hi] |
| Insights.MeanWithinMinMax | supabase/functions/ai-analytics-enhanced/index.ts:240-242 | any mean lies between the least and the greatest value it averages |
| Insights.AvgWithinRange | supabase/functions/ai-analytics-enhanced/index.ts:237-244 | over exact arithmetic the mean lies between the least and the greatest value |
| Insights.InsightsOf | supabase/functions/ai-analytics/index.ts:139-157 | a reply without a parsable JSON block gives the single fallback insight, a `recommendation` of severity `info`; a parsed reply gives its `insights`, or none when that member is missing or falsy (a truthy `insights` that is not a list of objects is the separate `Malformed` outcome) |
| Insights.ToRow | supabase/functions/ai-analytics/index.ts:166-174 | each saved row is active, copies the insight's type, title, description and severity, keeps truthy recommendations or stores [], and carries the statistics as data points |
| Insights.ToRows | supabase/functions/ai-analytics/index.ts:166-174 | one row per insight, in order, each `ToRow` of it |
| Insights.AllRecommendationsAppend | supabase/functions/ai-analytics-enhanced/index.ts:205 | the flattened recommendations of two lists of insights are those of the first followed by those of the second |
| Insights.RecommendationsKept | supabase/functions/ai-analytics-enhanced/index.ts:205 | every insight's recommendations appear as one contiguous run of the flattened list, right after those of the insights before it |
| Analytics.Column | supabase/functions/ai-analytics-enhanced/index.ts:91-95 | one value per reading, in order, each that reading's sensor value |
| Analytics.StatsOfReadings | supabase/functions/ai-analytics/index.ts:22-69 | with the readings newest first, each sensor's `current` is the newest reading's value, `min` and `max` bound every reading, and the mean lies between them |
| Analytics.Deactivate | supabase/functions/ai-analytics/index.ts:159-163 | the deactivation sets every old insight inactive when it succeeds and, its error being ignored, leaves the table as it was when it fails |
| Analytics.SaveInsights | supabase/functions/ai-analytics/index.ts:159-183 | the old insights are deactivated unless that update fails, whose error is ignored; then the new rows are appended unless the insert fails, and the insert's error is thrown |
| Analytics.OnlyNewRowsActive | supabase/functions/ai-analytics/index.ts:159-178 | after a save whose two writes succeed the active insights are exactly the new rows; a failed deactivation leaves the old active ones active beside the new rows; a failed insert adds none |
| Analytics.RunAnalysis | supabase/functions/ai-analytics/index.ts:21-201 | a readings error gives 500 and no AI call; no readings give the "not enough data" message; the AI is called iff there are readings; a non-ok AI status gives 500 "AI API error: status"; the deactivation is issued iff the AI reply is read; a reply whose `insights` is truthy but not a list of objects makes `map` throw a TypeError after the deactivation, so 500 and nothing saved; otherwise the new rows are the reply's insights with the statistics; status 200 iff no data, or the reply was usable and the insert succeeded |
| Analytics.MalformedLeavesNoneActive | supabase/functions/ai-analytics/index.ts:159-166 | a malformed `insights` answers 500 with the TypeError's message after the old insights were deactivated, so no insight is left active |
| Analytics.FallbackSaved | supabase/functions/ai-analytics/index.ts:148-178 | an AI reply without a usable JSON block still completes, with exactly one active insight: the fallback, carrying the statistics |
| Analytics.RunAgainst | supabase/functions/ai-analytics/index.ts:21-193 | the shared steps against the database return `RunAnalysis`'s run, and the insights table changes only when the run issued the deactivation, and then by the outcome of the deactivation and of the insert |
| AiAnalytics.Serve | supabase/functions/ai-analytics/index.ts:9-205 | the response is the run's; on every path the insights table is unchanged unless the run issued the deactivation, and otherwise is the old rows (inactive unless the deactivation failed) followed by the saved rows, so a malformed reply or a failed insert leaves the old rows deactivated and nothing new; no readings leave the insights untouched; a 200 after an analysis leaves the old insights inactive (unchanged, when the deactivation failed) followed by one active row per insight, and reports their count |
| AiAnalyticsEnhanced.BuildKnowledgeQuery | supabase/functions/ai-analytics-enhanced/index.ts:341-353 | the species name and the stage, each only when present, joined with one space; "" when neither is |
| AiAnalyticsEnhanced.Read | supabase/functions/ai-analytics-enhanced/index.ts:103-107 | a column the query did not select reads as undefined; a selected one reads as its value |
| AiAnalyticsEnhanced.SourcesUsed | supabase/functions/ai-analytics-enhanced/index.ts:203 | one entry per knowledge row, each its `id` as the query selected it; [] when the query returned nothing |
| AiAnalyticsEnhanced.SourcesAsWrittenAreNull | supabase/functions/ai-analytics-enhanced/index.ts:105-203 | as written the query selects no `id`, so every knowledge source recorded is null |
| AiAnalyticsEnhanced.SourcesWithIdAreIds | supabase/functions/ai-analytics-enhanced/index.ts:105-203 | with `id` selected, the sources recorded are exactly the knowledge rows' ids, in order |
| AiAnalyticsEnhanced.HistoryOf | supabase/functions/ai-analytics-enhanced/index.ts:194-208 | the history row holds the plant, the context's id, the statistics, the species, stage and stage parameters, one null knowledge source per knowledge row (the query selects no `id`), the insights, all their recommendations and the confidence 0.85 |
| AiAnalyticsEnhanced.CorrectedHistoryOf | supabase/functions/ai-analytics-enhanced/index.ts:103-208 | the corrected history row: the same fields, with the knowledge sources being the knowledge rows' ids in order |
| AiAnalyticsEnhanced.ResponseOf | supabase/functions/ai-analytics-enhanced/index.ts:213-221 | a run that does not complete answers as the plain function; a completed one answers 200 with the message, the insight count and `context_used` true iff a context with a species profile was found |
| AiAnalyticsEnhanced.HistoryRows | supabase/functions/ai-analytics-enhanced/index.ts:190-209 | at most one history row, appended iff the run completed for a truthy `plantId` whose context exists and the history insert succeeds, and then the as-written `HistoryOf` row with its null knowledge sources |
| AiAnalyticsEnhanced.Conclude | supabase/functions/ai-analytics-enhanced/index.ts:98-221 | after the shared steps the response is `ResponseOf` whatever the history insert's outcome, whose error is ignored, and the history table gains exactly `HistoryRows`, the row as written |
| AiAnalyticsEnhanced.Serve | supabase/functions/ai-analytics-enhanced/index.ts:9-233 | an unreadable or null body gives 500 and writes nothing; otherwise the response, the insights and the history are those of the run for the body's `plantId` and the outcomes of the three writes |
| AiAnalyticsEnhanced.HistoryWritten | supabase/functions/ai-analytics-enhanced/index.ts:74-209 | a history row is appended iff `plantId` is truthy, its context exists, readings were found, the AI answered ok with a usable reply, the insights insert succeeded and the history insert succeeded |
| Http.CaughtMessage | supabase/functions/relay-control/index.ts:61-69 | the catch blocks report an `Error`'s own message and "Erro desconhecido" for any other thrown value |
| Http.Caught | supabase/functions/relay-control/index.ts:61-69 | whatever reaches a catch block is answered with status 500 |
| Json.Obj1 | supabase/functions/relay-control/index.ts:24 | a one-member object literal has exactly that key, holding that value |
| Json.Prop | supabase/functions/relay-control/index.ts:19 | destructuring a member of a non-null body gives a value iff the body is an object with that key, and then that key's value; anything else is `undefined` |
| Json.NumOrZero | supabase/functions/mqtt-collector/index.ts:23 | a non-zero result comes from a truthy number and equals it; a truthy number gives itself |
| Strings.TrimStart | src/components/community/CreatePostDialog.tsx:36 | `trim`'s leading half never lengthens the text |
| Strings.TrimStartIsSuffix | src/components/community/CreatePostDialog.tsx:36 | what remains after the leading whitespace is a suffix of the text, everything cut is whitespace, and it does not start with whitespace |
| Strings.TrimEnd | src/components/community/CreatePostDialog.tsx:36 | `trim`'s trailing half never lengthens the text |
| Strings.TrimEndIsPrefix | src/components/community/CreatePostDialog.tsx:36 | what remains after the trailing whitespace is a prefix of the text, everything cut is whitespace, and it does not end with whitespace |
| Strings.TrimIsSlice | src/components/community/CreatePostDialog.tsx:36-53 | `trim` gives a slice of the text with only whitespace cut on either side, and with no whitespace at either end |
| Strings.TrimEmptyIff | src/components/community/CreatePostDialog.tsx:36 | `!s.trim()` holds exactly for texts of whitespace only, the empty text included |
| Strings.TrimIdempotent | src/components/plants/CreatePlantDialog.tsx:79-88 | trimming twice is trimming once |
| Strings.SplitHead | src/components/plants/CreatePlantDialog.tsx:84 | the first piece of `split` is a prefix of the text that ends at its end or at the first separator |
| Strings.Split | src/components/knowledge/AddArticleDialog.tsx:42 | `split` on one character gives at least one piece, none holding the separator |
| Strings.JoinSplit | src/components/knowledge/AddArticleDialog.tsx:42 | joining the pieces of a split with the separator gives back the text |
| Strings.SplitAfterPiece | src/components/knowledge/AddArticleDialog.tsx:42 | splitting a separator-free piece, the separator and a rest gives the piece followed by the rest's pieces |
| Strings.SplitNoSeparator | src/components/knowledge/AddArticleDialog.tsx:42 | a text without the separator splits into itself |
| Strings.SplitJoin | supabase/functions/export-readings/index.ts:44-55 | separator-free parts, joined with the separator, split back into the same parts |
| Strings.SplitWhitespace | supabase/functions/process-knowledge/index.ts:175 | `split(/\s+/)` gives at least one piece, and no piece holds whitespace |
| Strings.SplitWhitespaceRebuilds | supabase/functions/process-knowledge/index.ts:175 | `split(/\s+/)` loses nothing: putting the maximal whitespace runs back between the pieces rebuilds the text; each run is non-empty whitespace, each inner piece is non-empty, and the first piece is empty iff the text is empty or starts with whitespace |
| Strings.SplitSpaceStep | supabase/functions/process-knowledge/index.ts:175 | for text starting with whitespace, the leading run is cut out whole and the pieces and runs still rebuild the text |
| Strings.SplitSpacePieces | supabase/functions/process-knowledge/index.ts:175 | for text starting with whitespace, every cut-out run is non-empty whitespace and every inner piece is non-empty |
| Strings.IndexFrom | supabase/functions/process-knowledge/index.ts:80 | the first position at or after `from` where the text contains the pattern, or -1 iff there is none |
| Strings.IndexOf | supabase/functions/process-knowledge/index.ts:80-81 | `indexOf`: the first position where the text contains the pattern, or -1 iff it never does |
| Strings.ReplaceFirst | src/components/knowledge/UploadKnowledgeDialog.tsx:41 | `replace` with a text pattern: unchanged when the pattern is absent, otherwise the first occurrence replaced and the rest kept |
| Strings.NatToString | supabase/functions/ai-analytics/index.ts:130 | the decimal rendering of a number is a non-empty string of digits |
| Strings.ParseNatToString | supabase/functions/ai-analytics/index.ts:130 | reading a rendered number's digits back gives the number |
| UseMqtt.PayloadText | src/hooks/useMqtt.tsx:118 | a text message is published as is; any other value as its JSON text |
| UseMqtt.RelayCommandMessage | src/hooks/useMqtt.tsx:136-140 | the command message has exactly the members `relay_index`, `command` and `timestamp`, holding the relay, the command and the time |
| UseMqtt.MqttHook.constructor | src/hooks/useMqtt.tsx:13-15 | the hook starts disconnected, with no message and no client |
| UseMqtt.MqttHook.Connect | src/hooks/useMqtt.tsx:18-99 | a connected client is kept as it is; otherwise exactly one new, not yet connected client becomes the current one |
| UseMqtt.MqttHook.OnConnect | src/hooks/useMqtt.tsx:36-58 | the `connect` event reports the connection and subscribes to the sensors and relay-status topics with QoS 1; a failed subscription adds only a notification |
| UseMqtt.MqttHook.OnMessage | src/hooks/useMqtt.tsx:60-74 | a payload that parses becomes the last message, with its topic and arrival time; one that does not parse leaves the last message unchanged |
| UseMqtt.MqttHook.OnError | src/hooks/useMqtt.tsx:76-83 | a client error adds exactly one "Erro de Conexão" notification |
| UseMqtt.MqttHook.OnDisconnect | src/hooks/useMqtt.tsx:85-88 | a `disconnect` event reports no connection |
| UseMqtt.MqttHook.OnOffline | src/hooks/useMqtt.tsx:94-97 | an `offline` event reports no connection, and the client is no longer connected |
| UseMqtt.MqttHook.Disconnect | src/hooks/useMqtt.tsx:102-108 | with a client, ends it exactly once, drops the reference and reports no connection; without one, changes nothing |
| UseMqtt.MqttHook.Publish | src/hooks/useMqtt.tsx:110-132 | without a connected client, rejects with "MQTT não conectado" and publishes nothing; otherwise publishes exactly one message, with its payload text and QoS, and settles with the client's outcome |
| UseMqtt.MqttHook.PublishRelayCommand | src/hooks/useMqtt.tsx:134-158 | publishes the command message on the relay-commands topic with QoS 1; success adds "Comando enviado", failure adds the error notification and is passed on to the caller |
| UseMqtt.ConnectThenPublish | src/hooks/useMqtt.tsx:18-132 | publishing is rejected before the `connect` event, succeeds after it, and is rejected again after `disconnect` |
| UseBluetoothLE.Find | src/hooks/useBluetoothLE.tsx:116-164 | `find` by device id gives a listed result with that id, and none iff no listed result has it |
| UseBluetoothLE.FindUnique | src/hooks/useBluetoothLE.tsx:164 | in a list with unique ids, looking up a listed device's id finds that very result |
| UseBluetoothLE.AddResult | src/hooks/useBluetoothLE.tsx:115-119 | a scan result whose device is already listed changes nothing; a new one is appended; ids stay unique and the device is then listed |
| UseBluetoothLE.Bytes | src/hooks/useBluetoothLE.tsx:214-217 | one byte per character, each the character's code modulo 256 (`setUint8` truncation) |
| UseBluetoothLE.BleHook.constructor | src/hooks/useBluetoothLE.tsx:15-21 | the hook starts not scanning, with no devices, no connected device and no data |
| UseBluetoothLE.BleHook.StartScan | src/hooks/useBluetoothLE.tsx:110-138 | a scan empties the device list; it reports scanning and "Escaneando" unless the plugin fails, and then it reports not scanning and an error |
| UseBluetoothLE.BleHook.OnScanResult | src/hooks/useBluetoothLE.tsx:114-120 | each scan result updates the list as `AddResult` does, keeping ids unique |
| UseBluetoothLE.BleHook.StopScan | src/hooks/useBluetoothLE.tsx:141-148 | the scan is reported stopped unless the plugin fails, which changes nothing |
| UseBluetoothLE.BleHook.Connect | src/hooks/useBluetoothLE.tsx:151-180 | a failed connection only notifies; a connected device in the scan list becomes the connected one, with a notification; one not in the list changes nothing; a newly connected device always has the requested id |
| UseBluetoothLE.BleHook.OnDeviceDisconnected | src/hooks/useBluetoothLE.tsx:153-162 | the callback clears the connected device, with a notification, only for the device it was registered for |
| UseBluetoothLE.BleHook.Disconnect | src/hooks/useBluetoothLE.tsx:183-196 | with a connected device and a plugin success, clears the device and the received data and notifies; otherwise changes nothing |
| UseBluetoothLE.BleHook.WriteData | src/hooks/useBluetoothLE.tsx:199-238 | without a device, only notifies; otherwise the loop fills a buffer of `Bytes(data)`, which is written to the characteristic, and the outcome is notified |
| UseBluetoothLE.BleHook.ReadData | src/hooks/useBluetoothLE.tsx:241-271 | without a device, nothing; a successful read appends the text at the end of the received data and returns it; a failed one only notifies |
| UseBluetoothLE.BleHook.StartNotifications | src/hooks/useBluetoothLE.tsx:274-297 | with a device and a plugin success, subscribes to exactly that characteristic; otherwise nothing |
| UseBluetoothLE.BleHook.OnNotification | src/hooks/useBluetoothLE.tsx:285-292 | each notification appends its text at the end of the received data |
| UseBluetoothLE.ScanListsEachDeviceOnce | src/hooks/useBluetoothLE.tsx:112-120 | after any sequence of scan results the list holds each device once, and every device seen is listed |
| UseBluetoothLE.AddAllUnique | src/hooks/useBluetoothLE.tsx:115-119 | adding any sequence of scan results keeps the ids unique |
| UseBluetoothLE.AddAllFinds | src/hooks/useBluetoothLE.tsx:115-119 | every device in a sequence of scan results is listed afterwards |
| UseBluetoothLE.AddAll | src/hooks/useBluetoothLE.tsx:114-120 | a run of scan results only appends: the old list is a prefix of the new one |
| UseBluetoothLE.AddAllKeeps | src/hooks/useBluetoothLE.tsx:115-119 | a listed device stays listed through further scan results |
| RelayControls.StatusColumn | src/components/dashboard/RelayControls.tsx:123-132 | relays 0 to 7 each read their own column of `relay_status`, and any other index reads none |
| RelayControls.StatusColumnsDistinct | src/components/dashboard/RelayControls.tsx:123-132 | two different relays never read the same status column |
| RelayControls.RelayIsOn | src/components/dashboard/RelayControls.tsx:121-134 | a relay shows on iff a status row is loaded, its index has a column, and that column is truthy in the row |
| RelayControls.DisplayName | src/components/dashboard/RelayControls.tsx:154 | a card shows the configured name when it is non-empty, and "Relé n", counting from 1, otherwise |
| RelayControls.RelayPanel.constructor | src/components/dashboard/RelayControls.tsx:27-29 | the panel starts with no configs and no status |
| RelayControls.RelayPanel.FetchRelayConfigs | src/components/dashboard/RelayControls.tsx:52-64 | a query error keeps the configs shown; otherwise they become the rows returned, or none for a null answer |
| RelayControls.RelayPanel.FetchLatestRelayStatus | src/components/dashboard/RelayControls.tsx:66-80 | an error other than "no rows" keeps the status; otherwise a returned row becomes the status, and no row keeps it |
| RelayControls.RelayPanel.OnStatusInserted | src/components/dashboard/RelayControls.tsx:38-45 | every inserted `relay_status` row becomes the status shown |
| RelayCard.ModeLabel | src/components/dashboard/RelayCard.tsx:117-130 | each of the nine known modes has its Portuguese label; any other mode is shown as its own text |
| RelayCard.ModeLabelsDistinct | src/components/dashboard/RelayCard.tsx:117-130 | different known modes have different labels |
| RelayCard.ToggleBody | src/components/dashboard/RelayCard.tsx:41-46 | the command body has exactly `relay_index` and `command`, the command being the opposite of the current state |
| RelayCard.CommandFailedToast | src/components/dashboard/RelayCard.tsx:59-65 | a failed command is notified destructively, with the `Error`'s message or "Falha ao enviar comando" |
| RelayCard.Card.constructor | src/components/dashboard/RelayCard.tsx:19-21 | the card starts idle, not editing, with the given name in the editor |
| RelayCard.Card.HandleToggle | src/components/dashboard/RelayCard.tsx:24-69 | outside manual mode only the "Modo incorreto" notification; in manual mode exactly one command with the opposite state, the outcome notified, and loading reset |
| RelayCard.Card.HandleBadgeClick | src/components/dashboard/RelayCard.tsx:71-81 | outside manual mode only the shorter "Modo incorreto" notification; in manual mode the same command as a toggle, with the same sent or failed notification and loading reset |
| RelayCard.Card.HandleSaveName | src/components/dashboard/RelayCard.tsx:83-115 | a blank name only notifies; otherwise the name as typed, untrimmed, is written to this relay's row; on success editing ends and the list is refreshed once |
| RelayCard.SchemaModesNeverToggle | src/components/dashboard/RelayCard.tsx:27-170 | no mode of the database's `relay_mode` enum is "manual", so a card showing a stored mode never sends a command and its badge is not clickable |
| RelayConfigDialog.InitialMode | src/components/dashboard/RelayConfigDialog.tsx:37 | the dialog starts with the config's mode when it is truthy, and "unused" otherwise |
| RelayConfigDialog.UpdateRecordAsWritten | src/components/dashboard/RelayConfigDialog.tsx:52-56 | as written every form field overrides the selected mode, and only `updated_at` overrides the form |
| RelayConfigDialog.UpdateRecord | src/components/dashboard/RelayConfigDialog.tsx:52-56 | the intended record: the form's fields, then the selected mode, then `updated_at`, each later one winning |
| RelayConfigDialog.ApplyUpdate | src/components/dashboard/RelayConfigDialog.tsx:60-63 | the rows of this relay take the record's values over their own; every other row is unchanged |
| RelayConfigDialog.ConfigTable.constructor | src/components/dashboard/RelayConfigDialog.tsx:60-63 | the table holds the rows given |
| RelayConfigDialog.Dialog.constructor | src/components/dashboard/RelayConfigDialog.tsx:37-39 | the dialog starts with the initial mode, an empty form, and not saving |
| RelayConfigDialog.Dialog.LoadConfig | src/components/dashboard/RelayConfigDialog.tsx:42-47 | a present config replaces the mode and the whole form data; none changes nothing |
| RelayConfigDialog.Dialog.SelectMode | src/components/dashboard/RelayConfigDialog.tsx:282 | the selector sets the mode to the chosen one |
| RelayConfigDialog.Dialog.SetField | src/components/dashboard/RelayConfigDialog.tsx:102 | a parameter input sets exactly one field of the form |
| RelayConfigDialog.Dialog.HandleSave | src/components/dashboard/RelayConfigDialog.tsx:49-88 | on success this relay's row takes the as-written update record (the form's fields over the selected mode), `onSave` runs once and the dialog closes; on error the table is unchanged and the message is shown; saving ends either way |
| RelayConfigDialog.SelectedModeLostAsWritten | src/components/dashboard/RelayConfigDialog.tsx:44-56 | loading a config in mode "led" and selecting "ec" still saves "led" |
| RelayConfigDialog.SelectedModeSaved | src/components/dashboard/RelayConfigDialog.tsx:52-56 | with the mode applied after the form, the selected mode is the one saved, whatever the loaded form holds |
| PhControlPanel.Reversed | src/components/dashboard/PhControlPanel.tsx:44 | `reverse` keeps the length and puts element i at position n - 1 - i |
| PhControlPanel.PhValues | src/components/dashboard/PhControlPanel.tsx:47 | one pH per reading, in order |
| PhControlPanel.OrDefault | src/components/dashboard/PhControlPanel.tsx:65-80 | JavaScript's or-fallback on a number: a non-zero value is kept; null or 0 gives the fallback |
| PhControlPanel.RangeOf | src/components/dashboard/PhControlPanel.tsx:77-82 | each stored threshold, or its default 5.8 or 6.5 when it is null or 0, through `OrDefault`; `FetchPhData` ensures a found config sets the range to it |
| PhControlPanel.ShowsAlert | src/components/dashboard/PhControlPanel.tsx:174 | the alert's own condition, `phAverage && (below the range || above it)`; `AlertIffOutOfRange` proves it agrees with the badge |
| PhControlPanel.StatusOf | src/components/dashboard/PhControlPanel.tsx:88-97 | unknown iff no mean or a mean of 0; low iff below the range; high iff above it; ideal iff within it, bounds included |
| PhControlPanel.AlertIffOutOfRange | src/components/dashboard/PhControlPanel.tsx:88-175 | the correction alert is shown exactly when the badge says low or high |
| PhControlPanel.PhPanel.constructor | src/components/dashboard/PhControlPanel.tsx:21-24 | the panel starts with no history, no mean, no correction and the range 5.8 to 6.5 |
| PhControlPanel.PhPanel.FetchPhData | src/components/dashboard/PhControlPanel.tsx:32-86 | a readings error changes nothing; otherwise the history becomes the newest 24 readings oldest first and the mean is their sum over their count, a found log becomes the last correction with `ph_average` 0 (the interval runs the first render's closure, whose mean is still null), and found thresholds become the range |
| PhControlPanel.AverageWithinHistory | src/components/dashboard/PhControlPanel.tsx:47-48 | the 24-hour mean lies between the lowest and highest pH of its readings |
| AlertsPanel.TemperatureAlerts | src/components/dashboard/AlertsPanel.tsx:22-35 | one warning iff the air temperature is above 28 or below 20, trending up or down with the value to one decimal |
| AlertsPanel.HumidityAlerts | src/components/dashboard/AlertsPanel.tsx:37-50 | one warning iff the humidity is above 70 or below 50, with its message |
| AlertsPanel.PhAlerts | src/components/dashboard/AlertsPanel.tsx:52-59 | one danger alert iff the pH is above 6.5 or below 5.5, "pH fora do ideal: " with the pH to two decimals, with the alert-circle icon |
| AlertsPanel.EcAlerts | src/components/dashboard/AlertsPanel.tsx:61-68 | one warning iff the EC is above 2.0 or below 1.2, "EC fora do ideal: " with the EC to two decimals and " mS/cm", with the alert-circle icon |
| AlertsPanel.AlertsFor | src/components/dashboard/AlertsPanel.tsx:19-79 | one to four alerts; exactly the all-clear message iff every value is in range; otherwise the fired alerts in the order temperature, humidity, pH, EC, and no all-clear |
| AlertsPanel.Panel.constructor | src/components/dashboard/AlertsPanel.tsx:8 | the panel starts with no alerts |
| AlertsPanel.Panel.FetchLatestReadings | src/components/dashboard/AlertsPanel.tsx:11-81 | no readings keep the alerts; otherwise they become the alerts for the newest reading |
| DashboardStats.StatusColorOf | src/components/dashboard/DashboardStats.tsx:9-13 | destructive iff out of range; warning iff in range and within 2 of a bound; success iff more than 2 inside both bounds |
| DashboardStats.SuccessNeedsWideRange | src/components/dashboard/DashboardStats.tsx:11-45 | success needs a range wider than 4, so the pH card (5.5-6.5) and the EC card (1.2-2.0) can never show success |
| DashboardStats.ValueOrZero | src/components/dashboard/DashboardStats.tsx:21 | a missing value is coloured as 0 |
| DashboardStats.CardColors | src/components/dashboard/DashboardStats.tsx:15-48 | four cards, coloured from temperature 20-28, humidity 50-70, pH 5.5-6.5 and EC 1.2-2.0, in that order |
| DashboardStats.NoReadingIsDestructive | src/components/dashboard/DashboardStats.tsx:21-45 | without a reading every card is coloured destructive, since 0 is outside every range |
| DashboardStats.DisplayValue | src/components/dashboard/DashboardStats.tsx:18 | a missing value shows "--"; a present one shows its fixed-point text |
| SensorHistoryChart.StartOffset | src/components/dashboard/SensorHistoryChart.tsx:51-64 | the series starts one hour, one day, seven days or one calendar month before now, by period |
| SensorHistoryChart.PeriodLabel | src/components/dashboard/SensorHistoryChart.tsx:146-153 | every period has a non-empty label |
| SensorHistoryChart.PeriodLabelsDistinct | src/components/dashboard/SensorHistoryChart.tsx:146-153 | different periods have different labels |
| SensorHistoryChart.WindowSize | src/components/dashboard/SensorHistoryChart.tsx:76 | the window holds five readings, or all readings so far when fewer, and never none |
| SensorHistoryChart.ValuesOrZero | src/components/dashboard/SensorHistoryChart.tsx:78 | a missing value counts as 0 in the average |
| SensorHistoryChart.Window | src/components/dashboard/SensorHistoryChart.tsx:77 | the window is the readings up to and including the current one, of the window's size |
| SensorHistoryChart.MovingAverage | src/components/dashboard/SensorHistoryChart.tsx:75-78 | the average times the window size is the sum of the window's values |
| SensorHistoryChart.Points | src/components/dashboard/SensorHistoryChart.tsx:75-90 | one point per reading, in order, with its formatted time, its raw value and its moving average |
| SensorHistoryChart.ConstantSeriesAverage | src/components/dashboard/SensorHistoryChart.tsx:75-78 | a sensor that reads one value throughout has that value as every moving average |
| SensorHistoryChart.AverageWithinWindow | src/components/dashboard/SensorHistoryChart.tsx:75-78 | every moving average lies between the least and greatest value of its window |
| SensorHistoryChart.Chart.constructor | src/components/dashboard/SensorHistoryChart.tsx:22-24 | the chart starts on the day period, empty and loading |
| SensorHistoryChart.Chart.FetchData | src/components/dashboard/SensorHistoryChart.tsx:45-103 | success replaces the series with the points of the readings (empty for null data); an error keeps the series and adds the failure toast; loading ends either way |
| SensorHistoryChart.Chart.SetPeriod | src/components/dashboard/SensorHistoryChart.tsx:22-43 | choosing a period makes it current; a new period refetches the series as `FetchData` does, while choosing the current one again changes nothing |
| ESP32WifiManager.SignalStrength | src/components/wifi/ESP32WifiManager.tsx:40-45 | excellent iff the RSSI is at least -50; good iff in [-60, -50); fair iff in [-70, -60); weak iff below -70 |
| ESP32WifiManager.SignalColor | src/components/wifi/ESP32WifiManager.tsx:47-51 | default iff the RSSI is at least -60; secondary iff in [-70, -60); destructive iff below -70 |
| ESP32WifiManager.SignalMonotone | src/components/wifi/ESP32WifiManager.tsx:40-51 | a stronger signal never gets a weaker band or colour |
| ESP32WifiManager.ColorFollowsStrength | src/components/wifi/ESP32WifiManager.tsx:40-51 | the badge is default exactly for good and excellent signals and destructive exactly for weak ones |
| ESP32WifiManager.CredentialsMessage | src/components/wifi/ESP32WifiManager.tsx:101-104 | the config message is an object with exactly the keys ssid and password, holding the two strings |
| ESP32WifiManager.ModuleTopic | src/components/wifi/ESP32WifiManager.tsx:64-101 | the topic `esp32/module<n>/wifi/<leaf>`; `HandleRefreshNetwork` and `HandleUpdateWifi` ensure their publications go to its "status" and "config" topics |
| ESP32WifiManager.WifiManager.constructor | src/components/wifi/ESP32WifiManager.tsx:35-38 | all four form fields start empty |
| ESP32WifiManager.WifiManager.HandleRefreshNetwork | src/components/wifi/ESP32WifiManager.tsx:53-76 | without MQTT only the not-connected toast; with a live client a get_status request on `esp32/module{n}/wifi/status`, followed by the "Atualizando status do Módulo n" toast when it is sent and the failure toast when it is not; without a live client nothing is published and the failure toast is added |
| ESP32WifiManager.WifiManager.HandleUpdateWifi | src/components/wifi/ESP32WifiManager.tsx:78-125 | an empty SSID or password, or no MQTT, publishes nothing, notifies and keeps the fields; otherwise the credentials go to `esp32/module{n}/wifi/config` when the client is live; a successful publish clears that module's two fields and adds the "tentará conectar" toast, a failed one adds "Falha ao enviar configuração" and keeps the fields; the other module's fields never change |
| BluetoothDeviceList.SignalStrength | src/components/bluetooth/BluetoothDeviceList.tsx:21-27 | unknown iff the RSSI is missing or 0; otherwise excellent iff above -60, good iff in (-70, -60], regular iff in (-80, -70], weak iff at most -80 |
| BluetoothDeviceList.SignalColor | src/components/bluetooth/BluetoothDeviceList.tsx:29-35 | default for a missing or 0 RSSI; otherwise default iff above -60, secondary iff in (-70, -60], outline iff in (-80, -70], destructive iff at most -80 |
| BluetoothDeviceList.BandsAgree | src/components/bluetooth/BluetoothDeviceList.tsx:21-35 | each strength band has exactly one badge colour, and default is shared only by unknown and excellent |
| BluetoothDeviceList.AtMostOneDisabled | src/components/bluetooth/BluetoothDeviceList.tsx:58-93 | in a scan list with distinct ids at most one connect button is disabled |
| KnowledgeForms.TrimAll | src/components/knowledge/UploadKnowledgeDialog.tsx:62 | every piece is trimmed, one for one and in order |
| KnowledgeForms.TopicsOf | src/components/knowledge/UploadKnowledgeDialog.tsx:62 | empty text gives no topics; otherwise the comma-separated pieces, each trimmed |
| KnowledgeForms.TrimmedPieceClean | src/components/knowledge/AddArticleDialog.tsx:42 | a trimmed comma-free piece has no comma and no whitespace at either end |
| KnowledgeForms.TopicsAreClean | src/components/knowledge/AddArticleDialog.tsx:42 | every stored topic is free of commas and of surrounding whitespace |
| KnowledgeForms.TopicsRoundTrip | src/components/knowledge/UploadKnowledgeDialog.tsx:62 | non-empty text whose pieces have no surrounding whitespace is recovered by joining its topics with commas |
| UploadKnowledgeDialog.TitleFromName | src/components/knowledge/UploadKnowledgeDialog.tsx:41 | the title is the file name with its first ".pdf" removed, or the name itself when it has none |
| UploadKnowledgeDialog.Dialog.constructor | src/components/knowledge/UploadKnowledgeDialog.tsx:20-25 | the dialog starts closed, with no file, an empty title and topics, and the scientific-paper type |
| UploadKnowledgeDialog.Dialog.HandleFileChange | src/components/knowledge/UploadKnowledgeDialog.tsx:28-44 | no file changes nothing; a file that is not a PDF is refused with a toast; a PDF becomes the file and names an empty title |
| UploadKnowledgeDialog.Dialog.Row | src/components/knowledge/UploadKnowledgeDialog.tsx:62-76 | the inserted row carries the form's title, type and topics, the file's text, no source URL and the pending status |
| UploadKnowledgeDialog.Dialog.HandleUpload | src/components/knowledge/UploadKnowledgeDialog.tsx:46-112 | no file or no title inserts nothing; otherwise the row is inserted; on success the processing request follows with the new id and the form closes and resets except its type; on failure the form is kept |
| AddArticleDialog.UrlOrNull | src/components/knowledge/AddArticleDialog.tsx:51 | an empty URL is stored as null, any other as itself |
| AddArticleDialog.ArticleRow | src/components/knowledge/AddArticleDialog.tsx:44-56 | the inserted row carries the title and content as typed, the URL or null, the type, the trimmed topics and the pending status |
| AddArticleDialog.Dialog.constructor | src/components/knowledge/AddArticleDialog.tsx:20-26 | the dialog starts closed with empty fields and the article type |
| AddArticleDialog.Dialog.HandleSave | src/components/knowledge/AddArticleDialog.tsx:29-94 | an empty title or content inserts nothing; otherwise the row is inserted; on success the processing request follows with the new id and the text fields clear; on failure the form is kept |
| CreatePlantDialog.TrimOrNull | src/components/plants/CreatePlantDialog.tsx:80-88 | null iff the text is only whitespace; otherwise the trimmed text |
| CreatePlantDialog.DatePart | src/components/plants/CreatePlantDialog.tsx:84 | no date gives null; otherwise the ISO text up to its first 'T', or null when that part is empty; `DatePartIsPrefix` characterises it |
| CreatePlantDialog.DatePartIsPrefix | src/components/plants/CreatePlantDialog.tsx:84 | the stored date is the non-empty prefix of the ISO text up to its first 'T', and null iff that prefix is empty |
| CreatePlantDialog.TrimOrNullClean | src/components/plants/CreatePlantDialog.tsx:80-88 | an optional field is stored either null or with no whitespace at either end |
| CreatePlantDialog.RowIsClean | src/components/plants/CreatePlantDialog.tsx:63-90 | a row that passes the nickname guard stores a clean nickname and every optional text field null or clean |
| CreatePlantDialog.Row | src/components/plants/CreatePlantDialog.tsx:77-90 | the insert literal: the user, the trimmed nickname, each optional text through `TrimOrNull`, the date part, the origin and the status 'germinating'; `RowIsClean` and `HandleSubmit`'s ensures state what is stored |
| CreatePlantDialog.Dialog.constructor | src/components/plants/CreatePlantDialog.tsx:25-48 | the form starts empty with origin seed and no germination date |
| CreatePlantDialog.Dialog.HandleSubmit | src/components/plants/CreatePlantDialog.tsx:51-124 | no signed-in user, then a blank nickname, insert nothing and notify; otherwise the germinating row is inserted; success resets the form and closes the dialog; an error shows its message and keeps the form |
| CreatePostDialog.PostIsClean | src/components/community/CreatePostDialog.tsx:36-55 | a post that passes the guard is stored with a clean title and content and its anonymity flag |
| CreatePostDialog.Post | src/components/community/CreatePostDialog.tsx:50-55 | the insert literal with the title and content trimmed and the anonymity flag as toggled; `PostIsClean` states what a post passing the guard stores |
| CreatePostDialog.Dialog.constructor | src/components/community/CreatePostDialog.tsx:18-21 | the form starts empty and not anonymous |
| CreatePostDialog.Dialog.HandleSubmit | src/components/community/CreatePostDialog.tsx:24-80 | no signed-in user, then a blank title or content, insert nothing and notify; otherwise the trimmed post is inserted; success clears the form and closes the dialog; an error shows its message and keeps the form |
| PlantsPage.StatusesOf | src/pages/Plants.tsx:57-60 | the user's statuses are never more than the table's rows |
| PlantsPage.Count | src/pages/Plants.tsx:66-67 | a filtered count never exceeds the rows |
| PlantsPage.StatsOf | src/pages/Plants.tsx:64-68 | the three counters: all rows, those germinating, vegetative or flowering, and those harvested; `StatsPartition` and `DiscontinuedCountsOnlyInTotal` state how they relate |
| PlantsPage.CountUnion | src/pages/Plants.tsx:66-67 | counting two disjoint status sets separately is counting their union |
| PlantsPage.CountAppend | src/pages/Plants.tsx:66-67 | counting appended rows adds their count |
| PlantsPage.NullCount | src/pages/Plants.tsx:66-67 | rows with a null status never exceed the rows |
| PlantsPage.AllStatuses | src/pages/Plants.tsx:64-68 | every row has one of the five statuses or none |
| PlantsPage.StatsPartition | src/pages/Plants.tsx:64-68 | active, harvested, discontinued and null rows together make the total, so active plus harvested never exceed it |
| PlantsPage.DiscontinuedCountsOnlyInTotal | src/pages/Plants.tsx:64-68 | a discontinued plant raises the total only |
| PlantsPage.Page.constructor | src/pages/Plants.tsx:17-21 | the counters start at zero |
| PlantsPage.Page.LoadStats | src/pages/Plants.tsx:55-72 | a query error keeps the counters; otherwise they are the total, active and harvested counts of the user's plants |
| PlantsPage.OtherUsersIgnored | src/pages/Plants.tsx:57-60 | another user's plant changes none of the user's statuses |
| PlantsPage.OwnPlantCounted | src/pages/Plants.tsx:57-60 | a plant of the user adds its status at the end |
| PlantDetails.StatusColor | src/components/plants/PlantDetails.tsx:93-102 | a status gets a coloured badge iff it is one of the five table keys, otherwise the muted one |
| PlantDetails.StatusLabel | src/components/plants/PlantDetails.tsx:104-113 | a status is translated iff it is one of the five table keys, otherwise shown as is |
| PlantDetails.TablesAgree | src/components/plants/PlantDetails.tsx:93-113 | a status is muted exactly when it is shown raw |
| PlantDetails.DiscontinuedShownRaw | src/components/plants/PlantDetails.tsx:93-113 | the schema's discontinued status is shown as the raw text "discontinued" with the muted badge |
| PlantDetails.StatusLabelOf | src/components/plants/PlantDetails.tsx:104-113 | every schema status is translated |
| PlantDetails.StatusColorOf | src/components/plants/PlantDetails.tsx:93-102 | every schema status gets a coloured badge |
| PlantDetails.CorrectedTablesDistinct | src/components/plants/PlantDetails.tsx:93-113 | distinct statuses have distinct labels and distinct colours |
| PlantDetails.CorrectedTablesAgree | src/components/plants/PlantDetails.tsx:93-113 | the four statuses both tables know keep their label and colour |
| PlantDetails.DaysInStage | src/components/plants/PlantDetails.tsx:115-120 | 0 without a stage start; otherwise the whole days, rounded down, between start and now |
| PlantDetails.DaysCountWholeDays | src/components/plants/PlantDetails.tsx:115-120 | a stage started k days and a part of a day ago is k days old, and a later clock never shows fewer |
| PlantDetails.FloorUnique | src/components/plants/PlantDetails.tsx:119 | one whole number of days brackets a duration |
| PlantDetails.QualityBars | src/components/plants/PlantDetails.tsx:274-298 | bars are shown iff the score is present and non-zero; then five, bar i highlighted iff i is below the score |
| PlantDetails.Highlighted | src/components/plants/PlantDetails.tsx:278-283 | never more highlighted bars than bars |
| PlantDetails.BarsArePrefix | src/components/plants/PlantDetails.tsx:278-283 | the highlighted bars come first |
| PlantDetails.WholeScoreHighlightsThatMany | src/components/plants/PlantDetails.tsx:278-283 | a whole score k from 1 to 5 highlights exactly k bars |
| PlantDetails.PrefixCount | src/components/plants/PlantDetails.tsx:278-283 | bars highlighted exactly below k count k |
| PlantSchema.StatusName | src/integrations/supabase/types.ts:1329-1334 | every status has a non-empty stored name |
| PlantSchema.StatusNamesDistinct | src/integrations/supabase/types.ts:1329-1334 | distinct statuses are stored as distinct names |
| ProcessKnowledge.ExampleWords | supabase/functions/process-knowledge/index.ts:175 | splitting "a  b" on runs of whitespace gives the two words "a" and "b" |
| ProcessKnowledge.ExampleChunks | supabase/functions/process-knowledge/index.ts:174-198 | the words "a" and "b" make the single chunk "a b" |
| ProcessKnowledge.ExampleNoMatch | supabase/functions/process-knowledge/index.ts:80-81 | the rejoined chunk "a b" occurs nowhere in "a  b", so its start index is -1 |
| ProcessKnowledge.FirstFailureIsFirstNotOk | supabase/functions/process-knowledge/index.ts:38-68 | a request that fails after only ok ones is the one the first-failure search finds |
| ProcessKnowledge.GroupFirstExtends | supabase/functions/process-knowledge/index.ts:183-195 | the first chunk from a state starts with that state's pending words |
| ProcessKnowledge.ToInt32Congruent | supabase/functions/process-knowledge/index.ts:229-230 | inputs that differ by a multiple of 2^32 wrap to the same 32-bit value |
| Bridge.MqttClient.constructor | mqtt-bridge/bridge.py:72 | a new client has no credentials, no TLS, no callbacks, no connection, no subscriptions and no loop |

## Left out

- Networking and storage are not modelled: the paho client's sockets, `requests.post`, the Supabase client and query builder, Deno `serve`, `fetch` to the AI gateway, and Capacitor BLE. Each call's outcome (status code, error, returned rows) is a parameter of the method that makes it.
- Concurrency and timing are not modelled: MQTT reconnect and keepalive, the scheduling of `loop_forever`, React state batching, realtime `postgres_changes` subscriptions, `setInterval` polling, and the 10 s scan auto-stop of `useBluetoothLE` (src/hooks/useBluetoothLE.tsx:123). Each handler is modelled as one atomic step.
- `useBluetoothLE`'s `initialize`, `requestEnable` and `requestPermissions` (src/hooks/useBluetoothLE.tsx:24-107) only call the native plugin and report its answer. They are not modelled.
- The command poller is not modelled. No code in this repository reads `relay_commands`, publishes commands or marks rows executed, so `relay_commands` is an append-only table here.
- The AI prompt text (`buildSystemPrompt` and `buildUserPrompt`, supabase/functions/ai-analytics-enhanced/index.ts:246-340, and the inline prompt of ai-analytics) is not modelled. The regex and `JSON.parse` extraction of the reply is reduced to its outcome: no JSON block, unparsable, parsed with its `insights`, or parsed with a truthy `insights` that `map` cannot turn into rows (`Malformed`). A list whose items are non-null values other than objects, which `map` turns into rows of undefined fields, is not distinguished from `Malformed`.
- Floating point is not modelled. Numbers are reals. `toFixed`, `parseFloat` and locale formatting are uninterpreted functions or parameters (`fixed`, `format`), so rounding of averages and of chart values is not captured.
- ProcessKnowledge.Normalize: returns the vector unchanged when its magnitude is 0, where JavaScript would give NaN. The first two raw components are proved never both 0 (`RawEmbeddingNonZero`), so the sum of squares has a non-zero term; that the sum, and `Math.sqrt` of it, are then positive is taken as given and not proved, because it rests on real multiplication and square roots. The unit length of the normalised vector is not proved for the same reason.
- Dates are not modelled. Timestamps are milliseconds given as integers, ISO and locale texts are parameters, and the calendar arithmetic of `setHours`/`setDate`/`setMonth` is reduced to the offset it applies (`SensorHistoryChart.StartOffset`). Parsing invalid dates (NaN) is left out.
- Strings are sequences of Unicode scalar values, one `char` each; text outside the Basic Multilingual Plane (surrogate pairs in JavaScript) and Unicode case are not modelled.
- JavaScript object lookups treat only the listed keys as present. Inherited prototype keys such as "constructor" are not modelled.
- PostgREST `.single()` and `.maybeSingle()` are modelled only by their outcome: a row, no row, or an error code.
- RelayControl.Register: a null `relay_index` or `command` is answered as the NOT NULL constraint's rejection; other type mismatches (a string or an object where the columns expect a number or a boolean) are left to the `insertError` parameter.
- RelayControls.RelayPanel.FetchRelayConfigs: the ordering by `relay_index` is the database's job and is taken as given. The model stores the rows in the order they are returned.
- Event-log inserts whose errors the source ignores are appended unconditionally. The other writes whose errors the source ignores (the insights deactivation, the `ai_analysis_history` insert and the 'processing' update of process-knowledge) take their outcome as a parameter and change nothing when it is an error.
- The `processing_time_ms` clock reading of process-knowledge is a parameter.
- These side effects are left out:
  - `window.location.reload()` after a forum post (src/components/community/CreatePostDialog.tsx:70);
  - the `onSuccess` callback of the plant dialog, and what the parent does on `onOpenChange`, beyond the dialog's own `open` flag. `onSave` is modelled as the call counter `RelayConfigDialog.Dialog.saves`, and `onNameUpdate`, the list refresh, as `RelayCard.Card.refreshes`;
  - navigation.
- These are not modelled:
  - the user check and navigation of the plants page (`checkUser`, src/pages/Plants.tsx:33-53);
  - the plant loading of the details view (`loadPlantData`);
  - the intermediate `loading` spinners.
- These are not modelled: the CSV export button of the relay panel (`handleExportReadings`, src/components/dashboard/RelayControls.tsx:82-119) and the PDF export of the history chart (`exportToPDF`). Both go through browser download and jsPDF/html2canvas.
- The other edge functions (process-knowledge-upload, knowledge-search, insert-test-reading) and the presentation-only pages and components are not part of this model.

## Findings

| source | as written | input that shows it | evidently intended | confidence | as-written member | corrected member |
|---|---|---|---|---|---|---|
| supabase/functions/process-knowledge/index.ts:148-161 | the error handler calls `req.json()` again to find the knowledge id; the body was already consumed, so that call throws inside the catch and the row is never marked failed | an AI request answered with status 429 for any stored knowledge row | the row's status becomes `failed` with the error message | high, not executed | ProcessKnowledge.ServeAsWritten, ProcessKnowledge.KnowledgeAfterAsWritten, ProcessKnowledge.RateLimitedStaysProcessing | ProcessKnowledge.Serve, ProcessKnowledge.KnowledgeAfter, ProcessKnowledge.FailureStatus |
| supabase/functions/ai-analytics-enhanced/index.ts:103-205 | the knowledge query selects only `title, summary, processed_content`, but the history row maps `k.id`, which is undefined | any non-empty knowledge result | `knowledge_sources_used` lists the ids of the knowledge rows used | high, not executed | AiAnalyticsEnhanced.SourcesAsWrittenAreNull, AiAnalyticsEnhanced.HistoryOf | AiAnalyticsEnhanced.SourcesWithIdAreIds, AiAnalyticsEnhanced.CorrectedHistoryOf |
| supabase/functions/export-readings/index.ts:47-55 | fields are joined with ',' without quoting, and the timestamp is rendered with `toLocaleString('pt-BR')`, which contains a comma | the timestamp text "19/10/2026, 14:30:00" gives a row of 7 fields under a 6-column header | every row parses back into its 6 fields (section 2 of RFC 4180, rules 5-7) | high, not executed | ExportReadings.CommaInDateShiftsColumns, ExportReadings.Serve | ExportReadings.QuotedRowRoundTrip, ExportReadings.ServeQuoted |
| src/components/dashboard/RelayConfigDialog.tsx:44-56 | the update record spreads `formData` after `mode`, and `formData` holds the loaded config's `mode` | a config loaded with mode "led", then "ec" selected and saved: "led" is saved | the selected mode is saved | high, not executed | RelayConfigDialog.UpdateRecordAsWritten, RelayConfigDialog.SelectedModeLostAsWritten, RelayConfigDialog.Dialog.HandleSave | RelayConfigDialog.UpdateRecord, RelayConfigDialog.SelectedModeSaved |
| src/components/plants/PlantDetails.tsx:93-113 | the status tables have the key `discarded`, but the `plant_status` enum value is `discontinued` (src/integrations/supabase/types.ts:1329-1334) | a plant with status "discontinued" | the "Descartada" label and the red badge | medium, not executed | PlantDetails.StatusLabel, PlantDetails.StatusColor, PlantDetails.DiscontinuedShownRaw | PlantDetails.StatusLabelOf, PlantDetails.StatusColorOf, PlantDetails.CorrectedTablesDistinct |
