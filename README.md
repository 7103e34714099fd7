# Kaa MQTT client: request/response correlation model

This project models the device-side MQTT client of the Kaa IoT platform
(`KaaMqttClient`). The client turns publish/subscribe into request/response.
Most operations publish to a topic `kp1/{appVersionName}/{serviceCode}/{token}/{actionPath}[/{requestId}]`,
then subscribe to `{topic}/+` and add a message listener. The exceptions are listed below:
`getPendingCommands` only subscribes, `getAllMetadataKeys` subscribes before it publishes, and
`publishMetadataKeys` subscribes only when its guard holds. For each inbound
message, every listener whose base topic is a string prefix of the message topic
calls its success side on `/status` and its error side on `/error`.

Modules:

- `Values`: optional arguments, results, decoded JSON values, JavaScript truthiness, decimal rendering.
- `Topics`: the operation descriptor, the topic builder, and a split of topic names into levels that states the topic grammar.
- `Dispatcher`: listeners, the success-handler wrappers of the operations, what one listener does with a message (`Fire`), and the fan-out over all listeners (`Dispatch`).
- `Client`: the connection-URL choice and the class `KaaMqttClient`. The class holds the listener list and the trace of transport actions. Each public operation is a method whose postcondition gives the exact actions and listener it adds. `Valid()` is kept by every method: the subscriptions in the trace are exactly the listeners' wildcard filters, in registration order.

The model follows the code as written, including where it departs from a registry that replaces entries, skips registrations without handlers and clears itself on disconnect:

- Registering the same base topic again appends a second listener. It does not replace the first one.
- A subscription and a listener are added even when both callbacks are absent.
- `disconnect` only ends the transport. It does not unsubscribe or clear listeners.
- A defaulted request id is a draw of `randomInt(1, 100)`, so 1 to 99. The upper bound is exclusive, not 1 to 100.
- A failed subscription is not reported to the error callback, because no callback is passed to `subscribe`.
- `appVersionName` and `token` are not checked for being non-empty.
- `getPendingCommands` publishes nothing. It only subscribes.
- The trailing `return ''` of `getConnectionUrl` cannot be reached. The model ends in the error.

Matching is on characters, not topic levels. So a listener for request id `1` also receives the replies for request id `12`. A listener without a request id receives the replies for every request id of the same operation. Matching also crosses operations: a `publishMetadata` listener without a request id, on `…/epmx/{token}/update`, takes the replies `…/update/keys/{id}/status` meant for `publishMetadataKeys`.

## Model

| member | source | states |
|---|---|---|
| Client.GetConnectionUrl | src/KaaMqttClient.ts:50-64 | fails with "Either hostname or connectionUrl must be specified" exactly when neither a truthy hostname nor a truthy connection URL is given; a hostname gives `mqtt://{hostname}:…`; otherwise the connection URL is returned unchanged |
| Client.HostnameTakesPrecedence | src/KaaMqttClient.ts:51-57 | with a truthy hostname the result does not depend on the connection URL option |
| Client.DefaultPortUrl | src/KaaMqttClient.ts:52 | an absent or zero port gives `mqtt://{hostname}:1883` |
| Client.ExplicitPortUrl | src/KaaMqttClient.ts:52 | a non-zero port gives `mqtt://{hostname}:{port}` with the port in decimal (a minus sign when negative) |
| Client.DistinctPortsDistinctUrls | src/KaaMqttClient.ts:52 | two different positive ports on one hostname give two different URLs |
| Client.KaaMqttClient.Create | src/KaaMqttClient.ts:28-42 | construction fails, with no client and so no transport action, exactly when the URL choice fails; otherwise a fresh client with the given identity, that URL, no listeners and an empty trace |
| Client.KaaMqttClient.SubscribeToResponseTopics | src/KaaMqttClient.ts:66-90 | appends exactly one `Subscribe(baseTopic + "/+")` and exactly one listener, whatever the handlers, leaving existing listeners unchanged |
| Client.KaaMqttClient.PublishDataCollection | src/KaaMqttClient.ts:100-111 | publishes the stringified samples to the `dcx/{token}/json` topic, then subscribes and adds a listener forwarding the callbacks |
| Client.KaaMqttClient.PublishPlainDataSample | src/KaaMqttClient.ts:122-135 | publishes the sample text to `dcx/{token}/plain/{metric}`, then subscribes and adds a forwarding listener |
| Client.KaaMqttClient.GetAllMetadataKeys | src/KaaMqttClient.ts:144-162 | subscribes first, then publishes `''` to `epmx/{token}/get/keys/{id}` with the id defaulted from a draw in 1..99; its listener substitutes `[]` for a falsy payload |
| Client.KaaMqttClient.GetMetadata | src/KaaMqttClient.ts:171-191 | publishes `''` to `epmx/{token}/get/{id}`, then subscribes; its listener calls back only for a truthy payload |
| Client.KaaMqttClient.PublishMetadata | src/KaaMqttClient.ts:201-211 | publishes to `epmx/{token}/update`, then subscribes with a forwarding listener |
| Client.KaaMqttClient.PublishMetadataKeys | src/KaaMqttClient.ts:221-233 | always publishes to `epmx/{token}/update/keys`; subscribes and adds a listener only when the request id is truthy and both callbacks are present |
| Client.KaaMqttClient.DeleteMetadataKeys | src/KaaMqttClient.ts:243-252 | publishes the key list to `epmx/{token}/delete/keys`, then subscribes with a forwarding listener |
| Client.KaaMqttClient.GetPendingCommands | src/KaaMqttClient.ts:277-299 | only subscribes to `cex/{token}/command/{type}/+`; its listener hands the callback the request topic and a report handler bound to the same command type |
| Client.KaaMqttClient.ReportCommandExecutionResult | src/KaaMqttClient.ts:301-311 | publishes the results to `cex/{token}/result/{type}`, then subscribes with a present success side that does nothing |
| Client.KaaMqttClient.GetConfigurationJson | src/KaaMqttClient.ts:313-333 | publishes the payload (default `{}`) to `cmx/{token}/config/json`, then subscribes; its listener hands the callback a configuration report handler |
| Client.KaaMqttClient.ReportAppliedConfiguration | src/KaaMqttClient.ts:335-349 | publishes to `cmx/{token}/applied/json`, then subscribes with a forwarding listener |
| Client.KaaMqttClient.ReportCurrentSoftwareVersion | src/KaaMqttClient.ts:351-364 | publishes to `cmx_ota/{token}/applied/json` (never with a request id), then subscribes |
| Client.KaaMqttClient.GetSoftwareUpdate | src/KaaMqttClient.ts:366-375 | publishes `{}` to `cmx_ota/{token}/config/json`, then subscribes with a forwarding listener |
| Client.KaaMqttClient.InvokeReport | src/KaaMqttClient.ts:288-293 | the command report handler reports to `result/{type}` for the type it was bound to, with no request id; the configuration report handler reports to `cmx/{token}/applied/json` with no callback and no request id (the configuration handler is the closure built at lines 326-328) |
| Client.KaaMqttClient.Disconnect | src/KaaMqttClient.ts:377-379 | only ends the transport: no unsubscription, listeners unchanged |
| Client.KaaMqttClient.Connect | src/KaaMqttClient.ts:381-383 | only asks the transport to connect; listeners unchanged |
| Client.SubscriptionPerListener | src/KaaMqttClient.ts:71-89 | under the client invariant there is one subscription per listener, the i-th being the i-th listener's base topic with `/+` |
| Client.PendingCommandsReply | src/KaaMqttClient.ts:282-298 | a status reply to the pending-commands topic reaches the callback with the decoded payload, the request topic and a report handler for the same command type, after earlier listeners |
| Client.ConfigurationReply | src/KaaMqttClient.ts:319-332 | a status reply to the configuration topic reaches the callback after the earlier listeners, with the decoded payload, the reply topic and the applied-configuration report handler |
| Client.CommandReportTopic | src/KaaMqttClient.ts:282-307 | the report topic shares the request topic's prefix, with `result` in place of `command` and no request id |
| Values.NatToString | src/KaaMqttClient.ts:147 | the rendering is a digit string without a leading zero that denotes `n`; one digit below 10, two digits from 10 to 99 |
| Values.DigitsRoundTrip | src/KaaMqttClient.ts:147 | every digit string without a leading zero is the rendering of the number it denotes, so the rendering is the unique decimal text |
| Values.NatToStringInjective | src/KaaMqttClient.ts:147 | different numbers have different renderings |
| Topics.TopicLevels | src/KaaMqttClient.ts:106-371 | when no argument (app version, token, metric, command type, id) contains `/`, the topic of every operation splits into the levels `kp1`, app version, service code, token, action levels and the request id when appended |
| Topics.RequestIdAppendedIffTruthy | src/KaaMqttClient.ts:106 | an optional request id changes the topic exactly when it is truthy, and then appends `/{requestId}` |
| Topics.DistinctRequestIdsDistinctTopics | src/KaaMqttClient.ts:207 | different truthy request ids give different topics for the same operation |
| Topics.MetadataReadEndsWithId | src/KaaMqttClient.ts:149-176 | the two metadata reads always end with `/{id}`, for any app version and token; a `/`-free id is then the last level |
| Topics.DefaultRequestIdLevel | src/KaaMqttClient.ts:147-149 | a defaulted id (1..99) is one or two digits and is the last level, for any app version and token; when those hold no `/` the topic has 7 (keys) or 6 (values) levels |
| Topics.DistinctIdsDistinctTopics | src/KaaMqttClient.ts:149-176 | two metadata reads of the same kind with different ids have different topics |
| Topics.DistinctDrawsDistinctTopics | src/KaaMqttClient.ts:147-176 | two different draws of the defaulted id give two different topics for either metadata read |
| Topics.PartialUpdateExtendsFullUpdate | src/KaaMqttClient.ts:207-227 | the topic of a partial update with request id `r` is the full update's topic without an id followed by `/keys/r` |
| Topics.UpdateIdKeysSharesPartialUpdateTopic | src/KaaMqttClient.ts:207-227 | a full update with request id `keys` uses the same topic as a partial update without one |
| Dispatcher.SuffixesExclusive | src/KaaMqttClient.ts:80-86 | no topic ends in both `/status` and `/error` |
| Dispatcher.RunStatus | src/KaaMqttClient.ts:151-329 | the success wrappers: at most one call, always to the wrapped callback; the keys wrapper always calls back with a truthy value, `[]` for a falsy payload; the metadata wrapper calls back exactly for a truthy payload; the commands wrapper passes the request topic and a report for its command type; the configuration wrapper passes the reply topic and the applied-configuration report; the no-op success side calls nothing |
| Dispatcher.Fire | src/KaaMqttClient.ts:74-87 | a listener ignores topics its base topic does not prefix and topics with any other suffix; on `/status` it runs only the success side, on `/error` only the error callback, with the decoded payload (`null` when decoding fails) and the message topic |
| Dispatcher.Dispatch | src/KaaMqttClient.ts:74-89 | an inbound message produces at most one call per listener whose base topic prefixes its topic, and none for a topic ending in neither suffix |
| Dispatcher.DispatchConcat | src/KaaMqttClient.ts:89 | listeners are served in registration order |
| Dispatcher.DispatchAppend | src/KaaMqttClient.ts:89 | a newly registered listener is served after all existing ones, which are unaffected |
| Dispatcher.DuplicateListenerFiresTwice | src/KaaMqttClient.ts:66-89 | registering the same listener twice doubles its calls |
| Dispatcher.DispatchMembership | src/KaaMqttClient.ts:74-89 | a call is produced exactly when some listener produces it (fan-out to every matching listener) |
| Dispatcher.ReplyToNewListener | src/KaaMqttClient.ts:71-89 | a reply `{base}/status` or `{base}/error` reaches the new listener's matching side after the earlier listeners' calls |
| Dispatcher.PrefixMatchCrossesLevels | src/KaaMqttClient.ts:75 | the metadata listener of `get/1` delivers the (truthy) reply `get/12/status` |
| Dispatcher.PrefixMatchCrossesOperations | src/KaaMqttClient.ts:75 | a full-update listener without a request id fires on the status reply to a partial update with any truthy request id |
| Dispatcher.MalformedStatusPayload | src/KaaMqttClient.ts:80-82 | an undecodable status payload reaches a forwarded callback as `null` and the keys callback as `[]`; it is dropped for the metadata callback |
| Dispatcher.RunStatusAsWritten | src/KaaMqttClient.ts:151-190 | the keys and metadata wrappers as written are the corrected wrappers applied to the re-decoded string rendering of the decoded payload; every other handler behaves as in the corrected model |
| Dispatcher.FireAsWritten | src/KaaMqttClient.ts:74-87 | one listener with the wrappers as written: identical to `Fire` unless the success side is the keys or metadata wrapper and the topic ends in `/status` |
| Dispatcher.DispatchAsWritten | src/KaaMqttClient.ts:74-89 | the fan-out with the wrappers as written equals `Dispatch` when no listener has one of the two re-decoding wrappers, and on any non-status topic |
| Dispatcher.MetadataReplyDroppedAsWritten | src/KaaMqttClient.ts:171-190 | a whole `getMetadata` object reply followed through any listener list: as written the new listener adds no call; corrected it adds the metadata call after the earlier listeners' calls |
| Dispatcher.MetadataObjectDroppedAsWritten | src/KaaMqttClient.ts:181-188 | as written a metadata object never reaches the callback; corrected it does |
| Dispatcher.MetadataKeysLostAsWritten | src/KaaMqttClient.ts:153-158 | as written the key list `["a","b"]` reaches the callback as `[]`; corrected the list does |

## Findings

| source | as written | input that shows it | evidently intended | confidence | as-written member | corrected member |
|---|---|---|---|---|---|---|
| src/KaaMqttClient.ts:155 | `safeJson(message) \|\| []` is applied to the payload that was already decoded on line 81; `JSON.parse` turns an array into its comma-joined text, which is not JSON | status reply `["a","b"]` to `get/keys/{id}`: the callback receives `[]` | pass the decoded payload, or `[]` when it is falsy | high, not executed | Dispatcher.MetadataKeysLostAsWritten | Dispatcher.RunStatus |
| src/KaaMqttClient.ts:183-186 | `safeJson(message)` on the already decoded object yields `null` (`[object Object]` is not JSON), so the callback is skipped | status reply `{"k":1}` to `get/{id}`: the callback is never called | call back with the decoded object when it is truthy | high, not executed | Dispatcher.MetadataObjectDroppedAsWritten | Dispatcher.RunStatus |

`Dispatch` and the client use the corrected wrappers (`RunStatus`). `RunStatusAsWritten`, `FireAsWritten` and `DispatchAsWritten` are the wrappers as written; `MetadataReplyDroppedAsWritten` follows a whole reply through both. The counterexample lemmas take as a hypothesis that the decoder rejects the rendered text (`a,b`, `[object Object]`). `JSON.parse` does reject both.

## Left out

- Topics.TopicLevels: the split into levels is stated only for arguments without `/`. The source accepts any strings, and a `/` inside one adds levels (a token `a/b` gives `getMetadata` a 7-level topic).

- The MQTT transport (`mqtt.connect`, `publish`, `subscribe`, `end`, `connect`, the `'error'` listener and `IClientOptions`) is external. The model records only the actions the client issues, in a trace. Broker-side wildcard filtering is not modelled: `Dispatch` reads any topic it is given.
- JSON decoding (`safeJson` in src/json.ts) is the parameter `decode: string -> Option<Json>`. `None` means `JSON.parse` throws. JSON is never parsed here. `JSON.stringify` is the opaque payload `Stringified(value)`.
- Numbers are kept as the text JavaScript renders them with. So `dataSample.toString()` on a number is given as its text, and a port is an integer. `IntToString` matches JavaScript's `${port}` only below 10^21; from there on JavaScript prints exponent notation (`1e+21`), far above any valid port.
- `crypto.randomInt` is the parameter `drawn`, required to be 1..99 when the request id is defaulted.
- Callbacks supplied by the caller are identities (`CallbackId`). What they do is out of scope. Invoking the report handler they receive is the method `InvokeReport`.
- The typed records of src/types.ts (`CommandResult`, `AppliedConfigurationPayload`, `ErrorResponse`, …) are plain `Json` values. TypeScript casts do not check their shape at run time.
- `debugLog`/`console` output, the `debug` flag, the `keepalive` option and the `async` on the message handler are not modelled. The handler awaits nothing, so dispatch happens in one step.
- `disconnect`'s completion callback is passed to the transport and is not modelled.
- Decoding the message buffer to text (`messageBufer?.toString()`) is not modelled. A message is given as text.
- src/index.ts (a one-line factory around the constructor) and examples/SimpleEndpoint.ts (a demo) are not part of this model.
