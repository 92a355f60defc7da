# MeiLin IoT hybrid mode — a Dafny model

This project models the "hybrid mode" path of the MeiLin ESP32 firmware. That
path decides whether a speech-to-text (STT) result is handled by the MeiLin
IoT backend or handed back to the XiaoZhi assistant pipeline. It has three
layers:

- **IoT settings** (`settings.dfy`, module `Settings`). Compiled Kconfig
  defaults are merged field by field with overrides from the "iot" NVS
  namespace. An empty string or the integer -1 means "not stored". There are
  six write-through setters. NVS is a map from key to an integer or a string
  (`NvsStore`).
- **IoT controller** (`controller.dfy`, module `Controller`). It turns one
  HTTP exchange into a typed result: a check result, an execute or chat
  result, a device list or a health flag. The result shaping
  (`ShapeCheck`, `ShapeExecute`, `ShapeChat`, `ShapeDeviceList`) is a function
  of two things: whether the controller is configured, and the reply. The
  reply is a status (0 means the transport failed) and the parsed JSON body
  (None means the body did not parse). The class methods perform the request
  on the transport and return the shaped result.
- **HTTP event handler** (`response_buffer.dfy`, module `ResponseBuffer`). It
  copies response data into the caller's 4096-byte buffer. The copy is
  clamped to 4095 bytes and followed by a NUL byte. A function-static counter
  tracks the length, and connect, finish and disconnect events reset it.
  `EventHandler.HandleEvent` writes the array in place, with a loop.
  `Step`/`Run` give the same behaviour over sequences.
- **IoT handler** (`handler.dfy`, module `Handler`). This is the stateful hook
  in the STT path: `Initialize`, `HandleSttResult`, `RefreshDeviceList` and
  `CheckServerHealth`. The display and TTS callbacks are modelled as an
  appended event log. Each event records which callback received it (or
  `Unset` when the handler only logs). `SttResult` is one call of the entry
  point written as a function. `HandleSttResult` is proved against it. The
  handler's invariant `Valid()` says two things: it is available only when it
  has a controller, and that controller has a non-empty server URL and API
  key.

Supporting modules:

- `Wrappers`: the `Option` type.
- `Json`: a parsed body as a map from key to a boolean, number, string or
  other value.
- `Decimal`: `std::to_string` of an `int`, with its inverse.
- `Http`: the transport as an oracle. It holds a queue of scripted replies
  and a log of the requests sent. When the queue is empty, a request fails
  with status 0.

`HandleSttResult` sends at most a check request and an execute request per
call (`SttResult.requests`) and never calls `SendChatToMeiLin`. `Initialize`
makes one health probe. A failed execution with fallback enabled returns
`false`, so the text goes back to XiaoZhi.

The getters `IsEnabled`, `GetServerUrl`, `GetApiKey`, `GetTimeoutMs`,
`IsTtsEnabled`, `IsFallbackEnabled`, `GetServer`, `IsConfigured`,
`IsAvailable` and `GetLastResult` are modelled as functions of the fields.

`SendChatToMeiLin` is defined in `main/iot_controller.cc` but is not
declared in `main/iot_controller.h`, so that file would not compile as it
stands. The model includes it as declared in the `.cc`.

## Model

| member | source | states |
|---|---|---|
| `Settings.KconfigDefaults` | main/iot_settings.cc:19-57 | each defined symbol sets its field (booleans: non-zero is true), and each undefined one sets its own default on its own: disabled, "", "", 5000, TTS on, fallback on |
| `Settings.MergeNvs` | main/iot_settings.cc:59-95 | a field keeps its current value whenever the store yields the sentinel for it (key absent, wrong type, a stored "" for the URL or key, a stored -1 for a flag or the timeout); an empty store changes nothing |
| `Settings.NvsWinsOverKconfig` | main/iot_settings.cc:9-17 | any field for which NVS holds a non-sentinel value boots to the same value whatever the Kconfig symbols are |
| `Settings.EmptyNvsBootsDefaults` | main/iot_settings.cc:19-57 | with nothing stored, booting gives the Kconfig defaults; with no symbols either, the field initialisers |
| `Settings.StoredFlagOnlyOneIsTrue` | main/iot_settings.cc:74-92 | for enabled, tts and fallback, any stored value other than -1 gives `value == 1` (so 0, 2 and 7 all give false) |
| `Settings.FlagSettersSurviveReboot` | main/iot_settings.cc:97-137 | writing a flag as 1/0 and booting again yields that flag, with every other field as it would otherwise boot |
| `Settings.ValueSettersSurviveReboot` | main/iot_settings.cc:104-123 | a non-empty URL or key, and any timeout except -1 (zero and negatives included), survive a reboot |
| `Settings.SentinelValuesAreNotReloaded` | main/iot_settings.cc:63-82 | a stored empty URL or key, or a stored timeout of -1, reloads as the compiled default, not as the value set |
| `Settings.ClearedServerUrlComesBack` | main/iot_settings.cc:63-66 | a concrete case: a compiled-in URL cleared at run time is back after a reboot |
| `Settings.IoTSettings.constructor` | main/iot_settings.h:86-91 | before Initialize: disabled, empty URL and key, 5000 ms, TTS and fallback on |
| `Settings.IoTSettings.GettersReadFields` | main/iot_settings.h:35-60 | the six getters together read back exactly the stored settings |
| `Settings.IoTSettings.ConfiguredImpliesEnabled` | main/iot_settings.h:73-75 | configured iff enabled with a non-empty URL and key; so configured implies enabled |
| `Settings.IoTSettings.Initialize` | main/iot_settings.cc:9-17 | the settings become the Kconfig defaults overlaid with the NVS store |
| `Settings.IoTSettings.LoadFromKconfig` | main/iot_settings.cc:19-57 | all six fields are overwritten with the Kconfig defaults |
| `Settings.OverridesAreMerge` | main/iot_settings.cc:59-95 | overriding each field from the store, one key at a time and only for a non-sentinel value, gives exactly `MergeNvs` |
| `Settings.IoTSettings.LoadFromNvs` | main/iot_settings.cc:59-95 | the fields become the NVS merge of their previous values |
| `Settings.IoTSettings.SetEnabled` | main/iot_settings.cc:97-102 | only `enabled` changes, and "enabled" is stored as 1 or 0 |
| `Settings.IoTSettings.SetServerUrl` | main/iot_settings.cc:104-109 | only the URL changes, and it is stored under "server" |
| `Settings.IoTSettings.SetApiKey` | main/iot_settings.cc:111-116 | only the key changes, and it is stored under "api_key" |
| `Settings.IoTSettings.SetTimeoutMs` | main/iot_settings.cc:118-123 | only the timeout changes, and it is stored under "timeout" |
| `Settings.IoTSettings.SetTtsEnabled` | main/iot_settings.cc:125-130 | only the TTS flag changes, and "tts" is stored as 1 or 0 |
| `Settings.IoTSettings.SetFallbackEnabled` | main/iot_settings.cc:132-137 | only the fallback flag changes, and "fallback" is stored as 1 or 0 |
| `ResponseBuffer.NextLen` | main/iot_controller.cc:12-51 | the counter stays at most 4095, grows only on a data event, and only by a part of that event's data; chunked data or a missing buffer leave it as it is; connect, finish and disconnect reset it to 0 |
| `ResponseBuffer.Append` | main/iot_controller.cc:27-35 | bytes before the old length are unchanged, the next `copy_len` bytes are the head of the data, then a NUL, and the rest is untouched |
| `ResponseBuffer.Step` | main/iot_controller.cc:12-51 | one event keeps the buffer at 4096 bytes and the counter at most 4095 |
| `ResponseBuffer.Run` | main/iot_controller.cc:12-51 | any sequence of events keeps the buffer at 4096 bytes and the counter at most 4095 |
| `ResponseBuffer.NonDataKeepsEmpty` | main/iot_controller.cc:14-47 | after a reset, events other than data (errors, headers, redirects, connect, finish, disconnect) copy nothing and keep the counter at 0 |
| `ResponseBuffer.ResponseBufferHoldsClampedBody` | main/iot_controller.cc:12-51 | a plain response into a zeroed buffer (connect, any header or other non-data events, data, finish) leaves exactly the first min(length, 4095) body bytes followed by zeros; the rest is dropped silently |
| `ResponseBuffer.ChunkedResponseCopiesNothing` | main/iot_controller.cc:25-37 | data events of a chunked response leave the buffer and the counter unchanged |
| `ResponseBuffer.EventHandler.constructor` | main/iot_controller.cc:13 | the function-static counter starts at 0 |
| `ResponseBuffer.EventHandler.HandleEvent` | main/iot_controller.cc:12-51 | the in-place array copy and the static counter do exactly what `NextBuf` and `NextLen` say |
| `Json.BoolOrFalseIsTrue` | main/iot_controller.cc:176-179 | a flag that starts false and is read from a boolean field is true only for a literal boolean `true` |
| `Decimal.IntToStringRoundTrip` | main/iot_controller.cc:161-165 | the decimal rendering of every int can be parsed back to that int, so a status code embedded in a message can be recovered |
| `Controller.FailureTextDecodes` | main/iot_controller.cc:161-165 | if an operation's fixed messages are pairwise distinct and none begins with its status prefix, every failure message decodes back to its cause, status code included |
| `Controller.ExecuteMessagesDistinguishable` | main/iot_controller.cc:137-173 | the execute path's four local error messages can be told apart |
| `Controller.ChatMessagesDistinguishable` | main/iot_controller.cc:294-329 | the chat path's four local error messages can be told apart |
| `Controller.LocalFailuresAreDistinct` | main/iot_controller.cc:137-173 | unconfigured, connection failure, each non-200 status and an unparseable body give different messages, for execute and for chat |
| `Controller.ShapeCheck` | main/iot_controller.cc:62-128 | an IoT command iff configured, status 200, a parsed body and `is_iot_command` is the boolean true; otherwise exactly {false,-1,-1,"",""}; ids and names are read only in that case, defaulting to -1/"" when missing or mistyped |
| `Controller.ShapeExecute` | main/iot_controller.cc:130-206 | success iff a configured, parsed 200 reply has `success` equal to the boolean true; every local failure has empty text and URL and a message that decodes to its cause; `error` is read only when not successful |
| `Controller.ShapeChat` | main/iot_controller.cc:291-351 | success iff a configured, parsed 200 reply, whatever fields it has; failures carry a message that decodes to their cause |
| `Controller.ShapeDeviceList` | main/iot_controller.cc:225-262 | the reply text when configured with status 200, otherwise "{}" |
| `Controller.CheckThenExecute` | main/iot_controller.cc:208-223 | handled iff the check says IoT command; a handled result is the execute result, even a failed one |
| `Controller.UnconfiguredIgnoresReplies` | main/iot_controller.cc:65-68 | an unconfigured controller's answers do not depend on any reply, and it never reports an IoT command |
| `Controller.IoTController.constructor` | main/iot_controller.cc:53-56 | the controller holds the given server URL and key |
| `Controller.IoTController.SetServer` | main/iot_controller.h:100 | only the server changes |
| `Controller.IoTController.SetApiKey` | main/iot_controller.h:101 | only the API key changes |
| `Controller.IoTController.HttpPost` | main/iot_controller.cc:353-386 | one POST to server + path carrying the API key header is sent; its reply is the next scripted one, or status 0 |
| `Controller.IoTController.CheckIoTCommand` | main/iot_controller.cc:62-128 | unconfigured: not IoT and no request; otherwise one POST to /iot/check, and the result is `ShapeCheck` of its reply |
| `Controller.IoTController.ExecuteIoTCommand` | main/iot_controller.cc:130-206 | unconfigured: the not-configured failure and no request; otherwise one POST to /iot/execute, and the result is `ShapeExecute` of its reply |
| `Controller.IoTController.SendChatToMeiLin` | main/iot_controller.cc:291-351 | unconfigured: the not-configured failure and no request; otherwise one POST to /esp/chat, and the result is `ShapeChat` of its reply |
| `Controller.IoTController.HandleIfIoTCommand` | main/iot_controller.cc:208-223 | returns false and the caller's result untouched iff the check is negative (one request at most); otherwise true with the execute result after exactly check then execute |
| `Controller.IoTController.GetDeviceList` | main/iot_controller.cc:225-262 | unconfigured: "{}" and no request; otherwise one GET with the key and the `ShapeDeviceList` answer |
| `Controller.IoTController.CheckServerHealth` | main/iot_controller.cc:264-289 | an empty server gives false with no request; otherwise one GET to /health, and the result is true iff the status is 200 |
| `Handler.ControllerIgnoresEnabledFlag` | main/iot_controller.h:103 | for a controller built from the settings' URL and key: the settings are configured iff they are enabled and the controller is configured |
| `Handler.Respond` | main/iot_handler.cc:58-82 | success: ("user", text), then ("assistant", response), then TTS iff TTS is on and there is an audio URL; failure with fallback: not handled and no events; failure without fallback: handled, with the error as the single event |
| `Handler.HandledMeansOneAnswer` | main/iot_handler.cc:58-82 | a handled text gets exactly one assistant message; a text handed back emits nothing |
| `Handler.SpeaksOnlyOnSuccessWithAudio` | main/iot_handler.cc:62-68 | TTS is played iff the command succeeded, TTS is enabled and the audio URL is non-empty; when played, it is the last event |
| `Handler.SttResult` | main/iot_handler.cc:34-83 | a closed gate means false, no events, no requests and no new last result; a non-IoT text means false and no events; an IoT text records the execute result and disposes of it as `Respond` says, after exactly two requests |
| `Handler.FailureWithFallbackIsSilent` | main/iot_handler.cc:56-76 | a failed execution with fallback on returns false with no events, yet it is recorded |
| `Handler.FailureWithoutFallbackShowsError` | main/iot_handler.cc:78-82 | a failed execution with fallback off returns true with exactly one event, ("assistant", error) |
| `Handler.LightScenario` | main/iot_handler.cc:56-68 | the light example: handled; user line then answer; TTS iff enabled; two requests |
| `Handler.IoTHandler.constructor` | main/iot_handler.h:86-91 | unavailable, no controller, an all-empty last result, no callbacks, nothing emitted |
| `Handler.IoTHandler.SetTtsCallback` | main/iot_handler.h:55-57 | only the TTS callback is replaced |
| `Handler.IoTHandler.SetDisplayCallback` | main/iot_handler.h:63-65 | only the display callback is replaced |
| `Handler.IoTHandler.Initialize` | main/iot_handler.cc:9-32 | unconfigured settings: unavailable, controller and network untouched; configured: a fresh controller from the URL and key, one health probe, and available whatever the probe says |
| `Handler.IoTHandler.ShowMessage` | main/iot_handler.cc:103-109 | appends one display event addressed to the current display callback |
| `Handler.IoTHandler.PlayTts` | main/iot_handler.cc:111-117 | appends one TTS event addressed to the current TTS callback |
| `Handler.IoTHandler.HandleSttResult` | main/iot_handler.cc:34-83 | the result, the events appended, the new last result and the requests sent are exactly those of `SttResult`, and `Valid()` is kept |
| `Handler.IoTHandler.RefreshDeviceList` | main/iot_handler.cc:85-93 | unavailable: no request; otherwise exactly one device-list GET |
| `Handler.IoTHandler.CheckServerHealth` | main/iot_handler.cc:95-101 | unavailable: false with no request; otherwise one probe, true iff status 200 |
| `Handler.FreshHandlerPassesThrough` | main/iot_handler.cc:35-37 | a handler that was never initialised returns false for any text and sends nothing |

## Left out

- The ESP HTTP client and `HttpPost` become the `Http.Transport` oracle. Timeouts, headers other than `X-API-Key`, and the ignored `buffer_size` argument of `HttpPost` are not modelled. Every caller passes a 4096-byte buffer, and the event handler clamps every copy to 4095 bytes, so the NUL it writes lands at index 4095 at most.
- The link between the event handler and a reply is not modelled. `HttpReply.text` is taken to be what the buffer holds up to its first NUL, and `ResponseBufferHoldsClampedBody` says what that buffer holds.
- JSON request payloads built with `snprintf` are left out. They are not escaped and are truncated at the buffer size, so no round trip holds. Requests carry only the verb, the URL and the key header.
- cJSON parsing is left out: a reply carries its parsed object, or None. A `JsonObject` maps each key exactly as the server wrote it, and the model looks fields up by exact key. `cJSON_GetObjectItem` compares keys ignoring case and returns the first of repeated keys. So a reply whose field names differ from the expected ones only in case (`{"Success": true}`), or that repeats a field, is read differently: the firmware finds the field and the model does not. Keys that differ only in case and repeated keys are not modelled. A JSON number is modelled by the integer cJSON stores in `valueint`, so the double-to-int conversion is not modelled.
- Integer widths are not modelled. Status codes, ids and the timeout are never used in arithmetic, so 32-bit limits do not change any result here.
- Logging (`ESP_LOG*`, `PrintSettings`) is left out.
- Singletons (`GetInstance`) become explicit objects passed as parameters. `std::function` callbacks become opaque `Callback` identities recorded in the event log.
- The firmware's `Settings` NVS wrapper is not part of this model. `NvsStore` assumes it reads an absent key, or a key of the wrong type, as "" or as the given default.
- The MeiLin protocol client (`main/protocols/meilin_client.*`, `main/meilin_client.h`) and the board pin maps are not part of this model.
