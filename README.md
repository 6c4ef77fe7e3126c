# ONEBIOT ESP firmware core in Dafny

This project models the core of the ONEBIOT library for ESP8266/ESP32 boards. That core is four parts.

- **Settings store** (`ONEBIOTConfig`). It keeps the settings record, which is shared by reference between every configuration object that wraps it. It has the getters with built-in defaults and change-reporting setters. `load` and `save` move the record to and from a JSON file on SPIFFS, and `save` keeps a `.bak` backup while it writes.
- **Application** (`ONEBIOTApp`). Its bootstrap `start` runs in stages: mount the filesystem, load the settings, join WiFi as a station, fall back to an access point, announce over mDNS, start the web server. A stage that fails can reset the chip, which ends `start`. The per-iteration `loop` rejoins a dropped station and serves clients. `initializeTime` waits for network time.
- **Command handler** (`ONEBIOTCmdRequestHandler`). It serves the authenticated `/cmd/...` routes: WiFi/AP/DNS settings, the credentials update, the network scan, statistics, the option read-back with secret redaction, and the restart request.
- **Template streamer** (`_sendAsTemplate` of `ONEBIOTRequestHandler`). It sends a SPIFFS file with every `%key%` replaced by `processor(key)`, with the literal text in chunks of at most 100 bytes. The template is a byte string: each `char` of the model's text stands for one byte returned by `file.read()`.

The modules are:

| Module | File | What it holds |
|---|---|---|
| `Wrappers` | wrappers.dfy | `Option` and two generic sequence facts |
| `Json` | json.dfy | JSON values and an abstract text codec |
| `Numerals` | numerals.dfy | `String(n, base)` and the parse back |
| `Spiffs` | spiffs.dfy | the filesystem as a class: a file map plus a log of its mutating calls |
| `Config` | config.dfy | the settings store |
| `Onebiot` | app.dfy | the application |
| `Requests` | request_handler.dfy | the base handler and the template streamer |
| `Commands` | cmd_request_handler.dfy | the command handler |

The model follows the code, including these behaviours of it.

- **Backup removal.** `save` removes the `.bak` backup whether or not opening the settings file for writing succeeds, not only after a successful write. When the write fails, the previous settings are lost (`Config.FailedWriteLosesSettings`).
- **Stale backups.** A stale `.bak` makes the SPIFFS rename fail, and the save goes on regardless.
- **Flags and the string `"1"`.** The encoder writes the three flags as the numbers 1/0. The decoder compares them with the string `"1"`. On a document that keeps numbers typed, that comparison never holds, so encoding and then decoding a record turns every flag off (`Config.RoundTrip`, `Config.FlagsDoNotRoundTrip`). Whether a save followed by a load also loses the flags depends on the JSON library. With a codec that reads `1` back as a number, as ArduinoJson 6 does (the header's `JsonDocument&`), it does (`Config.SaveThenLoad`). ArduinoJson 5, whose `StaticJsonBuffer` the source file uses, keeps an unquoted number as raw text; there the comparison holds and the flags survive (see Left out).
- **The credentials route.** It passes both form values to the user setter. The stored user becomes the submitted password, and the stored password never changes (`Commands.CredentialsAsWritten`).
- **The DNS route.** It feeds `dns_establish` to the access point flag (`Commands.DnsPostSetsApEstablish`).
- **The option route** is behind authentication like every other route.
- **Restarts end `start`.** `ESP.restart()` does not return. A stage of `start` that resets the chip is the last one to run; the reset is the last call and the restart callback the last event (`Onebiot.BootRestarts`).
- **Settings need a mounted filesystem.** `configExists` asks SPIFFS, which finds no file while unmounted. A failed mount therefore loads no settings and fires neither load callback (`Onebiot.FailedMountLoadsNothing`).
- **The empty chunk also goes out mid-stream.** The streamer ends the body with `sendContent("")`, and it sends the same call whenever it flushes an empty buffer or a key's value is empty. That happens when the template starts with `%`, when a key directly follows another, when a key follows a 100-byte flush, and when `processor(key)` is `""`. A stream that fails at a leading unclosed `%` has sent exactly that call (`Requests.EmptyFlushAtBookend`, `Requests.AdjacentKeysSendEmpty`). The model keeps the closing call apart as `Terminator`; on the server it is the same effect as an empty literal chunk.

Effects that leave the device are recorded as traces:
- radio, mDNS and web server calls and the chip reset: `Onebiot.App.calls`;
- the weak user callbacks: `Onebiot.App.events`;
- what goes to the HTTP client: `Requests.Server.out`;
- SPIFFS mutations: `Spiffs.FileSystem.ops`.

What the hardware answers comes in as parameters: connect results, station status, mount and open results, clock readings, scan results, the MAC address and `micros()`.

## Model

| member | source | states |
|---|---|---|
| Config.Record.ClientName | src/utils/config/ONEBIOTConfig.cpp:31-38 | the device name is never empty and is the stored one whenever one is stored |
| Config.GeneratedClientName | src/utils/config/ONEBIOTConfig.cpp:32-35 | with no stored name, the generated one is `1biot-` + MAC + `-` followed by one or two hex digits that parse back to the low byte of `micros()` |
| Config.Record.ApSsid | src/utils/config/ONEBIOTConfig.cpp:52-57 | the access point name is never empty: the stored one, or `ONEBIOT.local` when none is stored |
| Config.Record.DnsName | src/utils/config/ONEBIOTConfig.cpp:40-46 | the mDNS name is never empty: the stored one, or `onebiot` when none is stored |
| Config.FreshRecordDefaults | src/utils/config/ONEBIOTConfig.h:6-18 | a fresh record has every flag off and resolves to the built-in AP and mDNS names |
| Config.AppConfig.constructor | src/utils/config/ONEBIOTConfig.h:6-18 | a new record is the default record: empty strings, flags off |
| Config.ConfigStore.constructor | src/utils/config/ONEBIOTConfig.cpp:20 | the configuration object refers to the given record and file name |
| Config.ConfigStore.WithoutFile | src/utils/config/ONEBIOTConfig.cpp:21 | without a file name the configuration object is bound to the empty name |
| Config.ConfigStore.Copy | src/utils/config/ONEBIOTConfig.h:54 | a by-value copy of the configuration object refers to the same record |
| Config.SharedRecordAcrossCopies | src/utils/config/ONEBIOTConfig.h:54 | a write through a copy is seen through the original |
| Config.ConfigStore.SetClientName | src/utils/config/ONEBIOTConfig.cpp:59-65 | reports a change exactly when the new value differs; the record afterwards has that field replaced and nothing else changed |
| Config.ConfigStore.SetCredentialsUser | src/utils/config/ONEBIOTConfig.cpp:67-73 | as above, for the user |
| Config.ConfigStore.SetCredentialsPassword | src/utils/config/ONEBIOTConfig.cpp:75-81 | as above, for the password |
| Config.ConfigStore.SetApSsid | src/utils/config/ONEBIOTConfig.cpp:83-89 | as above, for the AP name |
| Config.ConfigStore.SetApPassword | src/utils/config/ONEBIOTConfig.cpp:91-97 | as above, for the AP password |
| Config.ConfigStore.SetApEstablish | src/utils/config/ONEBIOTConfig.cpp:99-105 | as above, for the AP flag |
| Config.ConfigStore.SetWiFiSsid | src/utils/config/ONEBIOTConfig.cpp:107-113 | as above, for the station SSID |
| Config.ConfigStore.SetWiFiPassword | src/utils/config/ONEBIOTConfig.cpp:115-121 | as above, for the station password |
| Config.ConfigStore.SetWiFiEstablish | src/utils/config/ONEBIOTConfig.cpp:123-129 | as above, for the station flag |
| Config.ConfigStore.SetDnsName | src/utils/config/ONEBIOTConfig.cpp:131-137 | as above, for the mDNS name |
| Config.ConfigStore.SetDnsEstablish | src/utils/config/ONEBIOTConfig.cpp:139-145 | as above, for the mDNS flag |
| Config.EncodeShape | src/utils/config/ONEBIOTConfig.cpp:192-217 | the document holds the user and password only when non-empty, the other eight keys always, and the flags as the numbers 1/0 |
| Config.DecodeDefaults | src/utils/config/ONEBIOTConfig.cpp:219-240 | each of the eight string keys, the three passwords included, decodes to the empty string when missing; a flag is on exactly when its member is the string "1" |
| Config.DecodeEmpty | src/utils/config/ONEBIOTConfig.cpp:219-240 | an empty document decodes to the default record |
| Config.RoundTrip | src/utils/config/ONEBIOTConfig.cpp:192-240 | decoding an encoded record gives back every string field and turns every flag off |
| Config.FlagsDoNotRoundTrip | src/utils/config/ONEBIOTConfig.cpp:209-238 | a record with any flag on does not survive encoding and decoding |
| Config.ConfigStore.JsonToConfig | src/utils/config/ONEBIOTConfig.cpp:219-240 | the shared record becomes the decoding of the document |
| Config.ConfigStore.Load | src/utils/config/ONEBIOTConfig.cpp:151-172 | succeeds exactly when the file exists and opens; then the record is the decoded file text, else it is unchanged |
| Config.ConfigStore.Save | src/utils/config/ONEBIOTConfig.cpp:174-190 | the files afterwards are the backup-rename-write-remove result for the encoded record, and the calls are logged in order |
| Config.ReplaceWithBackup | src/utils/config/ONEBIOTConfig.cpp:179-189 | the file steps of the save, proved step by step against the same closed form |
| Config.SaveSucceeds | src/utils/config/ONEBIOTConfig.cpp:179-189 | a save whose write succeeds leaves exactly the new text under the name, no backup, and every other file untouched |
| Config.FailedWriteLosesSettings | src/utils/config/ONEBIOTConfig.cpp:179-189 | a save whose write fails removes both the old file and its backup, and no other file |
| Config.SaveOpsOrder | src/utils/config/ONEBIOTConfig.cpp:179-189 | a save renames, then opens for writing, then removes the backup; it always opens the file |
| Config.SaveThenLoad | src/utils/config/ONEBIOTConfig.cpp:151-190 | with a faithful codec, save then load restores every string field and loses the flags |
| Numerals.ParseNumToString | src/utils/config/ONEBIOTConfig.cpp:34 | the digits of `String(n, base)` parse back to `n` |
| Numerals.NumToStringDigits | src/utils/config/ONEBIOTConfig.cpp:34 | every character of `String(n, base)` is a digit below the base |
| Numerals.NumToStringTwoDigits | src/utils/config/ONEBIOTConfig.cpp:34 | a byte in hex takes one or two digits |
| Onebiot.ConnectErrorCarriesCode | src/ONEBIOT.cpp:150-151 | the connect failure message is the fixed prefix followed by digits that parse back to the station status |
| Onebiot.WiFiOutcomeCases | src/ONEBIOT.cpp:129-159 | the station callback reports success exactly when WiFi is on, an SSID is stored and the connect succeeds; each failure has its own message; the station is begun with a password only when one is stored |
| Onebiot.AccessPointName | src/ONEBIOT.cpp:167-188 | the access point opens under the effective non-empty name, after dropping the station only when it is connected |
| Onebiot.AccessPointIsFallback | src/ONEBIOT.cpp:100-112 | a failed station connect never forces a restart while an access point is enabled, and the access point is then tried; a joined station skips it; nothing restarts without enforcement |
| Onebiot.App.constructor | src/ONEBIOT.h:20-31 | a new application has every started and establish flag off, has not reset the chip, and has empty traces |
| Onebiot.App.GetConfig | src/ONEBIOT.cpp:64-66 | returns a by-value copy of the configuration object that shares the record |
| Onebiot.App.MountFS | src/ONEBIOT.cpp:68-71 | the mounted flag becomes the mount result |
| Onebiot.App.CouldEstablishWiFiConnection | src/ONEBIOT.cpp:73-75 | reports the `wifi_establish` flag of the shared record |
| Onebiot.App.CouldEstablishWiFiAP | src/ONEBIOT.cpp:77-79 | reports the `ap_establish` flag of the shared record |
| Onebiot.App.CouldEstablishMDNS | src/ONEBIOT.cpp:81-83 | reports the `dns_establish` flag of the shared record |
| Onebiot.App.IsSpiffsStarted | src/ONEBIOT.cpp:253-255 | reports the mounted flag that the stage model tracks |
| Onebiot.App.IsWifiStarted | src/ONEBIOT.cpp:257-259 | reports the station flag that the stage model tracks |
| Onebiot.App.IsApStarted | src/ONEBIOT.cpp:261-263 | reports the access point flag that the stage model tracks |
| Onebiot.App.IsDnsStarted | src/ONEBIOT.cpp:265-267 | reports the mDNS flag that the stage model tracks |
| Onebiot.App.IsWebserverStarted | src/ONEBIOT.cpp:269-271 | reports the web server flag that the stage model tracks |
| Onebiot.App.Restart | src/ONEBIOT.cpp:273-277 | fires the restart callback, then resets the chip, and the run is marked as ended |
| Onebiot.App.StartWiFi | src/ONEBIOT.cpp:129-159 | the result and the started flag are whether the station joined; calls and callback as in the pure station model |
| Onebiot.App.ReconnectWiFi | src/ONEBIOT.cpp:161-165 | rejoins only when the station was started and the status is not connected |
| Onebiot.App.StartAP | src/ONEBIOT.cpp:167-188 | the started flag is whether the AP is enabled and came up; calls and callback as in the pure access point model |
| Onebiot.App.StartMDNSNamed | src/ONEBIOT.cpp:190-201 | starts the responder under the given name, announcing HTTP on port 80 only when it began |
| Onebiot.App.StartMDNS | src/ONEBIOT.cpp:203-205 | uses the effective mDNS name |
| Onebiot.App.AddRequestHandler | src/ONEBIOT.cpp:207-214 | registers the handler and enables the web server exactly when station or AP is enabled |
| Onebiot.App.AddServeStatic | src/ONEBIOT.cpp:216-223 | serves the path exactly when station or AP is enabled, and then enables the web server |
| Onebiot.App.MountStage | src/ONEBIOT.cpp:86-90 | the state after the filesystem stage is the pure mount step |
| Onebiot.App.LoadStage | src/ONEBIOT.cpp:92-98 | on a mounted filesystem with the settings file present, loads it and reports load or failure; the record is the decoded file when it opens, and is otherwise unchanged |
| Onebiot.App.StationStage | src/ONEBIOT.cpp:100-106 | the state after the station stage is the pure station step |
| Onebiot.App.AccessPointStage | src/ONEBIOT.cpp:108-112 | the state after the access point stage is the pure access point step |
| Onebiot.App.MdnsStage | src/ONEBIOT.cpp:114-118 | the state after the mDNS stage is the pure mDNS step |
| Onebiot.App.WebServerStage | src/ONEBIOT.cpp:120-126 | the server begins with its not-found page exactly when a handler was registered |
| Onebiot.App.NetworkStages | src/ONEBIOT.cpp:100-126 | the state after the stages that follow the settings is the pure `NetworkSteps`, which stops at the first stage that resets the chip |
| Onebiot.App.AccessPointOnwardStages | src/ONEBIOT.cpp:108-126 | the state after the stages from the access point on is the pure `AccessPointOnward`, which stops at the first reset |
| Onebiot.App.MdnsOnwardStages | src/ONEBIOT.cpp:114-126 | the state after the mDNS and web server stages is the pure `MdnsOnward`; the web server is not begun after a reset |
| Onebiot.App.Start | src/ONEBIOT.cpp:85-127 | the state after `start` is the pure `Boot` of the state before, which stops at the first stage that resets the chip and does nothing on a chip already reset; the record is the decoded file exactly when the chip was running, the filesystem is mounted, and the file is there and opens |
| Onebiot.MountStageFacts | src/ONEBIOT.cpp:86-90 | a reset is asked for exactly when an unmounted filesystem fails to mount under enforcement, and is then the last call; the mount callback fires exactly when mounted |
| Onebiot.LoadStageFacts | src/ONEBIOT.cpp:92-98 | the load callback fires exactly when the file is found and opens |
| Onebiot.StationStageFacts | src/ONEBIOT.cpp:100-106 | the station stage resets the chip exactly under its restart condition, as its last call, and reports success exactly when the station joins |
| Onebiot.AccessPointStageFacts | src/ONEBIOT.cpp:108-112 | the access point stage runs only when the station is down and the AP is enabled, and resets the chip, as its last call, exactly when it then fails under enforcement |
| Onebiot.MdnsStageFacts | src/ONEBIOT.cpp:114-118 | mDNS begins under the effective name exactly when enabled, and the stage resets the chip, as its last call, exactly when it then fails under enforcement |
| Onebiot.WebServerStageFacts | src/ONEBIOT.cpp:120-126 | the server begins exactly when a handler was registered |
| Onebiot.BootFlags | src/ONEBIOT.cpp:85-112 | the filesystem flag after `start` is set by the mount; the station and AP flags are set by their own stages, and only when no earlier stage reset the chip |
| Onebiot.BootServiceFlags | src/ONEBIOT.cpp:114-126 | the mDNS and web server flags after `start` are set by their own stages, and only when no earlier stage reset the chip |
| Onebiot.BootTraces | src/ONEBIOT.cpp:85-127 | `start` only appends to the two traces, stage by stage up to the first reset, and resets the chip exactly when some stage fails under enforcement |
| Onebiot.BootRestarts | src/ONEBIOT.cpp:85-127 | the chip is reset, and the restart callback fired, exactly when some stage fails under enforcement; the reset is then the last call and occurs once, and the callback is the last event and occurs once |
| Onebiot.BootServices | src/ONEBIOT.cpp:114-126 | mDNS begins exactly when enabled and no earlier stage reset the chip; the web server begins exactly when a handler was registered and no stage reset the chip |
| Onebiot.BootStorageCallbacks | src/ONEBIOT.cpp:86-98 | the mount callback fires exactly when the filesystem is mounted; the load callback fires exactly when it is mounted and the file is there and opens |
| Onebiot.FailedMountLoadsNothing | src/ONEBIOT.cpp:86-98 | when the filesystem is not mounted, `start` fires neither the load callback nor the load-failure callback |
| Onebiot.BootNetworkCallbacks | src/ONEBIOT.cpp:100-118 | the station, AP and mDNS callbacks of `start` fire exactly when those stages are reached, with no earlier reset, and succeed |
| Onebiot.App.Loop | src/ONEBIOT.cpp:239-251 | one poll rejoins a dropped station only when WiFi is enabled, serves clients only once the server runs, refreshes mDNS only once the responder runs, and does nothing after a chip reset |
| Onebiot.FirstAtLeastIsFirst | src/ONEBIOT.cpp:227-230 | the wait for network time stops at the first clock reading that reaches the threshold |
| Onebiot.App.InitializeTime | src/ONEBIOT.cpp:225-232 | configures time, ends with a timestamp at or past 1000000000 that is the first such reading, and fires the time callback with it |
| Onebiot.App.UpdateTime | src/ONEBIOT.cpp:234-237 | the stored and returned timestamp is the fresh reading |
| Requests.Server.Emit | src/utils/request/ONEBIOTRequestHandler.cpp:58 | one effect is appended to the server's log of sent effects |
| Requests.RequestHandler.constructor | src/utils/request/ONEBIOTRequestHandler.cpp:9 | the handler holds the given configuration object |
| Requests.RequestHandler.CanHandle | src/utils/request/ONEBIOTRequestHandler.cpp:11-13 | the base handler accepts nothing |
| Requests.RequestHandler.Handle | src/utils/request/ONEBIOTRequestHandler.cpp:15-17 | the base handler handles nothing |
| Requests.RequestHandler.SendUnauthorizeResponse | src/utils/request/ONEBIOTRequestHandler.cpp:23-25 | sends exactly the basic-authentication challenge |
| Requests.FindBookend | src/utils/request/ONEBIOTRequestHandler.cpp:63-72 | finds the first `%` at or after a position, or reports that there is none |
| Requests.ReadKey | src/utils/request/ONEBIOTRequestHandler.cpp:63-72 | the key is the text up to the closing `%`, and the read position is just past it, or at the end when it is not closed |
| Requests.SendSubstitution | src/utils/request/ONEBIOTRequestHandler.cpp:56-82 | a `%` flushes the pending text, then sends the processed key when it is closed |
| Requests.StreamBody | src/utils/request/ONEBIOTRequestHandler.cpp:46-99 | the read loop sends exactly the chunks of the pure streamer and returns its outcome |
| Requests.StreamStep | src/utils/request/ONEBIOTRequestHandler.cpp:52-92 | one character of the loop sends a prefix of what the pure streamer sends from that position, and what remains is the streamer from the next position; an unclosed `%` ends the stream with the failure |
| Requests.StreamChunks | src/utils/request/ONEBIOTRequestHandler.cpp:52-92 | the read loop as a whole: what it sent, followed by the end of the pure streamer for the pending text, is the whole stream; a failure is the whole stream |
| Requests.RequestHandler.SendAsTemplate | src/utils/request/ONEBIOTRequestHandler.cpp:27-100 | sends nothing when the file is missing or does not open; otherwise the headers, then the streamed chunks, and returns whether the stream ended well |
| Requests.StreamEmitsExpansion | src/utils/request/ONEBIOTRequestHandler.cpp:52-99 | the concatenation of the sent chunks is the text with each closed `%key%` replaced by `processor(key)`, up to an unclosed `%` |
| Requests.StreamOkIffBalanced | src/utils/request/ONEBIOTRequestHandler.cpp:74-98 | the stream succeeds exactly when the template holds an even number of `%` |
| Requests.LiteralChunksBounded | src/utils/request/ONEBIOTRequestHandler.cpp:84-90 | no literal chunk is longer than 100 bytes |
| Requests.FlushBeforeSubstitution | src/utils/request/ONEBIOTRequestHandler.cpp:56-82 | every substitution is sent right after a flush of the pending literal text |
| Requests.StreamEnding | src/utils/request/ONEBIOTRequestHandler.cpp:74-99 | a successful stream ends with the pending text and then the closing empty chunk; a failed one ends with flushed text and never reaches the closing call (an empty flush earlier sends the same `sendContent("")`) |
| Requests.PlainTextUnchanged | src/utils/request/ONEBIOTRequestHandler.cpp:52-99 | for a template without `%`, the concatenation of the sent chunks is the template, and the stream succeeds |
| Requests.UnterminatedFails | src/utils/request/ONEBIOTRequestHandler.cpp:74-78 | an unclosed `%` fails the stream after the text before it was sent |
| Requests.EmptyKey | src/utils/request/ONEBIOTRequestHandler.cpp:63-82 | for `%%` after any text without `%`, the concatenation of the sent chunks is that text, then the processor's value for the empty key, then the expansion of the rest of the template |
| Requests.DefaultProcessorRemovesBookends | src/utils/request/ONEBIOTRequestHandler.cpp:7 | with the default processor, the concatenation of the sent chunks of a balanced template is the template with its `%` characters removed |
| Requests.SendsAt | src/utils/request/ONEBIOTRequestHandler.cpp:58-96 | each chunk is sent as one `sendContent` of its text, in order |
| Requests.EmptyFlushAtBookend | src/utils/request/ONEBIOTRequestHandler.cpp:56-82 | a `%` met with nothing pending first sends `sendContent("")`, the call that also ends the body; a closed key then sends its value and more calls follow, and an unclosed one fails with only that empty call sent |
| Requests.AdjacentKeysSendEmpty | src/utils/request/ONEBIOTRequestHandler.cpp:56-82 | a key directly after a closed key makes the third call `sendContent("")`, with more calls after it when the stream succeeds |
| Requests.Authorized | src/utils/request/ONEBIOTRequestHandler.cpp:19-21 | a request is accepted exactly when it presents basic credentials equal to the given user and password, and never without credentials |
| Requests.RequestHandler.Authenticate | src/utils/request/ONEBIOTRequestHandler.cpp:19-21 | the request presents exactly the user and password stored in the shared record |
| Commands.AcceptsExactly | src/utils/request/ONEBIOTCmdRequestHandler.cpp:26-55 | the handler accepts exactly the twelve (method, path) pairs of its table and GET on `/cmd/option/` followed by a non-empty name; no table path starts with the option prefix |
| Commands.FixedPathsAreNotOptions | src/utils/request/ONEBIOTCmdRequestHandler.cpp:13-22 | no fixed route path starts with `/cmd/option/` |
| Commands.AcceptedIsDispatched | src/utils/request/ONEBIOTCmdRequestHandler.cpp:57-90 | every accepted request reaches a callback in `handle`, an option path the option callback |
| Commands.CmdRequestHandler.constructor | src/utils/request/ONEBIOTCmdRequestHandler.h:11 | the handler's base holds the given configuration object, sharing its record; no option name and no response yet |
| Commands.CmdRequestHandler.CanHandle | src/utils/request/ONEBIOTCmdRequestHandler.cpp:26-55 | the answer is the route table's, and a GET option path keeps its suffix as the option name even when the suffix is empty |
| Commands.OptionNameReachesHandle | src/utils/request/ONEBIOTCmdRequestHandler.cpp:47-54 | an option path is accepted exactly when its suffix is non-empty, and the kept name is that suffix |
| Commands.CmdRequestHandler.Handle | src/utils/request/ONEBIOTCmdRequestHandler.cpp:57-101 | without the stored credentials only the challenge is sent and nothing changes; otherwise the route's callback runs, and a non-empty response is sent as JSON with status 200, followed by the restart signal for the reset route |
| Commands.CmdRequestHandler.RunRoute | src/utils/request/ONEBIOTCmdRequestHandler.cpp:66-90 | the dispatched callback leaves the route's response, record and save |
| Commands.CmdRequestHandler.RunSettingsRoute | src/utils/request/ONEBIOTCmdRequestHandler.cpp:75-85 | the credentials, WiFi, AP and DNS routes leave the response, record and saved file that the route model gives |
| Commands.CmdRequestHandler.Reply | src/utils/request/ONEBIOTCmdRequestHandler.cpp:92-100 | a non-empty response is sent as JSON with status 200 after the CORS header, then the restart signal when requested, and the result says whether anything was sent |
| Commands.RestartSignalledLast | src/utils/request/ONEBIOTCmdRequestHandler.cpp:92-98 | a reply is the CORS header, then the JSON with status 200, then the restart signal exactly when requested |
| Commands.RoutesAnswer | src/utils/request/ONEBIOTCmdRequestHandler.cpp:103-366 | every dispatched route answers a document with `success`, except a settings update without arguments |
| Commands.EmptySettingsPostIsIgnored | src/utils/request/ONEBIOTCmdRequestHandler.cpp:165-253 | a WiFi, AP or DNS update without form arguments sends nothing, changes nothing and saves nothing |
| Commands.CmdRequestHandler.CredentialsCallback | src/utils/request/ONEBIOTCmdRequestHandler.cpp:109-127 | the record and the file afterwards are the credentials outcome of the record before |
| Commands.CmdRequestHandler.StoreCredentials | src/utils/request/ONEBIOTCmdRequestHandler.cpp:117-121 | both submitted values go through the user setter, and the file is rewritten when either changed the record |
| Commands.CredentialsRejected | src/utils/request/ONEBIOTCmdRequestHandler.cpp:113-115 | an empty user or password leaves the record as it was, saves nothing and answers the refusal |
| Commands.CredentialsAsWritten | src/utils/request/ONEBIOTCmdRequestHandler.cpp:116-125 | with both values present the user field holds the submitted password, the password field is kept, and a save happens unless both values equal the stored user |
| Commands.CredentialsPasswordNeverChanges | src/utils/request/ONEBIOTCmdRequestHandler.cpp:118-119 | no request to the credentials route changes the stored password |
| Commands.WiFiListFacts | src/utils/request/ONEBIOTCmdRequestHandler.cpp:129-163 | a listing always has exactly five entries, those of the first indices; a running, failed or empty scan has its own message; the scan is deleted only after a listing |
| Commands.ListNetworks | src/utils/request/ONEBIOTCmdRequestHandler.cpp:143-151 | the listing loop makes one entry per index below five from what the radio reports there |
| Commands.CmdRequestHandler.WiFiListCallback | src/utils/request/ONEBIOTCmdRequestHandler.cpp:129-163 | the response and the radio calls are those of the listing model |
| Commands.CmdRequestHandler.WiFiCallback | src/utils/request/ONEBIOTCmdRequestHandler.cpp:165-198 | the record and the file afterwards are the WiFi route's outcome |
| Commands.CmdRequestHandler.StoreWiFi | src/utils/request/ONEBIOTCmdRequestHandler.cpp:188-191 | the three station settings are stored and the file is rewritten for the new record |
| Commands.CmdRequestHandler.ApCallback | src/utils/request/ONEBIOTCmdRequestHandler.cpp:200-230 | the record and the file afterwards are the AP route's outcome |
| Commands.CmdRequestHandler.StoreAp | src/utils/request/ONEBIOTCmdRequestHandler.cpp:220-223 | the three access point settings are stored and the file is rewritten for the new record |
| Commands.CmdRequestHandler.DnsCallback | src/utils/request/ONEBIOTCmdRequestHandler.cpp:232-253 | the record and the file afterwards are the DNS route's outcome |
| Commands.CmdRequestHandler.StoreDns | src/utils/request/ONEBIOTCmdRequestHandler.cpp:244-246 | the name and, as written, the access point flag are stored and the file is rewritten for the new record |
| Commands.WiFiPostFacts | src/utils/request/ONEBIOTCmdRequestHandler.cpp:183-195 | a WiFi update with form arguments stores exactly the SSID, password and establish flag, saves even when nothing changed, and answers the saved message |
| Commands.ApPostFacts | src/utils/request/ONEBIOTCmdRequestHandler.cpp:215-227 | an AP update with form arguments stores exactly the AP SSID, password and establish flag, saves even when nothing changed, and answers the saved message |
| Commands.DnsPostSetsApEstablish | src/utils/request/ONEBIOTCmdRequestHandler.cpp:243-251 | the DNS update stores the name and sets the AP flag from `dns_establish`; the mDNS flag never changes |
| Commands.DnsReadBack | src/utils/request/ONEBIOTCmdRequestHandler.cpp:233-238 | the DNS read-back answers the effective name |
| Commands.CmdRequestHandler.OptionCallback | src/utils/request/ONEBIOTCmdRequestHandler.cpp:323-366 | answers the option read-back for the kept name |
| Commands.OptionRedaction | src/utils/request/ONEBIOTCmdRequestHandler.cpp:323-366 | the four secret names answer `<secure_value>`, the three plain names their values, and any other name `<unknown_value>` with `success` false |
| Commands.OptionSecretsDoNotLeak | src/utils/request/ONEBIOTCmdRequestHandler.cpp:323-366 | for every name but the three plain ones, the answer is the same whatever the record holds |

## Left out

- JSON text. Parsing and printing are a pair of functions (`Json.JsonCodec`). The round trips assume that printing then parsing gives the document back. The ArduinoJson 512-byte buffer limit is not modelled.
- Raw JSON values. `Json.Json` has no raw-text value. So ArduinoJson 5's reading of an unquoted `1` as raw text, for which `root["wifi_establish"] == "1"` at src/utils/config/ONEBIOTConfig.cpp:227 holds, is not modelled; under that reading the flags survive a save and a load.
- The hardware and the network: the radio, the mDNS responder, the HTTP transport, the SPIFFS internals and the clock. What they answer is a parameter (`Onebiot.BootEnv`, `Commands.Device`, the `openOk`/`writeOk` arguments). Their calls are only recorded in traces.
- The contents of the WiFi and AP read-backs and of the three statistics routes. Each is a JSON object supplied with the device state.
- The conversion of a form value to a flag. The settings routes pass a `String` where a `bool` is expected. That conversion is the uninterpreted function `Commands.CmdRequestHandler.asBool`.
- The return value of the command callbacks. `handle` ignores it; it matches whether the callback wrote a response.
- What follows a chip reset. The model stops at the reset (`Onebiot.App.restarted`). The reboot that follows, which runs the sketch again from the start, is not modelled.
- Mount state of the filesystem. `Spiffs.FileSystem` has no mount state; only the settings stage of `start` consults the mount result, through the application's mounted flag.
- Onebiot.App.InitializeTime: the wait for network time reads from a finite sequence of clock readings. Its caller must supply one that reaches the threshold; the firmware waits without bound.
- `_timestamp` starts uninitialised in the firmware. Here it is a constructor parameter of `Onebiot.App`.
- The serial banner, the ESP32/ESP8266 platform selection, and the `delay` calls.
- `ONEBIOTRequestHandler::reset`, which prints, waits and resets the chip. Nothing in the core calls it.
- The `establishWiFiConnection`, `establishWiFiAP` and `establishMDNS` setters are declared in `ONEBIOT.h` but not defined in `ONEBIOT.cpp`. They have no model, and the three flags they would set stay off.
- Text encoding of templates. A template file is a sequence of bytes, one model `char` per byte; a character that takes several bytes in UTF-8 is that many `char`s here, so the 100-byte flush falls where the firmware's does. Decoding the bytes into characters is not modelled.
- Header text: the template headers are effects (`Requests.TemplateHeaders`); their byte-level HTTP form is not modelled.
