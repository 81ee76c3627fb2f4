# Wildlife-monitoring gateway and camera conversion, modelled in Dafny

The system is a home-built wildlife monitor. Camera nodes take a frame, turn it into a
96x96 greyscale image for an on-device classifier, and report telemetry, intrusions and
registrations over MQTT. A Go gateway receives these events and keeps a registry of
live clients. It matches each telemetry event against user-defined range rules, keeps a
log of triggered alerts for its web front end, and dispatches named callbacks. These
callbacks publish species alerts back to a device or ask a backup image classifier for
a label.

This project models:

- the gateway's event router;
- the rule evaluator `matchRuleAndExecuteCallback`;
- the client registry with its registration and liveness check;
- the alert log with its renumbering read and index-based dismissal;
- the callback table `StubStorage` and the dispatcher `executeCallback`;
- the classifier-label switch and the species callbacks' topic and payload strings;
- `getDeviceId`;
- the firmware's RGB565-to-greyscale loop `GetImage`.

Modules follow the program's structure:

| module | file | contents |
|---|---|---|
| `Wrappers` | wrappers.dfy | `Option` |
| `Messages` | messages.dfy | decoded JSON values and Go's checked field assertions |
| `Registry` | registry.dfy | `ClientInfo`, registration upsert, health-check survival over monitor cycles |
| `Strconv` | strconv.dfy | `strconv.Atoi` on a 64-bit platform, with a reference decimal rendering `Itoa` to state its round trip |
| `AlertLog` | alert_log.dfy | alerts, renumbering, the dismiss decision and splice |
| `Callbacks` | callbacks.dfy | handler arities, `executeCallback`, label switch, species topic and payload |
| `Rules` | rules.dfy | one rule against one event (`Judge`), a whole pass (`Evaluate`), and its effects |
| `Gateway` | gateway.dfy | class `Gateway` with the shared state `clientData`, `activeAlerts` and a dispatch log, and the handlers as methods |
| `DeviceId` | device_id.dfy | the hardware-address pattern and `getDeviceId` |
| `Camera` | camera.dfy | channel extraction, the grey value, and `GetImage` over an `array` |

Go panics modelled as a crash outcome that changes nothing:

- unchecked type assertions on a decoded payload;
- `executeCallback` on a name not in `StubStorage`: `f.Type()` is applied to the zero
  `reflect.Value` before anything is called.

The process dies at that point in reality.

The goroutines started by `go executeCallback(...)` are modelled as ordered appends to a
dispatch log. Running a logged dispatch is `Callbacks.Execute`, which describes the
handler's actions (publish, classifier request, further dispatch) rather than performing
them.

Behaviour of the code worth knowing:

- A rule whose trigger is neither `inside_range_trigger` nor `outside_range_trigger` and
  whose parameter is in the payload ends the whole pass with an error
  (gateway/main.go:548-550). Rules after it are never looked at.
- `executeCallback` on a name missing from `StubStorage` panics rather than returning an
  error (gateway/main.go:662-663).
- The only trigger strings are `inside_range_trigger` and `outside_range_trigger`
  (gateway/main.go:538, 543).
- The label switch of `yolo_post_classification` calls `executeCallback` with no
  argument (gateway/main.go:594-604). Every registered handler takes one, so every such
  call fails the argument-count check and no species alert ever follows a classification.
- The species payload ends in `}} }`: it closes one more brace than it opens
  (gateway/main.go:616).
- A telemetry event is matched against the rules even when saving it failed
  (gateway/main.go:114-116).

## Model

| member | source | states |
|---|---|---|
| Messages.StringField | gateway/main.go:446-449 | a string field is read exactly when the key is present with a string value, which is where `.(string)` does not panic |
| Messages.NumberField | gateway/main.go:429 | a `float64` field is read exactly when the key holds a number |
| Messages.ObjectField | gateway/main.go:449 | a nested object is read exactly when the key holds an object |
| Registry.Upsert | gateway/main.go:452-456 | the registered id maps to the new record, every other entry is unchanged, the key set grows by at most that id, and the size is unchanged on re-registration |
| Registry.AfterCyclesExactly | gateway/main.go:462-499 | over consecutive monitor cycles, a client stays registered exactly when every cycle's probe of that client answered 200, and a survivor's record is unchanged |
| Registry.AlwaysHealthyStays | gateway/main.go:471-499 | a client whose probe always answers 200 is never evicted |
| Registry.OneFailureEvicts | gateway/main.go:480-494 | one transport error or non-200 answer in any cycle evicts the client for good |
| Strconv.Atoi | gateway/main.go:230 | a parsed value lies in the 64-bit int range and comes from an optional sign followed by at least one digit and nothing else |
| Strconv.AtoiExactly | gateway/main.go:230 | Atoi succeeds exactly on an optional sign followed by one or more digits whose signed value is in the 64-bit range, and then returns that value |
| Strconv.AtoiExamples | gateway/main.go:230-233 | "+7" and "007" read as 7 and "-12" as -12; "1x", "-", "" and " 1" are refused |
| Strconv.AtoiItoa | gateway/main.go:230 | Atoi reads back every 64-bit int rendered in decimal |
| AlertLog.Renumbered | gateway/main.go:208-210 | every alert's Id equals its position, the length and every other field are unchanged |
| AlertLog.RenumberedIdempotent | gateway/main.go:205-218 | two alert reads leave the log as one read does |
| AlertLog.Decide | gateway/main.go:221-240 | a rejection reason is one of the two 400 messages, and it is "Missing index parameter" exactly when the parameter is empty |
| AlertLog.DecideRemovesExactlyValidIndices | gateway/main.go:229-240 | a dismissal goes through exactly when the parameter parses as an integer in [0, len), and it removes that index |
| AlertLog.RemoveAt | gateway/main.go:243 | the splice drops exactly element i: one shorter, earlier elements in place, later ones shifted down by one, the removed alert is the only one missing from the multiset |
| AlertLog.DismissShiftsLaterIds | gateway/main.go:208-210 | after dismissing position i, the next read shows each later alert one position lower with its new Id |
| Callbacks.ClientOfAlertTopic | gateway/main.go:613 | the per-client alert topic determines the client id |
| Callbacks.LabelCallback | gateway/main.go:592-607 | a label maps to a callback exactly for fox, bear, wolf, timber_wolf, crocodile and deer; it maps to a registered one-argument species handler; that handler announces the label's own species, with timber_wolf announced as wolf |
| Callbacks.Execute | gateway/main.go:661-673 | a name outside the table panics, an argument count different from the handler's arity runs nothing, and a handler only runs with exactly one argument |
| Callbacks.SpeciesCallbackPublishes | gateway/main.go:610-659 | a species handler given a client id publishes exactly one message, on that client's sub-topic |
| Callbacks.ClassifierFollowUpsFail | gateway/main.go:560-608 | the classifier bridge runs and never publishes; every dispatch it spawns fails the arity check |
| Callbacks.AlertPayloadBraces | gateway/main.go:616 | the species payload opens two braces and closes three |
| Rules.FiresExactly | gateway/main.go:520-551 | a rule fires exactly when it applies to the sender (wildcard or equal id), its parameter is present with a numeric value, and the value is inside the inclusive bounds or outside them as the trigger says; it fires with that value; an unknown trigger is hit exactly when the parameter is present |
| Rules.TriggersComplementary | gateway/main.go:538-547 | on a numeric parameter, exactly one of the two trigger kinds over the same bounds fires |
| Rules.StopIndex | gateway/main.go:548-551 | the stopping row is the first row with an unknown trigger on a present parameter or a crash; no earlier row is one |
| Rules.EvaluateCharacterized | gateway/main.go:514-557 | a pass fires the firing rows before the stopping row in row order, and ends completed, with the stopping row's trigger error, or in a crash |
| Rules.FiringsAreFiringRows | gateway/main.go:529-547 | each firing is a row of the table that fires with that value, and there are no more firings than rows |
| Rules.CrashLeavesNoFirings | gateway/main.go:524-534 | a pass that panics, or whose data is not an object, has fired nothing |
| Rules.SkippedRowIrrelevant | gateway/main.go:520-551 | a row that applies to another client, or whose parameter is absent (whatever its trigger), can be removed without changing the pass |
| Rules.EvaluateStops | gateway/main.go:548-551 | once a prefix of the rows ends the pass, the remaining rows change nothing |
| Rules.EffectsOfFirings | gateway/main.go:538-547 | firing k appends alert k (type "rule trigger", the sender, the pass's timestamp, a message starting with the parameter name) and dispatch k (the rule's callback with the sender id) |
| Rules.RuleDispatchesPassArity | gateway/main.go:541-546 | every dispatch of a rule pass carries exactly the sender id, so it passes the arity check, and it runs exactly when the callback is registered |
| Rules.InsideRangeExample | gateway/main.go:538-542 | a wildcard rule on an in-range value fires once and dispatches its callback with the sender |
| Rules.OutOfBoundsExample | gateway/main.go:538-542 | the same rule on a value above its upper bound does nothing |
| Gateway.RegistrationRecord | gateway/main.go:446-456 | a record is built exactly when client_id, device_type and data.ip are strings and data is an object, and it holds those three values |
| Gateway.Gateway.constructor | gateway/main.go:63-66 | the registry, the alert log and the dispatch log start empty |
| Gateway.Gateway.HandleMessage | gateway/main.go:96-140 | an unparsable payload is dropped; a missing or non-string event panics; an unknown event is ignored; a registration replaces the sender's entry by the upsert or panics on a malformed payload; a telemetry or intrusion event runs the rule pass, whatever the save returned, and appends its alerts and dispatches; failed assertions change no state |
| Gateway.Gateway.HandleRegistration | gateway/main.go:446-460 | the registry becomes the upsert of the payload's record, or stays as it was when an assertion panics |
| Gateway.Gateway.CheckClients | gateway/main.go:471-499 | one pass keeps exactly the clients whose probe of http://ip/healthz returned 200, adds none and alters none, in whatever order the map iterates |
| Gateway.Gateway.MatchRules | gateway/main.go:501-558 | the pass ends with the status of the rule pass, and the alert log and dispatch log are their old contents followed by the pass's alerts and dispatches, in firing order |
| Gateway.Gateway.MatchRow | gateway/main.go:514-532 | one row of the rule loop has exactly the effect and status of the one-row pass |
| Gateway.Gateway.MatchRule | gateway/main.go:529-553 | scanning the payload keys in any order appends exactly one alert and one dispatch when the rule fires, nothing otherwise, and reports an unknown trigger exactly when its parameter is present |
| Gateway.Gateway.ListAlerts | gateway/main.go:205-218 | the log is renumbered in place and returned |
| Gateway.Gateway.DismissAlert | gateway/main.go:221-247 | a missing, unparsable or out-of-range index answers 400 with its message and leaves the log unchanged; a valid one answers 200 and splices out exactly that alert |
| DeviceId.MatchesMacPatternIffShaped | gateway/main.go:676 | the anchored pattern, read group by group, accepts exactly the 17-character strings with ':' at positions 2, 5, 8, 11 and 14 and hex digits of either case elsewhere |
| DeviceId.GetDeviceId | gateway/main.go:675-688 | the suffix after the prefix is accepted exactly when it has the hardware-address shape; it is returned unchanged on success, and on failure the id is "" and the error quotes the suffix |
| DeviceId.RejectsShortExample | gateway/main.go:675-688 | a five-octet address is rejected |
| Camera.Channels | base-firmware/src/camera.cpp:121-125 | red and blue are at most 248 with their low three bits clear, green is at most 252 with its low two bits clear; red is bits 8-12 of the pixel, green bits 0-2 over bits 13-15, blue bits 3-7 |
| Camera.Grey | base-firmware/src/camera.cpp:134 | the weighted grey value minus 128 lies in [-128, 122], so it fits int8_t |
| Camera.GreyByte | base-firmware/src/camera.cpp:134-136 | the byte stored in the uint8_t buffer reads back, as int8_t, as the grey value |
| Camera.GreyRangeAttained | base-firmware/src/camera.cpp:134 | black reaches -128 and white reaches 122 |
| Camera.GetImage | base-firmware/src/camera.cpp:102-147 | the status is OK exactly when the camera is supported and a frame was captured; on error the buffer is untouched; on OK every index below 96*96 holds the grey byte of the input pixel at that index; nothing beyond 96*96 is written; width, height and channels are ignored |

## Left out

- SQLite persistence is not modelled. Rule rows are an input sequence and the telemetry
  save is a boolean outcome; the failing rules query and row scan are left out. So are
  `/_events`, `/_rules` and their table layouts.
- The `int64` truncation of `local_timestamp` is left out. Only that the field is a
  number matters, because its assertion can panic.
- MQTT connection, subscription and delivery are left out. A species callback's publish
  is recorded as a (topic, payload) action; QoS and retain flags are not modelled.
- HTTP server mechanics, templates, static files, the settings passthrough and the
  classifier's HTTP post are left out. The classifier is an oracle from IP address to
  label. The health probe is an oracle from a client id and its URL to the request's
  outcome, one request per client per cycle.
- The `http.Error` body format is not modelled. `DismissAlert` returns the status and
  the message; the trailing newline Go adds is not part of the model.
- Concurrency is not modelled: the monitor goroutine's 30-second loop, callbacks running
  concurrently with later events, and the unsynchronized map and slice accesses.
  `CheckClients` and the handlers run atomically.
- Reflection is replaced by a table from handler name to parameter count.
- `time.Now()` formatting and `strconv.FormatFloat` are parameters. A single timestamp
  `now` and a rendering function `render` stand for one rule pass's clock readings and
  number formatting.
- Gateway.Gateway.MatchRules: the JSON re-encoding of `data` and the `json.Unmarshal`
  inside the rule loop are not modelled. They cannot fail on a value that was just
  decoded, and a `data` that is not an object is modelled as the panic at the type
  assertion.
- Gateway.Gateway.HandleMessage: the `json.Marshal` error branch of the telemetry path
  is left out for the same reason.
- DeviceId.GetDeviceId: requires the prefix to be no longer than the path. The HTTP
  router only calls the handler for paths under its pattern.
- Camera.GetImage: requires the frame to hold at least 96*96 pixels. The source reads
  that many 16-bit values without checking `fb->len`; a shorter frame is undefined
  behaviour in C++.
- Camera.GetImage: requires the output buffer to hold at least 96*96 bytes. The source
  writes that many bytes into `image_data` without checking its size.
- Camera.GetImage: takes the frame as 16-bit values. Reading them from the byte buffer
  (little-endian on the target) is not modelled.
- Camera sensor configuration and frame-size switching are left out as hardware setup,
  as are returning the frame buffer, logging, LED flash and camera initialisation.
- gateway-nrf24/main.py, the radio-to-MQTT bridge, is not part of this model.
- gateway-yolo-inference/inference.py, the classifier service, is not part of this
  model beyond the oracle above.
