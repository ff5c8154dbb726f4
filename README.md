# Water-tank receiver: telemetry ingestion and link supervision

This project models the receiver of a LoRa water-tank monitor and proves properties of that model.

The receiver listens to an RYLR998 radio module on a serial line. It turns each `+RCV=` frame from the sensor node into a tank reading, acknowledges the frame, and derives the water level, percentage and volume from a stored calibration. It also tracks the health of the radio link.

Beside that it supervises the Wi-Fi station. The station falls back to its own access point when it cannot join a network, and retries the network every five minutes. The retry is postponed while the radio is busy. A small web server lists the networks found by a scan as JSON and validates the settings forms before persisting them.

The modules, file by file:

- `platform.dfy` (`Platform`): the board as the program sees it.
  - The millisecond clock, with `millis()` reduced to 32 bits and `unsigned long` subtraction.
  - The serial line to the radio module, as pending input and written lines.
  - The `Preferences` key/value store.
- `text.dfy` (`Text`): the C and Arduino string routines the parser relies on.
  - `atoi`/`atol`, `atof` on fixed-point text, `"%d"`/`"%lu"`, `String::trim`.
  - `toCharArray` into a fixed buffer, and `strtok`.
- `config.dfy` (`Config`): the constants of `config.h` and the relations between them that the logic relies on.
- `tank_data.dfy` (`TankData`):
  - the `TankData` record and the level, percent and volume computation;
  - the calibration globals and their validation and persistence (class `Tank`).
- `lora_protocol.dfy` (`LoRaProtocol`): the radio link as pure functions over the state the radio path touches.
  - The command/response exchange with its 1 s deadline.
  - The two-level `strtok` frame decoder and the acknowledgment format.
  - The order in which a frame's effects happen, and the line-by-line processing of pending input.
  - The link state derivation, the configuration sequence, and the persisted radio settings.
- `lora_comm.dfy` (`LoRaComm`): the globals of `lora_comm.cpp` as class `LoRa`. Each routine is a method proved to produce exactly what the functions of `LoRaProtocol` describe.
- `wifi_supervisor.dfy` (`WiFiSupervisor`):
  - the Wi-Fi state machine, as transition functions and as class `WiFiStation` proved against them;
  - the saved network credentials.
- `scan_json.dfy` (`ScanJson`): the JSON answer of `handleScan`, including the escaping of network names.
- `web_forms.dfy` (`WebForms`): the five save handlers, the credential reset, and the MQTT and alert settings they persist.

Inputs the program gets from hardware or from code outside this model are parameters of the operations:
- `WiFi.status() == WL_CONNECTED` → `linkUp`;
- the success of `WiFi.softAP` → `apStarts`;
- `loraProcessing` → a parameter. It is declared but not defined in wifi_manager.cpp.
- The networks a scan reports → `found`, with the scan's return value as `scanResult`.
- The module's reply to each AT command → `reply` / `answer`.
- The fields of a web request → a map from field name to text.

`millis()` is the clock's tick count modulo 2^32. Time passes only in `delay`.

## Model

| member | source | states |
|---|---|---|
| Platform.Sub32 | Receiver/lora_comm.cpp:245 | `unsigned long` subtraction: the plain difference when no wrap occurred, the difference plus 2^32 otherwise |
| Platform.ElapsedSince | Receiver/lora_comm.cpp:98-101 | `millis() - start` measured `ms` after `start` is exactly `ms`, across a wrap of the counter too |
| Platform.Clock.Delay | Receiver/lora_comm.cpp:117 | `delay(ms)` advances the clock by exactly `ms` |
| Platform.SerialPort.Read | Receiver/lora_comm.cpp:103 | `Serial1.read()` yields the oldest pending byte and removes it, nothing else changes |
| Platform.SerialPort.PrintLine | Receiver/lora_comm.cpp:95 | `Serial1.println` appends one line to what was written and leaves pending input alone |
| Platform.SerialPort.ReadStringUntilNewline | Receiver/lora_comm.cpp:130 | `readStringUntil('\n')` returns the text before the first newline and consumes the newline; without one it returns all pending input |
| Platform.SplitLine | Receiver/lora_comm.cpp:130 | the returned line holds no newline; the input is the line, a newline and the rest, or the line alone when it has no newline |
| Platform.Preferences.Put | Receiver/tank_data.cpp:88-90 | a `put` stores one key and leaves every other key as it was |
| Platform.Preferences.Remove | Receiver/wifi_manager.cpp:51-52 | a `remove` drops one key and leaves every other key as it was |
| Text.AtoiOfDecimal | Receiver/lora_comm.cpp:162-163 | `atoi` of the decimal text of any integer gives back that integer |
| Text.AtoiOfNatDecimal | Receiver/lora_comm.cpp:182 | `atol` of the text `"%lu"` printed gives back the number printed, for numbers below 2^31 on the target (see Left out) |
| Text.AtofOfFixed | Receiver/lora_comm.cpp:181 | `atof` of `<whole>.<frac>` is the exact value whole + frac / 10^len(frac) |
| Text.CBuffer | Receiver/lora_comm.cpp:145-146 | `toCharArray` into 128 bytes keeps at most 127 characters and no NUL; a shorter NUL-free message is kept whole; a prefix is kept up to the first NUL |
| Text.Strtok | Receiver/lora_comm.cpp:152-156 | `strtok` returns a non-empty token free of delimiters, or NULL exactly when only delimiters remain; leading delimiters are skipped, so consecutive separators collapse |
| Text.StrtokToken | Receiver/lora_comm.cpp:152-155 | a token followed by a delimiter is returned as is, and the next call continues after the delimiter |
| Text.StrtokLast | Receiver/lora_comm.cpp:156 | a last token running to the end of the text is returned whole |
| Text.CContainsBeforeNul | Receiver/lora_comm.cpp:107 | `indexOf` of a NUL-free pattern finds exactly the occurrences before the reply's first NUL byte |
| Text.CContainsNeedsRoom | Receiver/lora_comm.cpp:107 | a non-empty pattern is only found in a reply at least as long |
| Text.TrimKeepsOut | Receiver/lora_comm.cpp:131 | `trim` adds no character the line did not hold |
| Config.ConstantsConsistent | Receiver/config.h:47-108 | stale < lost, sensor min < max, the default calibration is ordered and within the sensor range, the default capacity passes the fallback, the connect timeout is shorter than the retry interval, and the default port, thresholds, network id and address pass the form checks |
| TankData.NewRecord | Receiver/tank_data.h:16-30 | a fresh record has no valid data, no packets counted, and every number (time stamp and message id included) zero |
| TankData.WaterLevel | Receiver/tank_data.cpp:44-49 | with an ordered calibration the level lies in [0, range], equals max − raw inside the span, the full range at or above the full mark, and 0 at or below the empty mark |
| TankData.WaterPercent | Receiver/tank_data.cpp:52-56 | the percent always lies in 0..100, is 0 without a positive range, and is the truncated (level·100)/range for a level within the range |
| TankData.WaterVolume | Receiver/tank_data.cpp:32-37 | 0 litres without a positive range; otherwise litres·range = level·capacity, so the full capacity at a full level and 0 at an empty one |
| TankData.Recalculated | Receiver/tank_data.cpp:42-60 | the level, percent and volume are recomputed from the raw distance, and every other field of the record is left as it was |
| TankData.RecalculatedReadsOnlyRaw | Receiver/tank_data.cpp:42-60 | two records with the same raw distance get the same level, percent and volume: no other field is read |
| TankData.PercentNonIncreasing | Receiver/tank_data.cpp:49-53 | a larger reading never shows a higher percentage |
| TankData.PercentAtEnds | Receiver/tank_data.cpp:49-53 | a reading at or closer than the full mark shows 100%, one at or beyond the empty mark 0% |
| TankData.DefaultCalibrationExample | Receiver/tank_data.cpp:49-53 | 45 cm with the 30/120 calibration is a level of 75 cm and 83% |
| TankData.SavedCalibration | Receiver/tank_data.cpp:76-85 | the result is always ordered with a capacity of at least 1.0; the given pair is kept exactly when ordered, otherwise 30/120 replaces it; the capacity is kept exactly when at least 1.0, and is 942.5 otherwise |
| TankData.LoadAfterSave | Receiver/tank_data.cpp:65-69 | the calibration persisted by `saveTankSettings` is the one `loadTankSettings` reads back |
| TankData.DefaultsWhenNothingStored | Receiver/tank_data.cpp:65-69 | an empty store loads the default calibration, which validation keeps unchanged |
| TankData.Tank.constructor | Receiver/tank_data.cpp:15-19 | a zeroed record and the default calibration |
| TankData.Tank.CalculateWaterLevel | Receiver/tank_data.cpp:42-60 | the record becomes `Recalculated` from the old record and the calibration |
| TankData.Tank.LoadTankSettings | Receiver/tank_data.cpp:65-69 | the calibration becomes what the store holds, defaults where absent |
| TankData.Tank.InitializeTankSettings | Receiver/tank_data.cpp:24-27 | load, then the record's capacity equals the loaded capacity and nothing else in it changes |
| TankData.Tank.SaveTankSettings | Receiver/tank_data.cpp:74-94 | the calibration becomes the validated one, exactly that is persisted under the three keys, and the record's capacity follows it |
| LoRaProtocol.Scan | Receiver/lora_comm.cpp:101-118 | an exchange reads no more bytes than the reply has and than 100 polls allow |
| LoRaProtocol.ScanFirstVerdict | Receiver/lora_comm.cpp:101-114 | the exchange stops at the first byte after which the reply holds `+OK` or `+ERR`, and reports that marker (`+OK` first) |
| LoRaProtocol.ScanTimeoutMeansSilence | Receiver/lora_comm.cpp:101-122 | a timeout means no marker showed within the bytes read before the deadline |
| LoRaProtocol.Verdict | Receiver/lora_comm.cpp:107-114 | the reply read so far yields success, failure or nothing yet, never a timeout; the markers are searched only before the first NUL byte, as `indexOf` does |
| LoRaProtocol.NulHidesReply | Receiver/lora_comm.cpp:103-114 | a reply that starts with a NUL byte times out after the full second, whatever follows, because `indexOf` stops at the NUL |
| LoRaProtocol.CommandExchangeSpec | Receiver/lora_comm.cpp:101-122 | for the exchange `sendLoRaCommand` performs, polled from its first byte: a reported marker is the first one the reply shows, and the exchange times out exactly when no marker shows within the bytes read in time |
| LoRaProtocol.ScanStops | Receiver/lora_comm.cpp:102-114 | conversely, a first marker after byte j, read before the deadline, ends the exchange there, after j − 1 waits |
| LoRaProtocol.ScanTimesOut | Receiver/lora_comm.cpp:101-122 | no marker among the bytes read in time means a timeout after 1000 ms |
| LoRaProtocol.ScanIgnoresLateBytes | Receiver/lora_comm.cpp:101-118 | bytes after the hundredth cannot change the outcome |
| LoRaProtocol.CommandExchangeExamples | Receiver/lora_comm.cpp:101-122 | `+OK` is success after 3 bytes, `+ERR=4` failure after 4, silence a timeout after 1000 ms, and a `+OK` behind a NUL byte is never seen, so that reply times out too |
| LoRaProtocol.Classify | Receiver/lora_comm.cpp:184-187 | a reading is accepted exactly when its distance lies in 10..400, otherwise it is out of range |
| LoRaProtocol.ParseClassifies | Receiver/lora_comm.cpp:140-187 | every decoded frame carrying a reading is accepted exactly when its distance is plausible |
| LoRaProtocol.DecodeFieldsPresent | Receiver/lora_comm.cpp:152-166 | with sender, data, rssi and snr present, the frame is the data field decoded with the sender, rssi and snr read by `atoi`; the length field is ignored |
| LoRaProtocol.DecodeReadingPresent | Receiver/lora_comm.cpp:170-187 | with the four reading fields present, the reading is their `atoi`/`atof`/`atol` values, the id reduced to 32 bits, which matches the target only for ids below 2^31 (see Left out) |
| LoRaProtocol.OuterOfFields | Receiver/lora_comm.cpp:152-156 | five non-empty comma-free fields joined by commas come out of `strtok` as they went in |
| LoRaProtocol.InnerOfFields | Receiver/lora_comm.cpp:170-173 | four non-empty colon-free fields joined by colons come out of `strtok` as they went in |
| LoRaProtocol.ParseRcvLine | Receiver/lora_comm.cpp:140-166 | any comma- and NUL-free data field comes out of the outer decoding unchanged, with sender, rssi and snr read back from their decimals |
| LoRaProtocol.DecodeTankPayload | Receiver/lora_comm.cpp:166-187 | a complete TANK payload decodes to the reading it carries |
| LoRaProtocol.ReadBackId | Receiver/lora_comm.cpp:182 | an id printed with `%lu` and read back with `atol` is the same id, for ids below 2^31 on the target (see Left out) |
| LoRaProtocol.ParseSensorFrame | Receiver/lora_comm.cpp:140-187 | the sensor node's frame decodes to its reading: accepted when the distance is plausible, out of range otherwise |
| LoRaProtocol.ParseForeignFrame | Receiver/lora_comm.cpp:162-166 | a payload that is not `TANK:` yields only the signal figures |
| LoRaProtocol.ParseExample | Receiver/lora_comm.cpp:140-187 | `+RCV=1,20,TANK:45:80:3.70:1001,-60,7` is accepted from sender 1 with rssi −60, snr 7 and reading 45/80/3.70/1001 |
| LoRaProtocol.ParseOutOfRangeExample | Receiver/lora_comm.cpp:184-187 | the same frame with distance 5 is reported out of range |
| LoRaProtocol.AckRoundTrip | Receiver/lora_comm.cpp:209-220 | the acknowledgment reaches the sender's address, its length field equals the payload's length, and the payload carries the id back |
| LoRaProtocol.AckExample | Receiver/lora_comm.cpp:209-220 | the acknowledgment for id 1001 to sender 1 is `AT+SEND=1,8,ACK:1001` |
| LoRaProtocol.Apply | Receiver/lora_comm.cpp:158-199 | a frame either leaves pending input alone or, through the acknowledgment, discards all of it |
| LoRaProtocol.ApplyEffects | Receiver/lora_comm.cpp:158-199 | a malformed frame changes nothing; a frame without a complete `TANK:` reading changes only rssi and snr; an out-of-range reading also overwrites the raw distance, battery percent, voltage and message id, while the level, percent, litres, validity, time stamp, count, link and clock stay as they were; an accepted one is acknowledged to its sender first, then the level is computed, the time stamped after the acknowledgment, the packet counted and the flag set, with every reading field, rssi and snr taken from the frame and the capacity kept |
| LoRaProtocol.Step | Receiver/lora_comm.cpp:129-133 | every step consumes input, so the loop ends |
| LoRaProtocol.ProcessSpec | Receiver/lora_comm.cpp:128-135 | processing ends with no pending input |
| LoRaProtocol.AtMostOneAcceptedPerCall | Receiver/lora_comm.cpp:128-135 | one call accepts at most one frame: at most one acknowledgment and one packet; without an acknowledgment validity, time stamp and count are unchanged |
| LoRaProtocol.OnlyFramesMatter | Receiver/lora_comm.cpp:128-135 | input holding no `+` changes nothing but the pending input |
| LoRaProtocol.OutOfRangeKeepsDataValid | Receiver/lora_comm.cpp:179-187 | after a good frame, an out-of-range one leaves `dataValid` set while the raw distance leaves the sensor range |
| LoRaProtocol.DeriveState | Receiver/lora_comm.cpp:236-249 | Lost iff no hardware or data older than 900 s; Waiting iff hardware without data; Stale iff the age is in (600 s, 900 s]; Connected iff at most 600 s; never Starting |
| LoRaProtocol.DeriveStateExamples | Receiver/lora_comm.cpp:245-248 | exactly 600 s is Connected, exactly 900 s is Stale, and the age is measured across a counter wrap |
| LoRaProtocol.StateLabel | Receiver/lora_comm.cpp:254-261 | OK, Stale and Lost for their states, Wait for the other two, each label for exactly those states |
| LoRaProtocol.InitSetupSends | Receiver/lora_comm.cpp:49-85 | the probe goes first; a failed `AT` probe is the only command sent; after a good probe all three configuration commands go out whatever their answers; the hardware counts as present exactly when every command sent was answered `+OK`; set-up takes at least the 500 ms settling time |
| LoRaProtocol.LoadLinkAfterSave | Receiver/lora_comm.cpp:27-44 | the radio settings `saveLoRaSettings` persists are the ones `loadLoRaSettings` reads back, and no other key changes |
| LoRaProtocol.LinkDefaultsWhenNothingStored | Receiver/lora_comm.cpp:27-31 | an empty store loads the default radio settings |
| LoRaComm.LoRa.constructor | Receiver/lora_comm.cpp:15-22 | state Starting, no hardware, no new data, default radio settings |
| LoRaComm.LoRa.LoadSettings | Receiver/lora_comm.cpp:27-31 | the settings become what the store holds, defaults where absent |
| LoRaComm.LoRa.SaveSettings | Receiver/lora_comm.cpp:36-44 | the settings become the given ones and exactly they are persisted |
| LoRaComm.LoRa.Drain | Receiver/lora_comm.cpp:92 | pending input is emptied and nothing is written |
| LoRaComm.LoRa.SendCommand | Receiver/lora_comm.cpp:90-123 | pending input is dropped, the command written once, and the result, the bytes consumed and the time spent are those of `CommandExchange` on the reply |
| LoRaComm.LoRa.AwaitReply | Receiver/lora_comm.cpp:98-122 | the polling loop returns true exactly when the exchange ends in `+OK`, consumes the bytes it reports, and waits the time it reports |
| LoRaComm.LoRa.Initialize | Receiver/lora_comm.cpp:49-85 | the commands written, the hardware flag, the leftover input and the time are those of `InitSetup`; the state is Waiting with the hardware present and Lost without |
| LoRaComm.LoRa.ProcessData | Receiver/lora_comm.cpp:128-135 | the radio state becomes `ProcessSpec` of the old one |
| LoRaComm.LoRa.ProcessLine | Receiver/lora_comm.cpp:129-133 | one loop iteration is `Step` |
| LoRaComm.LoRa.ParseReceivedMessage | Receiver/lora_comm.cpp:140-204 | the radio state becomes `Apply` of the decoded frame |
| LoRaComm.LoRa.ApplyFrame | Receiver/lora_comm.cpp:158-199 | the effects happen as `Apply` orders them |
| LoRaComm.LoRa.UpdateState | Receiver/lora_comm.cpp:236-249 | the state becomes `DeriveState` of the hardware flag, the validity and the 32-bit age |
| LoRaComm.LoRa.SendAck | Receiver/lora_comm.cpp:209-231 | exactly the acknowledgment command is written, pending input is emptied, and 103 ms plus 1 ms per dropped byte pass |
| WiFiSupervisor.UpdateIdleUnlessConnecting | Receiver/wifi_manager.cpp:209 | `updateWiFiConnection` changes nothing unless connecting |
| WiFiSupervisor.UpdateLinkUp | Receiver/wifi_manager.cpp:213-218 | the link coming up gives Connected and resets the attempt count, whatever the elapsed time |
| WiFiSupervisor.UpdateTimeout | Receiver/wifi_manager.cpp:211-226 | without the link, nothing changes up to and including 20 s; strictly after, the access point is opened |
| WiFiSupervisor.AttemptTimesOutAfter | Receiver/wifi_manager.cpp:174-226 | d ms after an attempt started (its own waits included) it is still connecting exactly when d ≤ 20000, whatever the counter's value |
| WiFiSupervisor.OpenApStamps | Receiver/wifi_manager.cpp:232-259 | the access point is entered exactly when it starts, else the state is Disconnected; the retry is timed from the end of the function |
| WiFiSupervisor.CheckLinkLost | Receiver/wifi_manager.cpp:266-273 | a lost link with a saved network starts a new attempt at once, busy radio or not; without one the access point opens |
| WiFiSupervisor.CheckLeavesAlone | Receiver/wifi_manager.cpp:264-298 | Disconnected, Connecting and a healthy Connected are left as they are |
| WiFiSupervisor.ApRetryNeedsSsidAndInterval | Receiver/wifi_manager.cpp:276-280 | from the access point nothing happens without a saved network or before strictly more than 5 minutes |
| WiFiSupervisor.ApRetryStarts | Receiver/wifi_manager.cpp:290-296 | a due retry on a quiet radio waits 200 ms and starts an attempt |
| WiFiSupervisor.ApRetryDeferred | Receiver/wifi_manager.cpp:282-288 | a due retry on a busy radio, or with serial bytes pending, changes only the retry time stamp |
| WiFiSupervisor.DeferralShorterThanInterval | Receiver/wifi_manager.cpp:286 | the 30 s deferral is shorter than the 5-minute retry interval, so a deferred retry falls due before a fresh interval would |
| WiFiSupervisor.DeferralFallsDueAfter | Receiver/wifi_manager.cpp:286 | after a deferral the retry falls due again exactly when more than 30 s have passed, across a counter wrap too |
| WiFiSupervisor.ApRetryWaitsInterval | Receiver/wifi_manager.cpp:276-280 | within 5 minutes of the access point starting, a check changes nothing |
| WiFiSupervisor.WiFiStation.constructor | Receiver/wifi_manager.cpp:18-23 | Disconnected, no credentials, all counters and time stamps zero |
| WiFiSupervisor.WiFiStation.StartConnection | Receiver/wifi_manager.cpp:174-203 | the globals and the clock become `BeginConnect` of the old ones |
| WiFiSupervisor.WiFiStation.StartApMode | Receiver/wifi_manager.cpp:232-259 | the globals and the clock become `OpenAp` of the old ones |
| WiFiSupervisor.WiFiStation.UpdateConnection | Receiver/wifi_manager.cpp:208-227 | the globals and the clock become `Update` of the old ones |
| WiFiSupervisor.WiFiStation.CheckStatus | Receiver/wifi_manager.cpp:264-299 | the globals and the clock become `Check` of the old ones, with busy meaning `loraProcessing` or pending serial input |
| WiFiSupervisor.WiFiStation.LoadCredentials | Receiver/wifi_manager.cpp:34-37 | the credentials become the stored ones, empty where absent |
| WiFiSupervisor.WiFiStation.SaveCredentials | Receiver/wifi_manager.cpp:42-45 | exactly the two credentials are persisted |
| WiFiSupervisor.WiFiStation.ClearCredentials | Receiver/wifi_manager.cpp:50-55 | both keys leave the store, every other key stays, and the credentials are empty |
| WiFiSupervisor.LoadCredentialsAfterSave | Receiver/wifi_manager.cpp:34-45 | saved credentials are read back unchanged and no other key changes |
| WiFiSupervisor.LoadCredentialsAfterClear | Receiver/wifi_manager.cpp:50-55 | after clearing, the next load finds no network, other keys survive, and the access point then never retries |
| ScanJson.ReplaceChar | Receiver/wifi_manager.cpp:425-426 | `String::replace` leaves a string without the pattern unchanged |
| ScanJson.ReplaceCharConcat | Receiver/wifi_manager.cpp:425-426 | replacement distributes over concatenation |
| ScanJson.EscapeIsPerChar | Receiver/wifi_manager.cpp:425-426 | replacing `\` first and `"` second escapes each character exactly once, as per-character escaping does |
| ScanJson.EscapeRoundTrip | Receiver/wifi_manager.cpp:425-428 | a JSON reader unescaping the name gets the scanned name back exactly |
| ScanJson.EscapedIsQuotable | Receiver/wifi_manager.cpp:425-428 | an escaped name holds no bare `"` and every backslash starts an escape, so it cannot end the string early |
| ScanJson.Kept | Receiver/wifi_manager.cpp:420 | filtering never adds networks |
| ScanJson.KeptMembers | Receiver/wifi_manager.cpp:420 | a network is kept exactly when it has a name |
| ScanJson.ScanEntries | Receiver/wifi_manager.cpp:416-432 | at most 15 entries, each named and among the reported results; when at most 15 named networks were found, all of them |
| ScanJson.JsonListStep | Receiver/wifi_manager.cpp:422-428 | a comma precedes an entry exactly when one was already emitted |
| ScanJson.HandleScan | Receiver/wifi_manager.cpp:403-432 | the loop builds exactly `{"n":[` + the comma-separated entries of the first 15 named networks + `]}`, none for a failed scan |
| ScanJson.ScanBodyExample | Receiver/wifi_manager.cpp:416-432 | a hidden network is skipped without a stray comma and a quote in a name is escaped |
| WebForms.CalibrationForm | Receiver/wifi_manager.cpp:578-589 | accepted exactly when min < max; then the pair is kept and the capacity is the typed one when at least 1.0, else the default; otherwise the min/max error |
| WebForms.HandleSaveSettings | Receiver/wifi_manager.cpp:575-593 | a rejected form changes neither the calibration, the record nor the store; an accepted one saves the validated calibration |
| WebForms.LoraForm | Receiver/wifi_manager.cpp:852-868 | accepted exactly when the frequency is non-empty and at least 100000000 and both ids are in 0..255; then the settings are the form's |
| WebForms.LoraFormRejectsInOrder | Receiver/wifi_manager.cpp:857-868 | the frequency is checked first, the network id second, the address third, and the first failure names the error |
| WebForms.DefaultLinkPassesForm | Receiver/config.h:74-76 | the shipped radio settings, typed into the form, are accepted as they are |
| WebForms.HandleLoraSave | Receiver/wifi_manager.cpp:849-878 | a rejected form changes nothing; an accepted one persists exactly the form's settings, the next load returns them, and the board restarts |
| WebForms.MqttForm | Receiver/wifi_manager.cpp:765-778 | rejected exactly when enabled with no server; otherwise the fields as typed, with a port outside 1..65535 replaced by 1885 |
| WebForms.LoadMqttAfterSave | Receiver/mqtt_handler.cpp:28-45 | saved broker settings read back unchanged; an empty store gives the defaults |
| WebForms.MqttSettings.constructor | Receiver/mqtt_handler.cpp:17-21 | the broker globals start at their defaults |
| WebForms.MqttSettings.Load | Receiver/mqtt_handler.cpp:28-34 | the globals become the stored values, defaults where absent |
| WebForms.MqttSettings.Save | Receiver/mqtt_handler.cpp:39-45 | exactly the five globals are persisted |
| WebForms.HandleMqttSave | Receiver/wifi_manager.cpp:762-785 | a rejected form still overwrites the globals with the form's fields but persists nothing; an accepted one sets and persists the validated settings |
| WebForms.AlertsForm | Receiver/wifi_manager.cpp:950-961 | both thresholds end in 0..100, as typed exactly when they already were, else 20 |
| WebForms.LoadAlertsAfterSave | Receiver/wifi_manager.cpp:60-75 | saved alert settings read back unchanged; an empty store gives the defaults |
| WebForms.AlertSettings.constructor | Receiver/wifi_manager.cpp:26-29 | the alert globals start at their defaults |
| WebForms.AlertSettings.Load | Receiver/wifi_manager.cpp:60-65 | the globals become the stored values, defaults where absent |
| WebForms.AlertSettings.Save | Receiver/wifi_manager.cpp:70-75 | exactly the four globals are persisted |
| WebForms.HandleAlertsSave | Receiver/wifi_manager.cpp:947-968 | never rejects; the globals become the clamped form and exactly that is persisted |
| WebForms.HandleConnect | Receiver/wifi_manager.cpp:450-472 | an empty network name is refused and nothing changes; otherwise both credentials are set and persisted, the next load returns them, and the board restarts |
| WebForms.HandleReset | Receiver/wifi_manager.cpp:970-975 | both credential keys are removed, the next load finds none, and the board restarts |

## Left out

- Display, LEDs, the MQTT client's network traffic, the HTML page generators, route registration, `handleData` and `startWiFiConnectionBlocking` are not part of this model. They are presentation, network I/O, or an animation loop around the same transitions as `startWiFiConnectionNonBlocking`.
- `yield()` and watchdog feeding are no-ops. `ESP.restart()` is a returned `restart` flag, and the 500 ms / 1000 ms waits before it are not modelled.
- Floating point is real arithmetic: `waterLiters`, `batteryVoltage` and the tank capacity carry no rounding. `atof` handles fixed-point text only, with no exponent, infinity or NaN.
- `TankData.WaterLevel`: `MAX_DISTANCE_CM - MIN_DISTANCE_CM` and `MAX_DISTANCE_CM - rawDistance` are unbounded, while the source computes them in 32-bit `int` and can overflow on extreme calibrations.
- `TankData.WaterPercent`: `waterLevel * 100` is unbounded. In the source it overflows 32-bit `int` once the level exceeds 21474836 cm, which a calibration saved through the web form (for example 0/30000000) allows. The model then still gives the true percentage.
- `LoRaProtocol.ApplyEffects`: `packetsReceived` is an unbounded count, so its `int` overflow after 2^31 accepted frames is not modelled.
- `Text.Atoi`: the result is unbounded, while C `atoi`/`atol` overflow on inputs outside their type's range.
- `LoRaProtocol.ReadBackId`: the target's `atol` is `strtol`, which saturates at 2147483647, so a message id of 2^31 or more is read back as 2147483647 there; the model reads it back unbounded and reduces it modulo 2^32. The same holds for `Text.AtoiOfNatDecimal` and `LoRaProtocol.DecodeReadingPresent`.
- `WiFiSupervisor.Check`: `wifiRetryCount` is an unbounded integer, so its `int` overflow after 2^31 attempts is not modelled.
- The hardware calls of the Wi-Fi state machine (`WiFi.disconnect`, `WiFi.mode`, `WiFi.begin`, `WiFi.softAPConfig`, `WiFi.softAPdisconnect`, `WiFi.setSleep`) have no effect beyond the time their surrounding `delay` calls take.
- In `handleScan`, the temporary switch to AP+STA mode, its restore, the scan itself, `scanDelete` and the delays are not modelled. The model starts from what the scan reported.
- `ScanJson.HandleScan`: names are escaped for `\` and `"` only, as the source does. Control characters, which section 7 of RFC 8259 also requires to be escaped, pass through unchanged.
- Web replies are an `ok` flag and a message, not the literal JSON text the handler sends.
- `LoRaComm.LoRa.SendCommand`: the whole reply is on the line once the command is written. A reply trickling in over the 1 s window is not modelled.
- `LoRaComm.LoRa.SendAck`: the module's own `+OK` to the `AT+SEND`, which arrives during the 100 ms wait, is part of the pending input that is discarded. Its timing within the wait is not modelled.
- `Platform.SerialPort.ReadStringUntilNewline`: the 1 s timeout of `readStringUntil` is not modelled. Pending input is complete when it is read.
- `getWiFiState` is a plain accessor (`WiFiSupervisor.WiFiStation.GetWiFiState`) and carries no contract.
- Where the code and its documentation disagree, the model follows the code:
  - `sendAck` reads and drops everything pending, so frames queued behind an accepted frame in the same `processLoRaData` call are lost, not processed.
  - An out-of-range frame overwrites the raw distance, battery and id while `dataValid` stays set (`LoRaProtocol.OutOfRangeKeepsDataValid`).
  - `saveTankSettings` replaces an unordered pair with the defaults rather than keeping the previous calibration. `handleSaveSettings` rejects such a pair before reaching it.
  - `handleMqttSave` overwrites the running broker settings before it rejects a form.
  - Only the retry from the access point waits for a quiet LoRa radio. The reconnect after a lost link (`WiFiSupervisor.CheckLinkLost`) and the switch to the access point after a connection timeout (`WiFiSupervisor.UpdateTimeout`) switch the Wi-Fi mode at once, even while a frame is being processed.
