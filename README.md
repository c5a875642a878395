# mecha-grpc-server core, modelled in Dafny

This project models the sequential logic inside the device controllers and
gRPC services of the Mecha gRPC server:

- **Wi-Fi orchestration** (`Wifi`). The requests the network manager sends to
  the station daemon: scan, list the known networks, connect by ssid (reuse
  an entry or create one), remove by id, and resolve the current network.
  The daemon is an abstract `Daemon` class whose configured-network list,
  id counter, shutdown flag and request log change as requests are accepted.
  Each request is accepted unless the session has shut down or the daemon
  refuses it.
- **Battery uevent parser** (`PowerSupply`). The fold of `KEY=VALUE` lines
  into the power-supply record, with the `set_device`, `get_device` and
  `get_current` checks.
- **TrustZone controller** (`TrustCtrl`) and its gRPC service
  (`TrustZoneService`). Covers:
  - the key-type and key-size flags
  - the `{:#06X}` type argument
  - the argument vectors of every OPTIGA Trust M tool
  - the rules that turn a tool run and a file read into a result
  - the proto-integer decoders
- **CPU governor controller** (`CpuCtrl`) and its service (`CpuCtrlService`).
  The MHz-to-kHz frequency mapping, the cpufreq file names and the
  error-code choice.
- **Display brightness** (`Display`). The ≤ 244 check on writes and the
  trimmed `u8` parse on reads.
- **LED controller** (`Led`) and its service (`LedManager`). The colour
  decoding, and the write of "1" or "0" into exactly one colour's file.

The other modules hold shared code:

- `Common`: `Option` and `Result`.
- `Text`: Rust's `trim`, `lines`, `splitn(2, ..)` and `contains`.
- `Numbers`: Rust's integer `parse` and the `{}` and `{:#06X}` formats.
- `Files`: sysfs and device files as a path → content map held by a
  `FileStore` class. A fault parameter says whether `File::create` or the
  write fails.
- `Grpc`: a reply is a response or a `tonic::Status`.

The environment is passed in as parameters:

- Tool runs are `exec: seq<string> -> ToolRun`.
- File reads are `read: string -> Option<string>` or a `FileStore`.
- The `ifconfig` output is passed to `WifiStatus` as a string.

Where the design description and the code disagree, the model follows the
code:

- `current_wifi_network` gives the same `UnableToGetWifiDeviceStatus`
  error in two cases: when no known network is flagged current, and when the
  flagged network is missing from the scan. The design describes these as
  two distinct outcomes.
- Once the session is open, every connect failure surfaces as
  `UnableToConnectToWifiDevice` whichever step failed. A failure to open the
  session is `UnableToGetWifiDeviceStatus`.

## Model

| member | source | states |
|---|---|---|
| Text.Trim | battery_ctrl/src/power_supply.rs:65-66 | the result is a contiguous piece of the input with no whitespace at either end, and only whitespace was removed |
| Text.SplitOnce | battery_ctrl/src/power_supply.rs:64 | without the separator the whole text is the first part; otherwise text = before + separator + after, and before holds no separator |
| Text.Lines | battery_ctrl/src/power_supply.rs:63 | no line holds a newline, and the text is empty iff there are no lines |
| Text.LinesJoin | battery_ctrl/src/power_supply.rs:63 | for text without carriage returns, joining the lines with newlines gives the text back, less one final newline: the lines are exactly the newline-separated pieces |
| Text.Contains | network_manager/src/wifi/wifi.rs:25 | true iff the pattern occurs at some position |
| Numbers.ParseInteger | battery_ctrl/src/power_supply.rs:73-83 | digits, optionally after `+` (or `-` for a signed type), give their value when the type holds it and an error otherwise; empty text, a lone sign, any other first character and any non-digit later on are errors |
| Numbers.ShowNat | display_ctrl/src/display.rs:44 | decimal text: non-empty, all digits, no leading zero, and it denotes the number |
| Numbers.ShowInt | battery_ctrl/src/power_supply.rs:123 | decimal text of a signed value: a minus sign before the digits exactly when it is negative |
| Numbers.ParseShowInt | display_ctrl/src/display.rs:44-91 | parsing what `{}` printed gives back every value of the type |
| Numbers.FormatHex06 | trustzone_ctrl/src/trust_ctrl.rs:542 | `{:#06X}` of a u16 is "0x" plus exactly four upper-case hex digits whose value is the number, length 6 |
| Files.AfterWrite | led_ctrl/src/led.rs:81-86 | a failed create changes nothing; otherwise the path exists and holds the content, or "" after a failed write; every other file is unchanged |
| Files.FileStore.Overwrite | led_ctrl/src/led.rs:83-84 | the new map is the file map after create and write; create and write failures give distinct errors |
| Wifi.Renamed | network_manager/src/wifi/wifi.rs:303-305 | same length, ids and flags; exactly the networks with the id take the new ssid |
| Wifi.Without | network_manager/src/wifi/wifi.rs:400 | a network remains iff it was known and has another id; with no network of that id the list is unchanged |
| Wifi.StepKeepsIdsBelow | network_manager/src/wifi/wifi.rs:284-287 | every request keeps all network ids below the id `add_network` hands out next |
| Wifi.RunKeepsIdsBelow | network_manager/src/wifi/wifi.rs:252-333 | a whole run of requests keeps all network ids below the counter |
| Wifi.RunIssuesPrefix | network_manager/src/wifi/wifi.rs:303-331 | with `?` after each request, a run sends a prefix of its requests: all of them on success, otherwise up to the refused one, which is sent last |
| Wifi.FirstRefused | network_manager/src/wifi/wifi.rs:303-331 | the first refused request's position, or none iff no request is refused |
| Wifi.RunStopsAtFirstRefusal | network_manager/src/wifi/wifi.rs:303-331 | in an open session, a run sends exactly the requests up to and including the first refused one, and succeeds iff none is refused |
| Wifi.FirstWithSsid | network_manager/src/wifi/wifi.rs:274-275 | the position of the first known network with the ssid, or none iff none has it |
| Wifi.ConnectTraceShape | network_manager/src/wifi/wifi.rs:252-333 | connect starts with `get_networks`, and only its last request can be `shutdown` |
| Wifi.ReuseSelectsFirstMatch | network_manager/src/wifi/wifi.rs:274-281 | with a known network of that ssid, connect sends get, select of the first such network's id and shutdown, and never add, set ssid or set psk |
| Wifi.CreateStepsKeepIds | network_manager/src/wifi/wifi.rs:302-331 | configuring a network keeps the list's length and ids, and on success the network with that id carries the ssid |
| Wifi.CreateStepsOutcome | network_manager/src/wifi/wifi.rs:302-331 | the outcome of set ssid, set psk, select and shutdown, case by case: what was sent and the state after each refusal |
| Wifi.CreateTrace | network_manager/src/wifi/wifi.rs:283-332 | with no known network of that ssid, connect takes the create path |
| Wifi.CreateUsesNewId | network_manager/src/wifi/wifi.rs:284-332 | the create path sends get, add, set ssid, set psk, select and shutdown, in that order, all with the id add returned; on success the new network carries the ssid |
| Wifi.ConnectKeepsKnown | network_manager/src/wifi/wifi.rs:273-311 | with every id below the counter, connect leaves every previously known network exactly as it was, on the reuse path and the create path alike |
| Wifi.NoRollbackAfterAdd | network_manager/src/wifi/wifi.rs:303-331 | once `add_network` succeeded, the new network stays in the daemon whatever fails later |
| Wifi.GetNetworksFailureStopsConnect | network_manager/src/wifi/wifi.rs:255-271 | a refused `get_networks` is the only request sent, changes nothing, and is reported as UnableToConnectToWifiDevice |
| Wifi.FirstCurrent | network_manager/src/wifi/wifi.rs:162 | the position of the first known network flagged exactly "[CURRENT]", or none iff no network is |
| Wifi.FirstNamed | network_manager/src/wifi/wifi.rs:168-171 | the position of the first scan entry with the name, or none iff no entry has it |
| Wifi.ResolveCurrent | network_manager/src/wifi/wifi.rs:160-184 | found iff some scan entry is named like the first current-flagged network; the result is the first such entry |
| Wifi.WifiStatus | network_manager/src/wifi/wifi.rs:15-26 | true iff the `ifconfig` output contains "wlan0" |
| Wifi.Daemon.constructor | network_manager/src/wifi/wifi.rs:30-53 | a daemon with the given networks, counter, scan and refusals, the session open and the log empty; the caller gives a counter past every listed id, and the invariant IdsBelow holds |
| Wifi.Daemon.Open | network_manager/src/wifi/wifi.rs:30-53 | a session opens iff the daemon is reachable; opening clears the shutdown flag and changes nothing else |
| Wifi.Daemon.Issue | network_manager/src/wifi/wifi.rs:277-278 | the log grows by the request; the acceptance and the new state are those of one step; the invariant IdsBelow is kept |
| Wifi.Daemon.FetchNetworks | network_manager/src/wifi/wifi.rs:255 | `get_networks`: the known list when accepted, and no state change |
| Wifi.Daemon.FetchScan | network_manager/src/wifi/wifi.rs:89 | `get_scan`: the daemon's scan when accepted, and no state change |
| Wifi.Daemon.CreateNetwork | network_manager/src/wifi/wifi.rs:284-300 | `add_network`: returns the counter's old value when accepted, and the state is that of one step |
| Wifi.ConnectWifi | network_manager/src/wifi/wifi.rs:252-333 | the requests sent and the final state are those of running the connect plan; success iff the run succeeds; the error names the failing request, wrapped as the source wraps it |
| Wifi.ConnectNew | network_manager/src/wifi/wifi.rs:283-332 | the create branch behaves as running add then configure, select and shutdown with the counter's id |
| Wifi.SelectKnown | network_manager/src/wifi/wifi.rs:275-279 | the reuse branch behaves as running select then shutdown for the known id; a failure is passed on unwrapped |
| Wifi.Configure | network_manager/src/wifi/wifi.rs:302-332 | after a successful add, the requests behave as running set ssid, set psk, select and shutdown for the new id; a failed select is wrapped as a Wi-Fi error, the others are passed on |
| Wifi.WifiList | network_manager/src/wifi/wifi.rs:87-92 | runs get_scan then shutdown; returns the scan in daemon order iff both succeed, else the failing request |
| Wifi.KnownWifi | network_manager/src/wifi/wifi.rs:152-157 | runs get_networks then shutdown; returns the known list iff both succeed |
| Wifi.RemoveWifi | network_manager/src/wifi/wifi.rs:398-403 | runs remove_network(id) then shutdown; succeeds iff both are accepted |
| Wifi.ScanWirelessNetwork | network_manager/src/wifi/wifi.rs:28-85 | an unreachable daemon or any failed request gives UnableToGetWifiDeviceStatus; otherwise the scan |
| Wifi.GetKnownWifiList | network_manager/src/wifi/wifi.rs:94-150 | an unreachable daemon or any failed request gives UnableToGetWifiDeviceStatus; otherwise the known list |
| Wifi.CurrentWifiNetwork | network_manager/src/wifi/wifi.rs:160-185 | two sessions, known list then scan, with the scan made even when nothing is flagged; the result is ResolveCurrent of the two, and every failure is UnableToGetWifiDeviceStatus; on every path the log and the daemon's state are those of the sessions run |
| Wifi.ConnectWirelessNetwork | network_manager/src/wifi/wifi.rs:187-250 | an opened session runs the connect plan; any failure becomes UnableToConnectToWifiDevice; the id invariant is kept and no known network changes |
| Wifi.RemoveWirelessNetwork | network_manager/src/wifi/wifi.rs:336-396 | an opened session runs remove then shutdown; any failure becomes UnableToRemoveWifiDevice |
| Wifi.SessionOfTwo | network_manager/src/wifi/wifi.rs:87-92 | a request-then-shutdown session sends shutdown iff the first request succeeded, and succeeds iff neither is refused |
| Wifi.RemoveTakesOutId | network_manager/src/wifi/wifi.rs:398-403 | an accepted remove takes out exactly the networks with that id |
| PowerSupply.SplitLine | battery_ctrl/src/power_supply.rs:64-66 | the line splits at its first '='; key and value are trimmed; with no '=' the value is "" |
| PowerSupply.Entries | battery_ctrl/src/power_supply.rs:63-66 | one split entry per line, in order |
| PowerSupply.LastValue | battery_ctrl/src/power_supply.rs:63-87 | none iff no entry names the key; otherwise the value of an entry naming it, with no later entry naming it |
| PowerSupply.LastValueAppend | battery_ctrl/src/power_supply.rs:68-86 | adding a line changes the last value of its own key only |
| PowerSupply.DescribedAppend | battery_ctrl/src/power_supply.rs:68-86 | appending a line to the uevent text changes exactly the field its key names, and sets it from that line's value |
| PowerSupply.DescribedEmpty | battery_ctrl/src/power_supply.rs:46-61 | no lines give the default record: empty strings, zeros, false |
| PowerSupply.UnknownKeyIgnored | battery_ctrl/src/power_supply.rs:85 | a line with an unknown key leaves the record unchanged |
| PowerSupply.LastOccurrenceWins | battery_ctrl/src/power_supply.rs:63-87 | when a key repeats, the last line naming it decides its value |
| PowerSupply.AbsentKeyKeepsDefault | battery_ctrl/src/power_supply.rs:46-61 | a key no line names keeps "", 0 or false |
| PowerSupply.NumberInRangeIsRead | battery_ctrl/src/power_supply.rs:72-83 | a decimal value that fits the field's type is read as its number |
| PowerSupply.NumberOverflowIsZero | battery_ctrl/src/power_supply.rs:72-83 | a decimal value too large for the field's type is read as 0 |
| PowerSupply.NonNumericIsZero | battery_ctrl/src/power_supply.rs:72-83 | an empty value, a non-digit after the first character, a first character that is neither digit nor sign, or a minus for an unsigned field is read as 0 |
| PowerSupply.CapacityOverflowIsZero | battery_ctrl/src/power_supply.rs:75 | capacity "300" does not fit a u8 and reads as 0 |
| PowerSupply.NumberFieldOfLastLine | battery_ctrl/src/power_supply.rs:63-87 | a numeric field is the last value given for its key, read at the field's width or as 0 |
| PowerSupply.Assign | battery_ctrl/src/power_supply.rs:68-86 | one loop turn: the record becomes the one described by the lines so far plus this one. `present` is exactly value == "1"; numeric fields parse at their width or become 0 |
| PowerSupply.Battery.constructor | battery_ctrl/src/power_supply.rs:32-36 | both paths start empty |
| PowerSupply.Battery.Info | battery_ctrl/src/power_supply.rs:39-90 | on a readable file, the record the file's lines describe |
| PowerSupply.Battery.SetDevice | battery_ctrl/src/power_supply.rs:92-105 | an empty device gives FailedToOpenFile and keeps the path; otherwise the path becomes the device |
| PowerSupply.Battery.GetDevice | battery_ctrl/src/power_supply.rs:107-116 | fails with FailedToOpenFile iff the path is empty; otherwise returns it |
| PowerSupply.Battery.GetCurrent | battery_ctrl/src/power_supply.rs:119-133 | an unreadable file is an I/O error; otherwise the trimmed content parsed as i64, or InvalidDataFormat |
| PowerSupply.CurrentRoundTrip | battery_ctrl/src/power_supply.rs:123-124 | every i64 written in decimal is read back as itself |
| TrustCtrl.TwoDigitHex | trustzone_ctrl/src/trust_ctrl.rs:213-229 | a "0x" flag with two decimal digits is a byte flag of value 16·d1 + d2 |
| TrustCtrl.KeyTypeFlagIsBit | trustzone_ctrl/src/trust_ctrl.rs:213-220 | the flag of the k-th key type denotes 2^k |
| TrustCtrl.KeyTypeFlagsDistinct | trustzone_ctrl/src/trust_ctrl.rs:213-220 | distinct key types have distinct flags |
| TrustCtrl.KeySizeFlagValue | trustzone_ctrl/src/trust_ctrl.rs:222-229 | the key-size flags denote 0x03, 0x04, 0x05, 0x13, 0x15 and 0x16 |
| TrustCtrl.KeySizeFlagsDistinct | trustzone_ctrl/src/trust_ctrl.rs:222-229 | distinct key sizes have distinct flags |
| TrustCtrl.CertArgsRead | trustzone_ctrl/src/trust_ctrl.rs:53-158 | the cert tool's -r, -o, -w, -i and -c options carry the region, output file, oid and certificate file |
| TrustCtrl.KeygenArgsRead | trustzone_ctrl/src/trust_ctrl.rs:231-241 | keygen's options in order: -g oid, -t type flag, -k size flag, -o output |
| TrustCtrl.HexTypeArgRead | trustzone_ctrl/src/trust_ctrl.rs:537-630 | the hkdf and hmac -H argument is "0x" plus four upper-case hex digits denoting the type |
| TrustCtrl.SignArgs | trustzone_ctrl/src/trust_ctrl.rs:316-328 | seven fixed entries, then "-H" iff the input is to be hashed first |
| TrustCtrl.VerifyArgs | trustzone_ctrl/src/trust_ctrl.rs:396-408 | seven fixed entries, then "-H" iff the input is to be hashed first |
| TrustCtrl.OutputAfterSuccess | trustzone_ctrl/src/trust_ctrl.rs:258-290 | Ok iff the tool exited successfully and the output file was read; the value is its content; otherwise the method's code |
| TrustCtrl.StatusResult | trustzone_ctrl/src/trust_ctrl.rs:130-142 | Ok iff the tool exited successfully |
| TrustCtrl.FailedRunIgnoresFile | trustzone_ctrl/src/trust_ctrl.rs:345-374 | after a failed run the output file plays no part in the result |
| TrustCtrl.ReadTrustzoneCert | trustzone_ctrl/src/trust_ctrl.rs:51-101 | Ok iff the tool could be spawned and the file was read, whatever the exit status |
| TrustCtrl.ReadCertIgnoresExitStatus | trustzone_ctrl/src/trust_ctrl.rs:71-91 | a failing exit status still returns the output file's content |
| TrustCtrl.WriteTrustzoneCert | trustzone_ctrl/src/trust_ctrl.rs:104-152 | Ok iff the cert tool exits successfully; otherwise UnableToWriteTrustZoneCert |
| TrustCtrl.RemoveTrustzoneCert | trustzone_ctrl/src/trust_ctrl.rs:155-201 | Ok iff the cert tool exits successfully; otherwise UnableToRemoveTrustZoneCert |
| TrustCtrl.GenerateTrustzoneKey | trustzone_ctrl/src/trust_ctrl.rs:204-305 | the public key file's content iff keygen succeeds and the file reads; otherwise UnableToGenerateTrustZoneKey |
| TrustCtrl.SignTrustzoneData | trustzone_ctrl/src/trust_ctrl.rs:307-385 | runs a sign vector of the right shape; the signature file's content iff the run succeeds and the file reads |
| TrustCtrl.VerifyTrustzoneData | trustzone_ctrl/src/trust_ctrl.rs:387-451 | runs a verify vector of the right shape; "Verify Success." iff it exits successfully |
| TrustCtrl.ReadDevice | trustzone_ctrl/src/trust_ctrl.rs:42-47 | the device file's content when readable; otherwise UnableToReadTrustZoneCert |
| TrustCtrl.EncryptTrustzoneData | trustzone_ctrl/src/trust_ctrl.rs:453-474 | the encrypt device's content when readable, whatever the data |
| TrustCtrl.DecryptTrustzoneData | trustzone_ctrl/src/trust_ctrl.rs:477-498 | the decrypt device's content when readable, whatever the data |
| TrustCtrl.EncryptTrustzoneDataWithKey | trustzone_ctrl/src/trust_ctrl.rs:501-525 | the encrypt device's content when readable, whatever data and key |
| TrustCtrl.CipherIgnoresInput | trustzone_ctrl/src/trust_ctrl.rs:453-525 | results do not depend on the data or key passed in |
| TrustCtrl.DeriveTrustzoneKey | trustzone_ctrl/src/trust_ctrl.rs:527-608 | the derived key file's content iff hkdf succeeds and the file reads; otherwise UnableToDeriveTrustZoneKey |
| TrustCtrl.GenerateTrustzoneHmac | trustzone_ctrl/src/trust_ctrl.rs:611-693 | the hmac file's content iff the hmac tool succeeds and the file reads; otherwise UnableToGenerateTrustZoneHMAC |
| TrustZoneService.DecodeKeyType | sdk_server/src/services/trustzone_ctrl_service.rs:102-113 | a key type iff 0..5, and the k-th one |
| TrustZoneService.DecodeKeySize | sdk_server/src/services/trustzone_ctrl_service.rs:117-128 | a key size iff 0..5, and the k-th one |
| TrustZoneService.DecodeKeyTypeOrdinal | sdk_server/src/services/trustzone_ctrl_service.rs:102-108 | every key type is decoded from its own number |
| TrustZoneService.DecodeKeySizeOrdinal | sdk_server/src/services/trustzone_ctrl_service.rs:117-123 | every key size is decoded from its own number |
| TrustZoneService.ProtoKeyTypeFlag | sdk_server/src/services/trustzone_ctrl_service.rs:102-108 | proto key type k in 0..5 reaches keygen as the flag 2^k |
| TrustZoneService.Forward | sdk_server/src/services/trustzone_ctrl_service.rs:35-39 | Ok becomes a response carrying the value; an error becomes `Status::from_error` of it |
| TrustZoneService.ReadCertification | sdk_server/src/services/trustzone_ctrl_service.rs:22-41 | the certificate iff the tool starts and the file reads; otherwise the read error as a status |
| TrustZoneService.WriteCertificate | sdk_server/src/services/trustzone_ctrl_service.rs:44-67 | never a status; success iff the cert tool exits successfully |
| TrustZoneService.RemoveCertificate | sdk_server/src/services/trustzone_ctrl_service.rs:70-88 | never a status; success iff the cert tool exits successfully |
| TrustZoneService.GenerateKey | sdk_server/src/services/trustzone_ctrl_service.rs:91-145 | a bad key type gives "Invalid key type", checked before the size; a bad size gives "Invalid key size"; otherwise keygen's result |
| TrustZoneService.InvalidKeyRequestRunsNothing | sdk_server/src/services/trustzone_ctrl_service.rs:102-134 | an invalid type or size is refused without depending on any tool run or file |
| TrustZoneService.SignData | sdk_server/src/services/trustzone_ctrl_service.rs:147-173 | succeeds iff the sign tool, run with key, output, input and "-H" exactly when hashing, exits successfully and the output file reads; the reply is then that file's content, and otherwise UnableToSignTrustZoneData as a status |
| TrustZoneService.VerifyData | sdk_server/src/services/trustzone_ctrl_service.rs:176-205 | success always says "Verification Success.", iff the verify tool, run with public key, input, signature and "-H" exactly when hashing, succeeds |
| TrustZoneService.DeriveKey | sdk_server/src/services/trustzone_ctrl_service.rs:208-237 | a type outside u16 panics the handler; otherwise the controller's result |
| TrustZoneService.GenerateHmac | sdk_server/src/services/trustzone_ctrl_service.rs:240-267 | a type outside u16 panics the handler; otherwise the controller's result |
| CpuCtrl.FrequencyTextIsKilohertz | cpu_governor_ctrl/src/cpu_ctrl.rs:90-94 | each frequency text is the decimal form of its kHz value |
| CpuCtrl.FilesDistinct | cpu_governor_ctrl/src/cpu_ctrl.rs:30-96 | scaling_governor, scaling_setspeed and scaling_cur_freq are three distinct files for any base |
| CpuCtrl.CpuCtrl.constructor | cpu_governor_ctrl/src/cpu_ctrl.rs:21-26 | the base path is /sys/devices/system/cpu/cpu0/cpufreq |
| CpuCtrl.CpuCtrl.SetCpuGovernor | cpu_governor_ctrl/src/cpu_ctrl.rs:28-50 | "userspace" replaces the governor file; create and write failures give the path and governor codes |
| CpuCtrl.CpuCtrl.GetCpuGovernor | cpu_governor_ctrl/src/cpu_ctrl.rs:52-70 | the governor file's content, untrimmed; otherwise FailedToGetCpuGovernor |
| CpuCtrl.CpuCtrl.GetCpuFrequency | cpu_governor_ctrl/src/cpu_ctrl.rs:72-87 | the current-frequency file's content, untrimmed; otherwise FailedToGetCpuFrequency |
| CpuCtrl.CpuCtrl.SetCpuFrequency | cpu_governor_ctrl/src/cpu_ctrl.rs:89-135 | the kHz text replaces scaling_setspeed; create and write failures give FailedToSetCpuFrequencyPath and FailedToSetCpuFrequency |
| CpuCtrlService.DecodeFrequency | sdk_server/src/services/cpu_ctrl_service.rs:66-73 | a frequency iff "1200", "1600" or "1800"; its text is the input followed by "000" |
| CpuCtrlService.MegahertzToKilohertz | sdk_server/src/services/cpu_ctrl_service.rs:66-69 | an accepted MHz text selects the frequency whose kHz value is 1000 times the number it denotes |
| CpuCtrlService.GetGovernor | sdk_server/src/services/cpu_ctrl_service.rs:22-32 | the governor file's content, or the controller's error as a status |
| CpuCtrlService.SetGovernor | sdk_server/src/services/cpu_ctrl_service.rs:34-43 | the requested governor is ignored; "userspace" is written |
| CpuCtrlService.GetCpuFrequency | sdk_server/src/services/cpu_ctrl_service.rs:45-57 | the current-frequency file's content, or the controller's error as a status |
| CpuCtrlService.SetCpuFrequency | sdk_server/src/services/cpu_ctrl_service.rs:59-79 | unknown MHz gives "Invalid CPU frequency value" with no write; otherwise the input plus "000" is written |
| Display.FirstLine | display_ctrl/src/display.rs:78 | none iff the file is empty; otherwise the text before the first newline with a carriage return before it dropped, or the whole text when there is no newline |
| Display.DecodeBrightness | display_ctrl/src/display.rs:77-101 | an empty file fails; a trimmed first line of digits, with or without a leading `+`, gives its value iff it is at most 255; a lone `+` fails; a first line with a non-digit after its first character, an empty one, or one starting with neither digit nor `+` fails; every failure is InvalidBrightnessValueError |
| Display.BrightnessRoundTrip | display_ctrl/src/display.rs:44-91 | reading the decimal text of any u8 gives it back |
| Display.NoLimitOnRead | display_ctrl/src/display.rs:89-108 | stored values 245..255 are returned by a read |
| Display.DisplayCtrl.constructor | display_ctrl/src/display.rs:14-19 | the controller keeps the given path |
| Display.DisplayCtrl.SetDisplayBrightness | display_ctrl/src/display.rs:21-62 | a value above 244 is refused with the file untouched; otherwise its decimal text is written, with the path or value error on failure |
| Display.DisplayCtrl.GetDisplayBrightness | display_ctrl/src/display.rs:64-109 | a missing file is a path error; otherwise the decoded first line |
| Display.SetThenGet | display_ctrl/src/display.rs:44-91 | after an accepted value is written, a read returns it |
| Led.LedCtrl.constructor | led_ctrl/src/led.rs:23-30 | the controller keeps the three paths |
| Led.LedCtrl.SetLed | led_ctrl/src/led.rs:33-53 | the selected colour's file holds "1"; a failed write gives InvalidLedPathValueError |
| Led.LedCtrl.ClearLed | led_ctrl/src/led.rs:56-78 | the selected colour's file holds "0"; a failed write gives InvalidLedPathValueError |
| Led.LedCtrl.WriteBrightness | led_ctrl/src/led.rs:81-86 | the file map after create and write; Ok iff there was no fault |
| Led.OnlySelectedFileChanges | led_ctrl/src/led.rs:36-43 | after a write, the selected file holds the value and every other file is unchanged |
| LedManager.DecodeColor | sdk_server/src/services/led_manager.rs:24-32 | a colour iff 0, 1 or 2: red, green and blue |
| LedManager.DecodeColorNumber | sdk_server/src/services/led_manager.rs:24-27 | every colour is decoded from its own number |
| LedManager.SetLed | sdk_server/src/services/led_manager.rs:21-38 | an unknown colour gives "Invalid color" and no write; otherwise the colour's file holds "1", and the reply is Empty or the controller's error |
| LedManager.ClearLed | sdk_server/src/services/led_manager.rs:40-59 | the same decoding; the colour's file holds "0" |

## Left out

- Concurrency. Each Wi-Fi operation joins three tasks with `tokio::join!`: the
  driver runtime, the requester, and `broadcast_listener`. Only the
  requester's sequential requests are modelled. The driver and the
  broadcasts only log.
- The `wifi_ctrl` crate is foreign code. `WifiSetup`, the socket path and
  the request client are replaced by the abstract `Daemon`.
  - The daemon's behaviour is assumed, not taken from code: ids come from a
    counter, new networks are flagged "[DISABLED]", and `remove` drops
    matching ids.
  - Association after `select_network` and the daemon's own flag updates are
    not modelled.
  - The daemon's state is one value for all sessions.
- Wifi.Daemon.constructor: the caller chooses the id counter, and it must
  be past every listed id. The real daemon's numbering is not modelled.
- Wifi.ConnectWifi, Wifi.WifiList, Wifi.KnownWifi, Wifi.RemoveWifi: on every
  error path the requester returns without `shutdown`. These are the bails and
  `?`s at wifi.rs 266, 277-278, 295, 305, 310, 324 and 331, 89-91, 154-155 and
  400-401. The model assumes `tokio::join!` then still completes, that is,
  that the driver loop ends once the requester is dropped. `wifi_ctrl` is
  foreign code, so whether it does is not known. If it does not, these
  operations would never return.
- The `ifconfig` subprocess in `wifi_status`, and its `expect` panics.
  `Wifi.WifiStatus` receives the output as a string.
- Panics:
  - `unwrap` on opening or reading the uevent file, where Battery.Info
    returns `None`;
  - `String::from_utf8(..).unwrap()` on tool output;
  - `try_into().unwrap()`, which TrustZoneService.DeriveKey and
    TrustZoneService.GenerateHmac represent as the status `HandlerPanic`.
- Text is a sequence of characters, not bytes. Invalid UTF-8 in a file,
  which makes `read_to_string` fail, is not distinguished from any other
  unreadable file.
- Error messages, `tracing` log output and the `Display` implementations of
  the error types in the errors.rs files. Errors are modelled by their codes
  only.
- `TrustZoneCtrl::new` and its `path` field, which no method reads.
- Partial writes. A failed `write_all` is modelled as leaving the file
  truncated and empty.
- Wifi.ConnectWifi: the Err cases on the reuse path and on `set_ssid`, `set_psk`
  and `shutdown` stand for the daemon's own error, passed on by `?`. Its
  content is not modelled.
- motion_sensor, metrics, device_info and bluetooth_manager: floating point,
  the `sysinfo` crate and D-Bus. Also main.rs (configuration and server
  wiring), and the mod.rs and lib.rs files, which only re-export.
