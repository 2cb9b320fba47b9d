# tiktok_tool core, modelled in Dafny

tiktok_tool is a Windows desktop helper for TikTok/Douyin live streaming.
It sniffs the network for the RTMP push server and the stream key that the
"直播伴侣" companion app negotiates. It writes both into OBS's
`service.json`, and it has a one-click flow ("一键开播"). That flow:

1. launches the companion;
2. starts capturing;
3. clicks the companion's start button;
4. waits for the stream information;
5. imports it into OBS;
6. launches OBS;
7. closes the companion.

This project models that core and proves properties of the model:

- **Capture session and packet matcher** (`Capture`, capture/capture.go):
  - A class `Session` holds the process-wide capture flag, the stop signal, and the open and closed device handles.
  - Device selection is a filter over `(name, description)` records.
  - The per-packet matching rule runs over a sequence of optional payloads. The regex engine is a function parameter.
- **One-click flow** (`AutoStart`, ui/main_window_callback.go):
  - the pre-flight check `validateAutoStartConfig`;
  - the all-found latch;
  - `startCaptureForAuto`;
  - the seven steps of `autoStart` with their deferred clean-up.
- **OBS control** (`ObsControl`, ui/main_window_obs.go): `isOBSRunning`, the guards of `startOBS`, `handleImportOBS` and `importOBSConfigForAuto`.
- **The companion app** (`LiveCompanion`, ui/main_window_live.go): `startLiveCompanion`, `simulateClickStartLive` and `closeLiveCompanionForAuto`.
- **`WriteOBSConfig`** (`ObsConfig`), as an update of a decoded JSON value.
- **Settings** (`Settings`, config/settings.go): the defaults, where `LoadSettings`/`SaveSettings` look, and the search order of `GetDefaultOBSConfigPath`.
- **Utilities:**
  - `IsProcessRunning`, `BringWindowToFront`, `SliceToStrList` (`Lkit`, lkit/lkit.go);
  - the later `BringWindowToFront` (`WinApi`, lkit/win_api.go);
  - the drive and file search (`FindFile`, config/find_file.go);
  - `SimulateMouseClick` (`MouseClick`, lkit/mouse_click.go);
  - `FormatError` (`Logger`, llog/logger.go);
  - `getLogLevel` and `DefaultConfig` (`LogConfig`, llog/config.go).

Supporting modules:

- `Wrappers`: `Option`/`Result`.
- `Text`: the ASCII parts of Go's `strings` that the core uses.
- `Os`: the outcome of `os.Stat`.
- `Errors`: one constructor per error message the core returns.

Outside effects become parameters. These include:

- the process listing, `os.Stat`, and window enumeration;
- the Win32 call results, the `RunAutoTool` result and the packets;
- the regex engine, the drive type and the directory walks.

Methods return the sequence of effects they perform. None of this is
executed; the model is only verified.

Several functions exist in more than one copy.

- `ui/main_window_callback.go` repeats these functions from `ui/main_window_obs.go` and `ui/main_window_live.go`:
  - `isOBSRunning` (166-179), `startOBS` (396-434), `handleImportOBS` (207-262) and `importOBSConfigForAuto` (694-707);
  - `startLiveCompanion` (340-383), `simulateClickStartLive` (669-691) and `closeLiveCompanionForAuto` (710-750).

  The copies contain the same decisions. They differ only in sleep lengths, log lines, and the path of the configuration fields (`GetConfig().X` against `GetConfig().PathSettings.X`). Each is modelled once.
- `WriteOBSConfig` has the same body in config/settings.go:70-117, ui/main_window_callback.go:265-313 and ui/main_window_obs.go:176-223.
- `BringWindowToFront` differs between lkit/lkit.go and lkit/win_api.go, so both are modelled.

Some behaviours of the program that the model keeps as they are:

- A failure of step 7, closing the companion, fails the whole flow and goes through the same clean-up as any other failure.
- The capture workers keep no "found" latch: every matching packet is reported again (`Capture.RepeatedMatchReportedAgain`).
- The capture start in the ui code passes a fourth, all-found callback to `StartCapture`. The capture/capture.go that is modelled takes three. The arrival of the stream information is therefore an outcome given to the wait step (`AutoEnv.streamInfoArrived`).
- `WriteOBSConfig` re-encodes the whole document with `json.MarshalIndent`, which reorders keys. The model states what happens to the decoded value, not to the bytes.
- `validateAutoStartConfig` checks that the path is non-empty after trimming, but calls `os.Stat` on the untrimmed path. `startOBS` and `startLiveCompanion` call `os.Stat` on the trimmed path. The model keeps both behaviours.

## Model

| member | source | states |
|---|---|---|
| Capture.Selection | capture/capture.go:43-56 | the selection is never longer than the device list |
| Capture.EligibleIndices | capture/capture.go:43-56 | the chosen positions are valid indices of the device list |
| Capture.SelectionInOrder | capture/capture.go:43-56 | the selection is exactly the eligible devices in device order: index k is chosen iff device k is eligible, and the chosen indices ascend |
| Capture.SelectionMembers | capture/capture.go:45-55 | empty allow-list: a device is kept iff its description contains neither "Bluetooth" nor "loopback" (case-sensitive); otherwise iff its description is in the list, with no Bluetooth/loopback filter |
| Capture.SelectDevices | capture/capture.go:43-56 | the appending loop computes exactly the selection |
| Capture.SelectionExample | capture/capture.go:53-55 | the allow-list ["Wi-Fi"] keeps only the Wi-Fi adapter; an empty list drops the Bluetooth adapter and keeps the others in order |
| Capture.Names | capture/capture.go:63-68 | one worker name per selected device, in order |
| Capture.StartCapture | capture/capture.go:36-69 | a failed device listing or an empty selection is reported through onError and starts no worker; otherwise one worker per selected device, in order |
| Capture.ServerPattern | capture/capture.go:114-117 | an empty configured server pattern falls back to the default |
| Capture.KeyPatterns | capture/capture.go:133-137 | the default key pattern comes first; a second pattern exists iff the configured one is non-empty and different, and it is the configured one |
| Capture.GrouplessServerPatternPanics | capture/capture.go:125-126 | as written, a one-element match (a pattern without a group) indexes out of range |
| Capture.ServerEvents | capture/capture.go:125-131 | corrected guard: group 1 is reported iff the match has at least two elements |
| Capture.ServerGuardsAgree | capture/capture.go:125-131 | the written and corrected guards agree on every match length other than one |
| Capture.FirstKeyIsFirstMatch | capture/capture.go:139-151 | the key is group 1 of the first pattern giving at least two submatches, and no key is found iff no pattern does |
| Capture.MatchKey | capture/capture.go:139-151 | the loop with its `break` yields exactly that first key |
| Capture.PacketEventsShape | capture/capture.go:103-152 | a packet that is not examined fires nothing; an examined one fires at most one server and at most one key event, server first |
| Capture.EmptyServerPatternIsDefault | capture/capture.go:114-117 | an empty configured server pattern gives the same events as the default pattern |
| Capture.TraceAppend | capture/capture.go:93-154 | the worker keeps no state between packets: the events of a concatenation are the concatenated events |
| Capture.RepeatedMatchReportedAgain | capture/capture.go:125-131 | there is no latch: a repeated matching packet is reported once more |
| Capture.EventsComeFromExaminedPackets | capture/capture.go:98-110 | every event comes from a packet that was read, has a payload and contains "rtmp://" once lower-cased |
| Capture.Session.constructor | capture/capture.go:21-33 | the initial state: not capturing, nil signal, no handles |
| Capture.Session.Begin | ui/main_window_callback.go:61-64 | sets the flag and opens a fresh stop signal; an earlier running session is abandoned |
| Capture.Session.StopCapturing | capture/capture.go:21-33 | while capturing: clears the flag, closes the signal, closes every registered handle and empties the list; otherwise changes nothing |
| Capture.Session.StopTwice | capture/capture.go:21-33 | a second StopCapturing changes nothing, so the signal is never closed twice |
| Capture.Session.HandleCapture | ui/main_window_callback.go:60-132 | the capture button starts a session when none runs and stops it otherwise |
| Capture.Session.ScanPackets | capture/capture.go:93-154 | corrected guard: the packet loop fires exactly the trace of the packets, the server group being reported only for a match that has one, and nothing when the stop signal is closed |
| Capture.Session.CaptureDevice | capture/capture.go:71-91 | corrected guard: a worker whose handle does not open does nothing; otherwise it registers the handle, scans (unless the filter fails) and closes it |
| AutoStart.FirstProblemSpec | ui/main_window_callback.go:459-489 | the reported problem is the first failing check in the given order, and none is reported iff every check passes |
| AutoStart.PathProblemNamesTool | ui/main_window_callback.go:459-489 | each check reports its own tool; "not configured" means an empty trimmed path, "not found" means a set path that os.Stat reports missing |
| AutoStart.ValidateAutoStartConfig | ui/main_window_callback.go:457-501 | companion, OBS launch, OBS config and script paths are checked in that order and the first problem is returned; then it fails iff OBS is running |
| AutoStart.AllFoundSignal.Fire | ui/main_window_callback.go:564-568 | the callback closes the channel once and sets the flag |
| AutoStart.AllFoundSignal.FireTimes | ui/main_window_callback.go:562-568 | however many times the callback runs, the channel is closed at most once, and exactly once if it ran |
| AutoStart.StartCaptureForAutoAsWritten | ui/main_window_callback.go:635-666 | as written: sets the flag and a fresh signal unconditionally, and returns nil even when StartCapture reported an error |
| AutoStart.StartCaptureForAuto | ui/main_window_callback.go:635-666 | corrected: the reported error is returned wrapped, so the step fails iff the listing fails or no device is selected |
| AutoStart.ProgressIncreasing | ui/main_window_callback.go:547-620 | the progress bar only moves forward through 1/7 to 6/7, one value per step except the wait |
| AutoStart.RunSpec | ui/main_window_callback.go:546-624 | a run of steps records one error per step that ran, in order; all but the last succeeded; it stops early only at a failure; it completes without failure iff no step fails |
| AutoStart.RunFromIsRun | ui/main_window_callback.go:546-624 | the flow from any step on is the run of the pipeline's step errors |
| AutoStart.FlowSpec | ui/main_window_callback.go:546-624 | the flow runs one to seven steps; outcome i is the error of pipeline step i; every step but the last succeeded, and the flow stops early only at a failure |
| AutoStart.FlowCompletes | ui/main_window_callback.go:546-624 | the flow runs all seven steps and the last succeeds iff no step fails |
| AutoStart.WaitDecides | ui/main_window_callback.go:585-592 | once reached, the wait fails exactly when the stream information does not arrive, and without it the flow never succeeds |
| AutoStart.LateSteps | ui/main_window_callback.go:585-624 | corrected flow: steps 4 to 7 are exactly the flow from step 4 on, showing the progress values 4/7 to 6/7 of the steps that ran |
| AutoStart.ImportStep | ui/main_window_callback.go:601-604 | the step's error is exactly `ImportFailed` wrapping the error `importOBSConfigForAuto` returns (`ImportError`, with the corrected `WriteOBSConfig`), and none when the import succeeds |
| AutoStart.RunSteps | ui/main_window_callback.go:546-624 | corrected flow: the outcomes are exactly the run `RunFrom` describes, the progress values are those of the steps that ran, and capture is running once step 2 ran |
| AutoStart.AutoStart | ui/main_window_callback.go:533-632 | corrected flow: the ran steps are a prefix of the fixed seven and each outcome is that step's error as its operation computes it; nothing runs after a failure; the dialog shows the failing step's error; success iff no step fails; capture is stopped on both paths |
| ObsControl.ObsPidSpec | ui/main_window_obs.go:21-34 | the result is -1 or a positive pid of an obs64/obs32 process, obs64 preferred; -1 when the lookup fails or no matching process has a positive pid |
| ObsControl.IsObsRunning | ui/main_window_obs.go:21-34 | the method computes ObsPid from IsProcessRunning's slots |
| ObsControl.StartObs | ui/main_window_obs.go:47-82 | an empty trimmed path or a missing file fails first; a running OBS is focused, never relaunched, and is an error when focus fails or check is set; otherwise OBS is launched; the error is `StartObsError`'s |
| ObsControl.ImportDecision | ui/main_window_obs.go:85-149 | the import guards in order: missing stream info, missing config path, OBS running (the loop acts as an if), then confirm the write |
| ObsControl.ImportForAuto | ui/main_window_obs.go:226-239 | incomplete stream info is reported before the running check; past both, the outcome is exactly that of the (corrected) WriteOBSConfig on the trimmed config path, server and key: its missing-file, read, parse, format and write errors, and a written document iff the checks pass |
| ObsConfig.EnsureSettingsAsWritten | ui/main_window_callback.go:284-293 | as written: a null document leaves a nil map, and the assignment panics |
| ObsConfig.NullDocumentPanics | ui/main_window_callback.go:278-287 | the document `null` drives the code as written into the nil-map assignment |
| ObsConfig.CorrectedAgreesOnObjects | ui/main_window_callback.go:277-297 | for a found file holding an object, the corrected WriteOBSConfig reports the settings format error iff the code as written finds "settings" not to be an object, reaches the encoder iff the code as written gets past that check, and then makes the same update of the same members |
| ObsConfig.WriteOBSConfig | config/settings.go:70-117 | a missing file, read error or parse error fails before any write; a top level that is not an object, or a settings member that is not an object or null, is an error and nothing is written; otherwise settings.server and settings.key are set and every other decoded member is kept; the error is `WriteError`'s |
| ObsConfig.UpdateIdempotent | config/settings.go:100-102 | writing the same server and key a second time changes nothing |
| Settings.LoadLocation | config/settings.go:30-40 | config/ is tried first, then the working directory, and nothing is loaded if neither file exists |
| Settings.LoadSettings | config/settings.go:30-44 | a missing file keeps the current settings without error; otherwise the first existing file is decoded |
| Settings.SaveLocation | config/settings.go:47-58 | the file goes into config/ unless that directory does not exist |
| Settings.SaveSettings | config/settings.go:47-67 | the save location, then the create error, then the encoder's error |
| Settings.SaveThenLoadSameFile | config/settings.go:30-58 | after a save, the next load reads the file just written |
| Settings.FirstFoundIsFirst | config/settings.go:128-145 | the result is the first candidate that exists, or "" if none does |
| Settings.GetDefaultOBSConfigPath | config/settings.go:120-148 | the loops return the first existing candidate: Untitled, then Default, then every profile directory in listing order |
| Settings.DefaultObsPathIsFirstExisting | config/settings.go:120-148 | the search returns "" iff no candidate exists, and otherwise an existing candidate with none before it existing |
| Lkit.LastPidIsLastMatch | lkit/lkit.go:107-116 | a slot holds the pid of the last process whose name matches case-insensitively, and 0 if none matches |
| Lkit.IsProcessRunning | lkit/lkit.go:100-120 | a failed listing gives an empty slice and the error; otherwise one slot per target, each the last match |
| Lkit.FirstChosen | lkit/lkit.go:245-263 | the chosen window is the first with a readable, non-empty, visible title containing the search string |
| Lkit.EnumerateWindows | lkit/lkit.go:245-266 | the enumeration stops at the first chosen window and records it; EnumWindows returns 0 then |
| Lkit.BringWindowToFront | lkit/lkit.go:236-289 | as written: an empty title is an error, a missing window is an error, and a found window also fails, because EnumWindows returned 0 |
| WinApi.BringWindowToFront | lkit/win_api.go:82-133 | enumeration failure only when EnumWindows returned 0 and no window was found; then restore, show on failure, foreground; true iff the foreground call succeeds |
| Lkit.StrListPointwise | lkit/lkit.go:30-36 | the output has the input's length and element i renders input element i |
| Lkit.StrListAppend | lkit/lkit.go:30-36 | rendering distributes over concatenation |
| Lkit.SliceToStrList | lkit/lkit.go:30-36 | the appending loop builds exactly that list |
| FindFile.DrivePath | config/find_file.go:66-67 | the root of drive i is the letter A+i followed by ":\" |
| FindFile.GetAllDrives | config/find_file.go:51-77 | the bit loop computes the drive list |
| FindFile.DrivesBelowSpec | config/find_file.go:64-74 | among the first n letters, a drive is listed iff its bit is set and its type is fixed or removable, in ascending order |
| FindFile.DrivesSpec | config/find_file.go:51-89 | a zero mask gives no drives; at most 26, each "X:\", ascending, letter i listed iff bit i is set and the drive is accessible |
| FindFile.HighBitsIgnored | config/find_file.go:64-65 | bits 26 and above of the mask play no part |
| FindFile.Walked | config/find_file.go:94-114 | the walk stops at the first error that is not a permission error |
| FindFile.SearchFileInDrive | config/find_file.go:91-121 | the result is the last case-insensitive match among files the walk reached, and the walk error is reported exactly when it stopped early |
| FindFile.LastMatchSpec | config/find_file.go:109-112 | a non-empty result is the path of a matching non-directory entry, and no later entry matches |
| FindFile.WalkedConcat | config/find_file.go:102-108 | a walk continues into later entries only if no earlier error stopped it |
| FindFile.PermissionErrorIgnored | config/find_file.go:102-106 | a permission error anywhere changes nothing |
| FindFile.LastMatchSkipErrors | config/find_file.go:102-113 | error steps never change the match found so far |
| FindFile.FindFileInAllDrives | config/find_file.go:16-49 | no drives gives ""; otherwise the first non-empty result in finishing order, or "" |
| FindFile.FirstFoundIsSomeResult | config/find_file.go:30-48 | the race yields "" or one drive's result, and "" when every search finds nothing |
| MouseClick.ButtonFlagsSpec | lkit/mouse_click.go:55-65 | "left" or "" in any case gives 0x0002/0x0004, "right" gives 0x0008/0x0010, anything else is unsupported |
| MouseClick.ClickSpec | lkit/mouse_click.go:40-111 | negative coordinates fail before any call; the cursor moves before the button is checked; the first SendInput carries the button's down flag and the second its up flag, and up is not sent when down fails |
| MouseClick.SimulateMouseClick | lkit/mouse_click.go:40-111 | the method's error and Win32 calls are those of Click |
| MouseClick.SimulateLeftClick | lkit/mouse_click.go:117-119 | a click with "left" |
| MouseClick.LeftClickErrorIsClick | lkit/mouse_click.go:117-119 | the error of a left click as the companion rounds use it is that of Click with "left" |
| MouseClick.SimulateRightClick | lkit/mouse_click.go:125-127 | a click with "right" |
| LiveCompanion.StartLiveCompanion | ui/main_window_live.go:54-98 | an empty trimmed path fails, then a missing file; an elevated process runs the path directly, otherwise powershell gets the RunAs command; `check` has no effect |
| LiveCompanion.RunAsCommandShape | ui/main_window_live.go:85 | the elevation command is `Start-Process -FilePath '<path>' -Verb RunAs`, with the path kept verbatim |
| LiveCompanion.LocateAndClick | ui/main_window_live.go:107-120 | a tool error, then Success == false, then a click failure each end the round with an error naming the control; the round succeeds iff all three pass |
| LiveCompanion.SimulateClickStartLive | ui/main_window_live.go:101-123 | focus first; a focus failure ends it; then one locate-and-click round for "开始直播" |
| LiveCompanion.CloseLiveCompanionForAuto | ui/main_window_live.go:126-166 | focus once, then the "关闭" round and the "确定" round; the first failure ends it and the second round does not start |
| Logger.JoinSplit | llog/logger.go:139-150 | joining the pieces of a split gives the message back |
| Logger.SplitJoin | llog/logger.go:139-150 | splitting a join gives the parts back when no part holds the separator |
| Logger.SplitPiecesClean | llog/logger.go:139 | no piece of a split holds ": " |
| Logger.UniqueSpec | llog/logger.go:140-148 | the kept segments are pairwise distinct, are exactly the input's segments, and keep the order of first occurrence |
| Logger.UniqueOfNoRepeats | llog/logger.go:143-148 | segments without repeats are kept as they are |
| Logger.UniqueJoinShorter | llog/logger.go:139-150 | removing repeats never lengthens the message |
| Logger.FormatError | llog/logger.go:134-151 | the loop with its seen map computes Formatted |
| Logger.FormattedSpec | llog/logger.go:134-151 | nil gives ""; the result's segments are the distinct input segments in first-occurrence order; a message without repeats is unchanged; the function is idempotent and never lengthens |
| LogConfig.GetLogLevelSpec | llog/config.go:10-27 | the five names map to their levels in any letter case; "" and every other string map to Info |
| Text.ToLower | capture/capture.go:110 | lower-casing keeps the length and lowers each ASCII letter |
| Text.ToLowerIdempotent | capture/capture.go:110 | lower-casing twice is lower-casing once |
| Text.TrimSpace | ui/main_window_callback.go:460 | the trimmed string is empty iff the input is all white space, and otherwise neither starts nor ends with white space |
| Text.TrimSpaceSpec | ui/main_window_callback.go:460 | the trimmed string is a slice of the input with only white space before and after it |

## Left out

- Fyne widgets, dialogs and `fyne.Do` are presentation only. The progress values are integers in sevenths rather than floats.
- pcap and gopacket are foreign libraries. Devices, handles, the BPF filter and packets are given as values.
- Go's `regexp` is not visible. The regex engine is a function parameter, so:
  - the claim that each default pattern has exactly one capturing group is not stated;
  - the panic of `regexp.MustCompile` on a bad pattern is not modelled.
- Concurrency:
  - the per-device goroutines, the handle mutex and SafeGo;
  - the drive-search race;
  - the 20 s and 15 s timeouts and every sleep.

  The arrival of the stream information and the search the race picks are given as outcomes.
- FindFile.FindFileInAllDrives: the race is modelled as a finishing order chosen by the caller. The contract therefore says which result is returned for that order, not which search finishes first. The context cancellation inside the searches is not modelled, so each search runs over its whole walk.
- Win32, process and exec calls are given outcomes:
  - `IsRunAsAdmin`, `EnumWindows`, `ShowWindow`, `SetForegroundWindow`;
  - `SetCursorPos`, `SendInput`, `GetLogicalDrives`, `GetDriveTypeW`;
  - gopsutil, `exec.Command`, and the internals of `RunAutoTool`.
- `KillProcess` and the dialog callbacks of `handleImportOBS` are dialog-driven. `ImportDecision` stops at the dialog it opens.
- JSON and TOML encoding and decoding of text are not modelled. `WriteOBSConfig` receives the decoded value or the decoder's error, and returns the value it would encode.
- `filepath.Join`, `filepath.Dir` and `filepath.Clean` are modelled as a plain `\`-join. `GetPathDir`, `AnyToStr`, `GetAddr` and `GetNowUnix` are library wrappers.
- Text: `strings.ToLower`, `EqualFold` and `TrimSpace` are modelled on ASCII only.
- The OBS WebSocket writer, the download of auto.exe, the lock file, the crash log and the zap/lumberjack logger set-up are infrastructure.
- RunSteps: runs the corrected `startCaptureForAuto` at step 2 and the corrected `WriteOBSConfig` at step 5 (see "Findings"). As written, a failed device listing or an empty selection still returns nil at step 2, so steps 2 and 3 succeed and the flow fails at the wait of step 4.
- AutoStart: the same corrected flow. As written, a listing failure shows the wait timeout, not `CaptureError`. A `service.json` whose content is `null` panics inside the import. The flow runs under SafeGo (ui/main_window_callback.go:528-530), which recovers the panic (lkit/goroutine.go:13-23). The deferred handler returns early because no progress error was set (ui/main_window_callback.go:535-538), so capture keeps running and no error dialog opens. None of this is in the contract.
- ImportStep: wraps the error of the corrected `WriteOBSConfig`, so the as-written panic on a `null` document is not among its outcomes.
- ImportForAuto: calls the corrected `WriteOBSConfig`, for the same reason.
- ScanPackets: uses the corrected server guard `len(matches) >= 2`. As written, a one-element match indexes out of range at capture/capture.go:125-126; the worker runs under a plain `go` (capture/capture.go:67), so the whole process stops. Only `Capture.GrouplessServerPatternPanics` states that crash.
- CaptureDevice: scans through `ScanPackets`, so it has the same corrected guard.
- WriteOBSConfig: JSON numbers are kept as uninterpreted tokens. Go decodes them to float64 and `MarshalIndent` writes them back, so `1e2` becomes `100` and integers above 2^53 can change; neither the number text nor its precision is modelled.

## Findings

| source | as written | input that shows it | evidently intended | confidence | as-written member | corrected member |
|---|---|---|---|---|---|---|
| capture/capture.go:125-126 | `len(matches) >= 1` guards `matches[1]` | a configured server pattern without a group, e.g. `rtmp://push-rtmp-a\.douyincdn\.com/thirdgame`, matching a packet: the one-element match is indexed at 1 and the worker panics | `len(matches) >= 2`, as on the key side at line 143 | not executed | Capture.GrouplessServerPatternPanics | Capture.ServerEvents |
| ui/main_window_callback.go:285-286 | `cfgMap["settings"] = …` after `json.Unmarshal` | a `service.json` whose content is `null`: Unmarshal leaves `cfgMap` nil, and the assignment to a nil map panics | treat a null document as an empty object | not executed | ObsConfig.NullDocumentPanics | ObsConfig.WriteOBSConfig |
| lkit/lkit.go:266-269 | `if ret == 0` after EnumWindows is reported as an enumeration failure | any existing visible window whose title contains the search string: the callback returns 0 to stop, so EnumWindows returns 0 and the function fails | fail only if no window was found, as lkit/win_api.go:113 does | not executed | Lkit.BringWindowToFront | WinApi.BringWindowToFront |
| ui/main_window_callback.go:659-665 | the error callback assigns its own parameter `err` | `pcap.FindAllDevs` failing, or no usable interface: onError runs, but `startCaptureForAuto` still returns nil and the flow waits 20 s for a timeout | return the capture error | not executed | AutoStart.StartCaptureForAutoAsWritten | AutoStart.StartCaptureForAuto |
