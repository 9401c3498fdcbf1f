# chrometric run orchestration, modelled in Dafny

Chrometric is a Chrome extension that collects network telemetry from
managed Chrome OS devices and sends it to Humio. This project models one
telemetry run from start to finish:

- **Triggers.** A repeating alarm starts an automatic, latency-only run. A
  `runSpeedtest` message from the popup starts a manual, full run.
- **Settings.** The bundled `settings.json` is merged with the
  managed-storage policy, one top-level key at a time.
- **Device facts.** Eight facts are gathered by adapters. Six ask a Chrome
  API, the OS version is read from `navigator.userAgent` and the extension
  version from `manifest.json`. Most Chrome API adapters fall back to a fixed
  default when their API throws.
- **Probe.** The Speedtest library is configured for the run type and run.
- **Record.** The facts, the run type and the probe's results are spread
  into one record.
- **Marker.** `SPEEDTEST_DATA = {LAST_RUN_TIME, LAST_RUN_TYPE}` is written
  to local storage. This single slot is overwritten on every run.
- **Dispatch.** The record goes to the data logger named in the
  configuration, looked up by name among the extension's globals. The Humio
  sink turns it into one POST to Humio's structured-ingest endpoint. Its
  `Authorization` header goes through `new Headers`, which rejects a token
  that is not a valid header value (sections 2.2.2 and 5.1 of the Fetch standard).

Modules:

- **`Js`** holds the slice of JavaScript the code relies on: values,
  truthiness, `||`, property reads that throw on `null`/`undefined`, loose
  equality against a word, string conversion, `toLowerCase` and `includes`.
- **`Settings`** is `getSettings`.
- **`Probe`** is `getSpeedtestData`.
- **`Adapters`** holds the device-fact getters.
- **`Sinks`** holds `humio`, `getDataLoggerFunction` and `logData`.
- **`Orchestrator`** is `runEverything`:
  - `Run` is its specification over an `Env`, which holds everything the
    outside world answers during one run.
  - `Extension` is a class holding local storage and the requests handed to
    `fetch`, plus the stages reached as ghost bookkeeping. Its
    `RunEverything` method performs the run step by step and is proved to
    agree with `Run`.
- **`Background`** holds the alarm schedule and the two listeners.

The model follows the code where the code and its documentation disagree:

- **The URL guard never fires.** The guard `!speedtestUrls` in `getSettings`
  is dead: the URLs fall back to `{}`, which is truthy. A configuration with
  a token and no URLs is therefore accepted (`Settings.MissingUrlsAccepted`).
- **The sink is looked up by `name`.** The lookup uses `dataLoggerConfig.name`.
- **Adapters without a fallback.** `getOsVersion`, `getConsoleUser`,
  `getExtensionVersion` and the platform query in `getDeviceSerial` have no
  `try`. In this model the identity and platform APIs always answer, so only
  two adapters reject the run: a Chrome user agent whose version pattern does
  not match, or a missing or `null` manifest.
- **The marker is written before dispatch.** A dispatch failure rejects the
  run after the marker was written. A token holding NUL, a character
  beyond one byte, or a CR or LF before its trailing whitespace is such a
  failure. The store then records a run whose data
  was never sent (`Orchestrator.DispatchFailureKeepsTheMarker`).

## Model

| member | source | states |
|---|---|---|
| Settings.LocalSettings | chrometric.js:16-24 | an unreadable `settings.json` counts as `{}`; a parsed one is used as is |
| Settings.Merge | chrometric.js:6-7 | per-key precedence: a truthy managed value wins, else a truthy local value, else `{}`; the merged value is always truthy |
| Settings.GetSettings | chrometric.js:3-13 | a `null` local file throws a TypeError; otherwise success exactly when the merged logger configuration has a truthy token, and every failure is "Settings missing, aborting!"; on success both keys obey the precedence, `debug` comes from the local file only, and the URLs are truthy |
| Settings.MissingUrlsAccepted | chrometric.js:7-11 | settings with a token but no URLs anywhere are accepted, with `{}` as the URL list |
| Settings.ManagedAloneSuffices | chrometric.js:3-13 | an unreadable local file does not stop a run whose managed logger configuration has a token |
| Settings.EmptyManagedListOverrides | chrometric.js:7 | an empty managed URL list overrides any local list |
| Probe.TestOrder | chrometric.js:73-77 | `"IP_D_U"` exactly for manual runs, `"IP"` for every other run type |
| Probe.SelectedServer | chrometric.js:66 | the target is the first URL of a list, undefined for an empty list or `{}` |
| Probe.Setup | chrometric.js:66-79 | the four `setParameter` values, the test order of the run type, all URLs as test points, and the first as the selected server |
| Probe.SpeedtestData | chrometric.js:89-110 | a throwing `start()` rejects; an aborted test resolves to exactly `{successful: false}`; a completed one to the library's data plus `speedtest_timestamp` and `successful: true`, all other fields unchanged |
| Probe.SuccessfulMeansNotAborted | chrometric.js:89-101 | a settled probe's `successful` field is true exactly when the test was not aborted |
| Probe.NoFailover | chrometric.js:66 | URLs after the first never influence the target |
| Adapters.GoogleDeviceId | chrometric.js:114-128 | the API's answer, or "Chrome OS Device" when the API throws |
| Adapters.ChromeDeviceSerial | chrometric.js:131-145 | the API's answer, or "ABC123" when the API throws |
| Adapters.DeviceSerial | chrometric.js:219-234 | off Chrome OS the default serial; on Chrome OS the serial adapter's result |
| Adapters.NonChromeOsIgnoresSerialApi | chrometric.js:226-230 | off Chrome OS the serial API's answer cannot influence the serial |
| Adapters.IsChromeOs | chrometric.js:226 | the platform test passes only when the name holds "cros", in some mix of cases, at some position |
| Adapters.ChromeOsIgnoresCase | chrometric.js:226 | a platform name and its lower-cased form are classified alike |
| Adapters.ChromeOsAnyCase | chrometric.js:226 | conversely, any platform name holding "cros" in any mix of cases, at any position, is Chrome OS |
| Adapters.WithoutLetterSDefaultSerial | chrometric.js:223-230 | any platform name without an "s" or "S" (such as "win", "mac", "linux", "android") is not Chrome OS and gets the serial "ABC123" |
| Adapters.FlattenCpu | chrometric.js:154-161 | the CPU fact has exactly the keys arch, model and threads, taken from archName, modelName and numOfProcessors |
| Adapters.DeviceCpu | chrometric.js:148-169 | the flattened CPU info, or `{}` when the API throws |
| Adapters.DeviceMemory | chrometric.js:172-192 | the API's answer unchanged, or `{}` when the API throws |
| Adapters.OsVersion | chrometric.js:237-247 | "UNKNOWN" off Chrome; the captured version on Chrome; rejects exactly when a Chrome user agent does not match the version pattern |
| Adapters.ExtensionVersion | chrometric.js:259-266 | `manifest.version`; rejects exactly when the manifest is unreadable or `null` |
| Adapters.TotalTabsAppend | chrometric.js:202-206 | counting tabs window by window is additive over a split of the window list |
| Adapters.TotalTabsCountsAllTabs | chrometric.js:202-206 | the tab count is the length of all windows' tab lists concatenated |
| Adapters.NoTabsMeansZero | chrometric.js:201-208 | the tab count is 0 exactly when no window has a tab |
| Adapters.GetTabCount | chrometric.js:194-216 | the nested loop counts every tab of every window once; 0 when the windows API throws |
| Sinks.IngestBody | humio.js:7-19 | the body reads back as one batch tagged `{type: "chrometric"}` holding one event whose attributes are the record unchanged |
| Sinks.HumioRequest | humio.js:24-31 | a POST to the Humio structured-ingest URL with exactly the JSON content type and the given authorisation headers, and the ingest body |
| Sinks.TrimStart | humio.js:27-30 | the stored header value drops exactly the leading HTTP whitespace |
| Sinks.TrimEnd | humio.js:27-30 | the stored header value drops exactly the trailing HTTP whitespace |
| Sinks.HeaderValue | humio.js:27-30 | `new Headers` throws a TypeError exactly when the value has a character beyond one byte or, once trimmed, holds NUL, CR or LF; otherwise it stores the trimmed value |
| Sinks.HumioShipIt | humio.js:3-33 | throws a TypeError exactly when `"Bearer " + token` is no valid header value; otherwise the Humio request authorised with that header value |
| Sinks.StringTokenHeader | humio.js:29 | a string token whose last character is not HTTP whitespace is accepted exactly when it has no wide character and no NUL, CR or LF, and is then sent verbatim after "Bearer " |
| Sinks.WideTokenRejected | humio.js:27-30 | a token with a character beyond one byte makes the sink throw a TypeError |
| Sinks.GetDataLoggerFunction | chrometric.js:269-278 | a non-string name throws "Data logger name must be a string"; a name not bound to a function throws "data logger shipit function not found"; otherwise the bound function |
| Sinks.LogData | chrometric.js:281-286 | a request is sent exactly when the name resolves to the Humio constructor and the token makes a valid header; a Humio dispatch is exactly the Humio sink's result; a lookup failure is passed on; a function whose construction throws fails with that exception (a TypeError for the extension's async functions); any other function fails with a TypeError at `shipIt` |
| Sinks.SelfNamedLoggerRejects | chrometric.js:269-286 | naming `getDataLoggerFunction` itself as the logger fails with "Data logger name must be a string": constructed with no argument, it rejects the name `undefined` |
| Sinks.ExtensionGlobals | chrometric.js:273 | the global scope binds "humio" to the Humio constructor, and no other name to it |
| Sinks.HumioIsRegistered | chrometric.js:269-286 | in the extension's globals the name "humio" reaches the Humio sink |
| Sinks.UnknownSinkFailsClosed | chrometric.js:269-278 | a name the extension does not bind produces no request and fails with "data logger shipit function not found" |
| Orchestrator.FactMap | chrometric.js:296-304 | the record's facts have exactly the eight fact keys, with the tab count as a number |
| Orchestrator.FactMapValues | chrometric.js:297-303 | each of the other seven fact keys holds the fact gathered for it: device id, serial, OS version, console user, extension version, CPU and memory |
| Orchestrator.CollectFacts | chrometric.js:296-304 | the facts are gathered exactly when neither the os-version nor the extension-version adapter rejects; then each of the eight facts is its adapter's result (device id, serial, CPU, memory, tab count, OS version, console user, extension version); otherwise the first rejection is the error |
| Orchestrator.AssembleRecord | chrometric.js:296-307 | the record has every fact key, `runType` and every probe key; probe fields win on a collision |
| Orchestrator.RunMarkerFields | chrometric.js:315-318 | the marker `RunMarker` is an object with exactly the keys `LAST_RUN_TIME` and `LAST_RUN_TYPE`, holding the run's time and type |
| Orchestrator.Persist | chrometric.js:315-319 | writing the marker overwrites `SPEEDTEST_DATA` and leaves every other stored key as it was |
| Orchestrator.Run | chrometric.js:289-322 | the stages reached are a prefix of settings, facts, probe, marker, ship; the run succeeds exactly when all are reached; it stops at once exactly when the settings fail; the probe is set up once the facts are in; the marker is `{LAST_RUN_TIME, LAST_RUN_TYPE}` and is written exactly when the probe settled; a request is sent exactly when the run succeeds |
| Orchestrator.RunWithSettings | chrometric.js:296-322 | after the settings, the stages reached are a prefix of the run's stages, and the probe set-up, the marker, the record and the request appear exactly at the stages that produce them |
| Orchestrator.RunWithFacts | chrometric.js:306-322 | once the facts are in, the probe is set up with the configured URLs and the run type's test order; the marker is `{LAST_RUN_TIME, LAST_RUN_TYPE}`, written exactly when the stages reach it; the record is kept exactly when the marker is written |
| Orchestrator.Ship | chrometric.js:314-321 | the marker is written and the record kept whatever the dispatch does; the run succeeds exactly when `logData` on that record succeeds, sends `logData`'s request, and otherwise fails with `logData`'s error |
| Orchestrator.ShipSteps | chrometric.js:314-321 | after the probe the run writes the marker, then either stops with `logData`'s error or ships `logData`'s request |
| Orchestrator.ProbeSettles | chrometric.js:306-321 | a probe that rejects stops the run after the facts with the probe's error, nothing stored or sent; a probe that settles leads to the probe stage and to `Ship` of the record assembled from the facts, run type and probe data |
| Orchestrator.Extension.RunEverything | chrometric.js:289-322 | executing the run step by step yields `Run`'s outcome, appends its stages, leaves storage as `Run`'s marker makes it and appends its request to the outbox |
| Orchestrator.GatherFacts | chrometric.js:296-304 | the facts awaited one after the other equal `CollectFacts` |
| Orchestrator.Extension.ProbeThenShip | chrometric.js:306-321 | from the probe on, stages, storage and outbox change exactly as the given report of the run prescribes |
| Orchestrator.Extension.MarkThenShip | chrometric.js:314-321 | the marker slot is overwritten whatever happens next; the outcome, the stages and the outbox follow what `logData` returns for the record |
| Orchestrator.Extension.Deliver | chrometric.js:319-321 | a built request is appended to the outbox and completes the run; a dispatch that threw fails the run with its exception and sends nothing |
| Orchestrator.LastMarkedRun | chrometric.js:315-319 | the index of the last run that wrote a marker, with no later run writing one |
| Orchestrator.SingleSlotHistory | chrometric.js:315-319 | after any sequence of runs `SPEEDTEST_DATA` holds the marker of the last run that wrote one, and every other stored key is untouched |
| Orchestrator.LastRunTypeIsRemembered | chrometric.js:315-319 | that marker names the time and type of the last run that reached it |
| Orchestrator.RecordOfProbedRun | chrometric.js:296-319 | once the probe settles the record holds every fact key and `runType` and the probe's fields unchanged, its `successful` field says whether the probe was aborted, and the marker is written |
| Orchestrator.ShippedRequest | chrometric.js:319-321 | a successful run sends the record as the single event of a batch tagged `{type: "chrometric"}`, authorised with the header value built from the merged configuration's token |
| Orchestrator.AbortedProbeStillShips | chrometric.js:89-95 | an aborted probe is data, not an error: with the Humio sink and a valid token the run still succeeds and ships a record marked `successful: false` |
| Orchestrator.AdapterRejectionStopsTheRun | chrometric.js:296-304 | a run stops right after the settings exactly when the settings succeed and an adapter rejects; it then fails with that adapter's error, with no probe, marker or request |
| Orchestrator.ProbeStartFailureStopsTheRun | chrometric.js:105-109 | a run stops right after the facts exactly when the settings and the facts succeed and `start()` throws; it then fails with that exception and nothing is stored or sent |
| Orchestrator.DispatchFailureKeepsTheMarker | chrometric.js:315-321 | when settings, facts and probe succeed but `logData` on the record fails, the run reaches the marker, fails with `logData`'s error, keeps the marker and sends no request |
| Orchestrator.FallbacksFillTheFacts | chrometric.js:114-216 | when the fallback-protected APIs throw off Chrome OS the facts are still gathered with their defaults |
| Background.AlarmPeriod | background.js:2-4 | the alarm period is a whole number of minutes in [10, 15) |
| Background.EveryPeriodReachable | background.js:2-4 | every period in that window is drawn for some random number |
| Background.TelemetryAlarm | background.js:6-9 | the alarm is named "telemetryAlarm", first fires after one minute, and repeats every `AlarmPeriod` of the random draw |
| Background.EveryScheduleReachable | background.js:2-9 | every period in [10, 15) is the period of the registered alarm for some random draw |
| Background.AlarmTrigger | background.js:13-18 | exactly the "telemetryAlarm" alarm starts a run, an automatic one |
| Background.MessageTrigger | background.js:22-28 | a `null` or `undefined` request throws; a run starts exactly when the response is sent, and that run is manual and the response is `{status: "started"}`; a string action starts it exactly when it is "runSpeedtest" |
| Background.OnlyRunSpeedtestStartsARun | background.js:24-27 | a message without an action is ignored; one whose action is "runSpeedtest" starts a manual run and answers |
| Background.TriggersChooseTheTestOrder | background.js:13-28 | alarm-started runs measure latency only; popup-started runs do the full test |
| Background.OnAlarm | background.js:13-18 | the telemetry alarm changes the extension as one automatic run does; any other alarm changes nothing |
| Background.OnMessage | background.js:22-28 | a matching request changes the extension as one manual run does and is answered; any other request changes nothing |

## Left out

- Chrome APIs, the file system, the clock and `Math.random` are inputs: `Env` holds their answers for one run, and `AlarmPeriod` takes the random number.
- Asynchrony is not modelled. Runs are sequential; overlapping runs started by an alarm and a message are not, and nor is the listener answering before its run completes.
- `JSON.stringify` and key order are not modelled: the request body is the value that would be serialised, and `ReadIngestBody` reads its structure back.
- Numbers are unbounded integers; floating point, `NaN` and fractional tab counts do not arise.
- `toLowerCase` is modelled on ASCII letters only; Unicode case mapping is left out.
- The Chrome-version regular expression is not modelled; `versionCapture` is what its match captured, or `None` when it did not match.
- The Speedtest library's measurement and its `_prevData` parsing are not modelled: `ProbeOutcome` is how the test ended and the parsed data.
- Probe.SpeedtestData: after an aborted test the callback goes on to parse `_prevData` and write globals after resolving; those side effects, and an exception thrown by that parse, are not modelled.
- A `JSON.parse` failure inside the file-reading callback leaves the promise unsettled and the run hanging; the model treats such a file as unreadable.
- Logging, `renderStatus` and the `debug` listener on Speedtest updates are left out; they change no state the model tracks.
- A failure of `chrome.storage.local.set` is not modelled; the marker write always succeeds.
- The global bindings (`ExtensionGlobals()`) list only the names the extension's own scripts bind, with `Speedtest` as an ordinary function; browser built-ins such as `Object` are not, so naming one is treated like an unknown name rather than failing at `shipIt` or at construction.
- Constructing an ordinary function during dispatch may run that function's side effects before the TypeError at `shipIt`; only the TypeError is modelled.
- `getConsoleUser` has no `try`, but a failing identity API is not modelled: its answer is the `profileEmail` input.
- `getDeviceSerial` has no `try` around `getPlatformInfo`, but a failing platform API is not modelled: its answer is the `platformOs` input.
- `getDeviceCPU` and `getTabCount` read the API's answer inside the callback, outside their `try`: an undefined answer (a failing API that reports through `lastError`) throws in the callback and leaves the run hanging. The model only has the API throwing synchronously, which falls back to the default.
- Timestamps are opaque strings and numbers; their monotonicity across runs is not modelled.
- The popup (`popup.js`) is not part of this model.
