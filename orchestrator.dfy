/**
 * The run orchestrator (`runEverything`): settings, then the device facts,
 * then the probe, then the record, then the run marker written to the single
 * `SPEEDTEST_DATA` storage slot, then dispatch to the data logger. Everything
 * the outside world answers during one run is gathered in an `Env`.
 */
module Orchestrator {
  import opened Js
  import opened Settings
  import opened Probe
  import opened Adapters
  import opened Sinks

  /** The answers of the browser, the file system, the clock and the probe library during one run. */
  datatype Env = Env(
    localSettings: FileRead,                 // settings.json
    managed: map<string, JsValue>,           // chrome.storage.managed.get()
    deviceIdApi: Api<JsValue>,               // enterprise.deviceAttributes.getDirectoryDeviceId
    platformOs: string,                      // runtime.getPlatformInfo().os
    serialApi: Api<JsValue>,                 // enterprise.deviceAttributes.getDeviceSerialNumber
    userAgent: string,                       // navigator.userAgent
    versionCapture: Option<string>,          // what the Chrome-version pattern captures, if it matches
    profileEmail: JsValue,                   // identity.getProfileUserInfo().email
    manifest: FileRead,                      // manifest.json
    cpuApi: Api<CpuInfo>,                    // system.cpu.getInfo
    memoryApi: Api<JsValue>,                 // system.memory.getInfo
    windowsApi: Api<seq<seq<JsValue>>>,      // windows.getAll({populate: true}), as tab lists
    probe: ProbeOutcome,                     // how the Speedtest run ends
    probeTimestamp: string,                  // ISO time stamped on a completed probe
    nowMs: int,                              // epoch milliseconds when the marker is written
    shipTimestamp: string,                   // ISO time stamped by the sink
    globals: map<string, Binding>)           // the global scope (`ExtensionGlobals()` in the extension)

  /** The eight device facts of a record. */
  datatype DeviceFacts = DeviceFacts(
    googleDeviceID: JsValue, serialNumber: JsValue, osVersion: JsValue, consoleUser: JsValue,
    version: JsValue, cpu: JsValue, memory: JsValue, tabCount: nat)

  const FactKeys: set<string> :=
    {"googleDeviceID", "serialNumber", "osVersion", "consoleUser", "version", "cpu", "memory", "tabCount"}
  const RunTypeKey := "runType"
  const SpeedtestDataKey := "SPEEDTEST_DATA"
  const LastRunTimeKey := "LAST_RUN_TIME"
  const LastRunTypeKey := "LAST_RUN_TYPE"

  function FactMap(facts: DeviceFacts): (m: map<string, JsValue>)
    ensures m.Keys == FactKeys
    ensures m["tabCount"] == Num(facts.tabCount)
  {
    map["googleDeviceID" := facts.googleDeviceID, "serialNumber" := facts.serialNumber,
        "osVersion" := facts.osVersion, "consoleUser" := facts.consoleUser, "version" := facts.version,
        "cpu" := facts.cpu, "memory" := facts.memory, "tabCount" := Num(facts.tabCount)]
  }

  /** Each fact key of the record holds the fact gathered for it. */
  lemma FactMapValues(facts: DeviceFacts)
    ensures var m := FactMap(facts);
            && m["googleDeviceID"] == facts.googleDeviceID && m["serialNumber"] == facts.serialNumber
            && m["osVersion"] == facts.osVersion && m["consoleUser"] == facts.consoleUser
            && m["version"] == facts.version && m["cpu"] == facts.cpu && m["memory"] == facts.memory
  {
  }

  /**
   * The facts, gathered one after the other. In this model only
   * `getOsVersion` and `getExtensionVersion` reject: the other adapters either
   * fall back to a default when their API throws or, like `getConsoleUser`
   * and the platform query of `getDeviceSerial`, take the API's answer as an
   * input that always arrives.
   */
  function CollectFacts(env: Env): (r: Result<DeviceFacts, Thrown>)
    ensures r.Failure? <==> OsVersion(env.userAgent, env.versionCapture).Failure? || ExtensionVersion(env.manifest).Failure?
    ensures r.Success? ==>
              && r.value.googleDeviceID == GoogleDeviceId(env.deviceIdApi)
              && r.value.serialNumber == DeviceSerial(env.platformOs, env.serialApi)
              && r.value.cpu == DeviceCpu(env.cpuApi)
              && r.value.memory == DeviceMemory(env.memoryApi)
              && r.value.tabCount == TabCountFact(env.windowsApi)
              && r.value.osVersion == OsVersion(env.userAgent, env.versionCapture).value
              && r.value.consoleUser == env.profileEmail
              && r.value.version == ExtensionVersion(env.manifest).value
    ensures OsVersion(env.userAgent, env.versionCapture).Failure? ==>
              r == Failure(OsVersion(env.userAgent, env.versionCapture).error)
    ensures OsVersion(env.userAgent, env.versionCapture).Success? && ExtensionVersion(env.manifest).Failure? ==>
              r == Failure(ExtensionVersion(env.manifest).error)
  {
    var deviceId := GoogleDeviceId(env.deviceIdApi);
    var serial := DeviceSerial(env.platformOs, env.serialApi);
    match OsVersion(env.userAgent, env.versionCapture)
    case Failure(e) => Failure(e)
    case Success(osVersion) =>
      match ExtensionVersion(env.manifest)
      case Failure(e) => Failure(e)
      case Success(version) =>
        Success(DeviceFacts(deviceId, serial, osVersion, env.profileEmail, version,
                            DeviceCpu(env.cpuApi), DeviceMemory(env.memoryApi), TabCountFact(env.windowsApi)))
  }

  /**
   * The record literal `{...facts, runType: type, ...probe}`: every fact key
   * and `runType` are present, and the probe's fields, spread last, win on a
   * collision.
   */
  function AssembleRecord(facts: DeviceFacts, runType: string, probe: map<string, JsValue>): (record: map<string, JsValue>)
    ensures record.Keys == FactKeys + {RunTypeKey} + probe.Keys
    ensures forall k :: k in probe ==> record[k] == probe[k]
    ensures RunTypeKey !in probe ==> record[RunTypeKey] == Str(runType)
    ensures forall k :: k in FactKeys && k !in probe ==> record[k] == FactMap(facts)[k]
  {
    FactMap(facts)[RunTypeKey := Str(runType)] + probe
  }

  /** The run marker `{LAST_RUN_TIME, LAST_RUN_TYPE}`. */
  function RunMarker(nowMs: int, runType: string): JsValue
  {
    Obj(map[LastRunTimeKey := Num(nowMs), LastRunTypeKey := Str(runType)])
  }

  /** The marker holds exactly the run's time and type, under their two keys. */
  lemma RunMarkerFields(nowMs: int, runType: string)
    ensures RunMarker(nowMs, runType).Obj?
    ensures RunMarker(nowMs, runType).fields.Keys == {LastRunTimeKey, LastRunTypeKey}
    ensures Get(RunMarker(nowMs, runType), LastRunTimeKey) == Num(nowMs)
    ensures Get(RunMarker(nowMs, runType), LastRunTypeKey) == Str(runType)
  {
  }

  /** `chrome.storage.local.set({SPEEDTEST_DATA: marker})` when a marker was written. */
  function Persist(storage: map<string, JsValue>, marker: Option<JsValue>): (stored: map<string, JsValue>)
    ensures marker.None? ==> stored == storage
    ensures marker.Some? ==> stored.Keys == storage.Keys + {SpeedtestDataKey} && stored[SpeedtestDataKey] == marker.value
    ensures forall k :: k in storage && k != SpeedtestDataKey ==> stored[k] == storage[k]
  {
    match marker
    case Some(m) => storage[SpeedtestDataKey := m]
    case None => storage
  }

  function Sent(request: Option<HttpRequest>): seq<HttpRequest>
  {
    match request
    case Some(r) => [r]
    case None => []
  }

  /** The stages of a run, in the order they are reached. */
  datatype Stage = SettingsResolved | FactsCollected | ProbeComplete | MarkerPersisted | Shipped

  const AllStages := [SettingsResolved, FactsCollected, ProbeComplete, MarkerPersisted, Shipped]

  /** Stages reached in two steps add up to the stages of the whole run. */
  lemma StagesSplit(before: seq<Stage>, done: seq<Stage>, stages: seq<Stage>)
    requires |done| <= |stages| && stages[..|done|] == done
    ensures before + done + stages[|done|..] == before + stages
  {
    assert done + stages[|done|..] == stages;
  }

  /** One more stage reached adds up to the stages from that one on. */
  lemma StageStep(before: seq<Stage>, stages: seq<Stage>, k: nat)
    requires k < |stages|
    ensures before + [stages[k]] + stages[k + 1..] == before + stages[k..]
  {
    assert [stages[k]] + stages[k + 1..] == stages[k..];
  }

  /** How the promise of `runEverything` settles. */
  datatype Outcome = Done | Failed(error: Thrown)

  /** What one run did: the stages it reached and what it handed to the probe, the store and the network. */
  datatype RunReport = RunReport(
    stages: seq<Stage>,
    probeSetup: Option<SpeedtestSetup>,
    record: Option<map<string, JsValue>>,
    marker: Option<JsValue>,
    request: Option<HttpRequest>,
    outcome: Outcome)

  /**
   * The specification of one run. It stops at the first rejection: invalid
   * settings stop it before any fact is gathered; a rejecting adapter or a
   * throwing probe stop it before the marker; an unusable sink name stops it
   * after the marker was written, which is not rolled back.
   */
  function Run(runType: string, env: Env): (report: RunReport)
    ensures report.stages <= AllStages
    ensures report.outcome == Done <==> report.stages == AllStages
    ensures report.stages == [] <==> GetSettings(env.localSettings, env.managed).Failure?
    ensures report.stages == [] ==> report.outcome == Failed(GetSettings(env.localSettings, env.managed).error)
    ensures report.probeSetup.Some? <==> |report.stages| >= 2
    ensures report.probeSetup.Some? ==>
              && GetSettings(env.localSettings, env.managed).Success?
              && report.probeSetup.value == Setup(GetSettings(env.localSettings, env.managed).value.speedtestUrls, runType)
    ensures report.marker.Some? <==> |report.stages| >= 4
    ensures report.marker.Some? ==> report.marker.value == RunMarker(env.nowMs, runType)
    ensures report.record.Some? <==> report.marker.Some?
    ensures report.request.Some? <==> report.outcome == Done
  {
    match GetSettings(env.localSettings, env.managed)
    case Failure(e) => Stopped([], None, None, None, e)
    case Success(settings) => RunWithSettings(runType, env, settings)
  }

  /** A run that stops with `error` after reaching `stages`. */
  function Stopped(stages: seq<Stage>, probeSetup: Option<SpeedtestSetup>, record: Option<map<string, JsValue>>,
                   marker: Option<JsValue>, error: Thrown): RunReport
  {
    RunReport(stages, probeSetup, record, marker, None, Failed(error))
  }

  /** The run once the settings are resolved: the device facts come next. */
  function RunWithSettings(runType: string, env: Env, settings: ResolvedSettings): (report: RunReport)
    requires Truthy(settings.loggerConfig) && Truthy(settings.speedtestUrls)
    ensures report.stages <= AllStages && |report.stages| >= 1
    ensures CollectFacts(env).Failure? ==>
              report.stages == [SettingsResolved] && report.outcome == Failed(CollectFacts(env).error)
    ensures report.outcome == Done <==> report.stages == AllStages
    ensures report.probeSetup.Some? <==> |report.stages| >= 2
    ensures report.probeSetup.Some? ==> report.probeSetup.value == Setup(settings.speedtestUrls, runType)
    ensures report.marker.Some? <==> |report.stages| >= 4
    ensures report.marker.Some? ==> report.marker.value == RunMarker(env.nowMs, runType)
    ensures report.record.Some? <==> report.marker.Some?
    ensures report.request.Some? <==> report.outcome == Done
  {
    match CollectFacts(env)
    case Failure(e) => Stopped([SettingsResolved], None, None, None, e)
    case Success(facts) => RunWithFacts(runType, env, settings, facts)
  }

  /** The run once the facts are gathered: the probe comes next. */
  function RunWithFacts(runType: string, env: Env, settings: ResolvedSettings, facts: DeviceFacts): (report: RunReport)
    requires Truthy(settings.loggerConfig) && Truthy(settings.speedtestUrls)
    ensures report.stages <= AllStages && |report.stages| >= 2
    ensures report.stages[..2] == [SettingsResolved, FactsCollected]
    ensures report.outcome == Done <==> report.stages == AllStages
    ensures report.probeSetup == Some(Setup(settings.speedtestUrls, runType))
    ensures report.marker.Some? <==> |report.stages| >= 4
    ensures report.marker.Some? ==> report.marker.value == RunMarker(env.nowMs, runType)
    ensures report.record.Some? <==> report.marker.Some?
    ensures report.request.Some? <==> report.outcome == Done
  {
    var setup := Setup(settings.speedtestUrls, runType);
    match SpeedtestData(env.probe, env.probeTimestamp)
    case Failure(e) => Stopped([SettingsResolved, FactsCollected], Some(setup), None, None, e)
    case Success(probe) => Ship(runType, env, settings, setup, AssembleRecord(facts, runType, probe))
  }

  /** The run once the record is assembled: the marker is written, then the record is dispatched. */
  function Ship(runType: string, env: Env, settings: ResolvedSettings, setup: SpeedtestSetup,
                record: map<string, JsValue>): (report: RunReport)
    requires Truthy(settings.loggerConfig)
    ensures report.stages <= AllStages && |report.stages| >= 4
    ensures report.stages[..4] == [SettingsResolved, FactsCollected, ProbeComplete, MarkerPersisted]
    ensures report.outcome == Done <==> report.stages == AllStages
    ensures report.probeSetup == Some(setup)
    ensures report.record == Some(record) && report.marker == Some(RunMarker(env.nowMs, runType))
    ensures report.request.Some? <==> report.outcome == Done
    ensures var dispatch := LogData(env.globals, settings.loggerConfig, Obj(record), env.shipTimestamp);
            && (report.outcome == Done <==> dispatch.Success?)
            && (dispatch.Success? ==> report.request == Some(dispatch.value))
            && (dispatch.Failure? ==> report.outcome == Failed(dispatch.error))
  {
    var marker := RunMarker(env.nowMs, runType);
    match LogData(env.globals, settings.loggerConfig, Obj(record), env.shipTimestamp)
    case Failure(e) =>
      Stopped([SettingsResolved, FactsCollected, ProbeComplete, MarkerPersisted], Some(setup), Some(record), Some(marker), e)
    case Success(request) =>
      RunReport(AllStages, Some(setup), Some(record), Some(marker), Some(request), Done)
  }

  /** The steps `Ship` takes after the probe, by what the dispatch does. */
  lemma ShipSteps(runType: string, env: Env, settings: ResolvedSettings, setup: SpeedtestSetup,
                  record: map<string, JsValue>)
    requires Truthy(settings.loggerConfig)
    ensures var tail := Ship(runType, env, settings, setup, record);
            var dispatch := LogData(env.globals, settings.loggerConfig, Obj(record), env.shipTimestamp);
            && tail.marker == Some(RunMarker(env.nowMs, runType))
            && (dispatch.Failure? ==>
                  tail.stages[3..] == [MarkerPersisted] && tail.outcome == Failed(dispatch.error) && tail.request.None?)
            && (dispatch.Success? ==>
                  tail.stages[3..] == [MarkerPersisted, Shipped] && tail.outcome == Done && tail.request == Some(dispatch.value))
  {
  }

  /** The device facts, awaited one after the other. */
  method GatherFacts(env: Env) returns (facts: Result<DeviceFacts, Thrown>)
    ensures facts == CollectFacts(env)
  {
    var googleDeviceID := GoogleDeviceId(env.deviceIdApi);
    var serialNumber := DeviceSerial(env.platformOs, env.serialApi);
    var osVersion := OsVersion(env.userAgent, env.versionCapture);
    if osVersion.Failure? {
      return Failure(osVersion.error);
    }
    var consoleUser := env.profileEmail;
    var version := ExtensionVersion(env.manifest);
    if version.Failure? {
      return Failure(version.error);
    }
    var cpu := DeviceCpu(env.cpuApi);
    var memory := DeviceMemory(env.memoryApi);
    var tabCount := GetTabCount(env.windowsApi);
    return Success(DeviceFacts(googleDeviceID, serialNumber, osVersion.value, consoleUser,
                               version.value, cpu, memory, tabCount));
  }

  /** How the report of a run from the probe on splits at the probe. */
  lemma ProbeSettles(runType: string, env: Env, settings: ResolvedSettings, facts: DeviceFacts)
    requires Truthy(settings.loggerConfig) && Truthy(settings.speedtestUrls)
    ensures var report := RunWithFacts(runType, env, settings, facts);
            var probe := SpeedtestData(env.probe, env.probeTimestamp);
            && (probe.Failure? ==>
                  && report.stages[2..] == [] && report.outcome == Failed(probe.error)
                  && report.marker.None? && report.request.None?)
            && (probe.Success? ==>
                  && report == Ship(runType, env, settings, Setup(settings.speedtestUrls, runType),
                                    AssembleRecord(facts, runType, probe.value))
                  && report.stages[2] == ProbeComplete)
  {
    var report := RunWithFacts(runType, env, settings, facts);
    if SpeedtestData(env.probe, env.probeTimestamp).Success? {
      assert report.stages[2] == report.stages[..4][2];
    } else {
      assert report.stages[2..] == [];
    }
  }

  /** The extension's durable and outward state, updated run by run. */
  class Extension {
    var storage: map<string, JsValue>   // chrome.storage.local
    var outbox: seq<HttpRequest>        // requests handed to fetch, oldest first
    ghost var stages: seq<Stage>        // stages reached, run after run

    constructor (persisted: map<string, JsValue>)
      ensures storage == persisted && outbox == [] && stages == []
    {
      storage := persisted;
      outbox := [];
      stages := [];
    }

    /** `runEverything(type)`, one step after the other. */
    method RunEverything(runType: string, env: Env) returns (outcome: Outcome)
      modifies this
      ensures outcome == Run(runType, env).outcome
      ensures stages == old(stages) + Run(runType, env).stages
      ensures storage == Persist(old(storage), Run(runType, env).marker)
      ensures outbox == old(outbox) + Sent(Run(runType, env).request)
    {
      var settings := GetSettings(env.localSettings, env.managed);
      if settings.Failure? {
        return Failed(settings.error);
      }
      ghost var report := RunWithSettings(runType, env, settings.value);
      assert Run(runType, env) == report;
      stages := stages + [SettingsResolved];

      var facts := GatherFacts(env);
      if facts.Failure? {
        assert report == Stopped([SettingsResolved], None, None, None, facts.error);
        return Failed(facts.error);
      }
      assert report == RunWithFacts(runType, env, settings.value, facts.value);
      stages := stages + [FactsCollected];
      assert stages == old(stages) + [SettingsResolved, FactsCollected];

      outcome := ProbeThenShip(runType, env, settings.value, facts.value, report);
      StagesSplit(old(stages), [SettingsResolved, FactsCollected], report.stages);
    }

    /** The probe, then the record, the marker and the dispatch; `report` is the report of the run. */
    method ProbeThenShip(runType: string, env: Env, settings: ResolvedSettings, facts: DeviceFacts,
                         ghost report: RunReport) returns (outcome: Outcome)
      requires Truthy(settings.loggerConfig) && Truthy(settings.speedtestUrls)
      requires report == RunWithFacts(runType, env, settings, facts)
      modifies this
      ensures outcome == report.outcome
      ensures stages == old(stages) + report.stages[2..]
      ensures storage == Persist(old(storage), report.marker)
      ensures outbox == old(outbox) + Sent(report.request)
    {
      var setup := Setup(settings.speedtestUrls, runType);
      var probe := SpeedtestData(env.probe, env.probeTimestamp);
      ProbeSettles(runType, env, settings, facts);
      if probe.Failure? {
        return Failed(probe.error);
      }
      stages := stages + [ProbeComplete];
      var record := AssembleRecord(facts, runType, probe.value);
      ShipSteps(runType, env, settings, setup, record);
      StageStep(old(stages), report.stages, 2);
      outcome := MarkThenShip(runType, env, settings, record);
    }

    /**
     * The tail of a run: overwrite the marker slot, then hand the record to
     * the data logger; what the dispatch returns decides the outcome.
     */
    method MarkThenShip(runType: string, env: Env, settings: ResolvedSettings, record: map<string, JsValue>)
      returns (outcome: Outcome)
      requires Truthy(settings.loggerConfig)
      modifies this
      ensures var dispatch := LogData(env.globals, settings.loggerConfig, Obj(record), env.shipTimestamp);
              && outcome == (if dispatch.Success? then Done else Failed(dispatch.error))
              && stages == old(stages) + (if dispatch.Success? then [MarkerPersisted, Shipped] else [MarkerPersisted])
              && outbox == old(outbox) + (if dispatch.Success? then [dispatch.value] else [])
      ensures storage == old(storage)[SpeedtestDataKey := RunMarker(env.nowMs, runType)]
    {
      storage := storage[SpeedtestDataKey := RunMarker(env.nowMs, runType)];
      stages := stages + [MarkerPersisted];
      var dispatch := LogData(env.globals, settings.loggerConfig, Obj(record), env.shipTimestamp);
      outcome := Deliver(dispatch);
    }

    /** Hands a built request to `fetch`; a dispatch that threw ends the run with its exception. */
    method Deliver(dispatch: Result<HttpRequest, Thrown>) returns (outcome: Outcome)
      modifies this
      ensures outcome == (if dispatch.Success? then Done else Failed(dispatch.error))
      ensures stages == old(stages) + (if dispatch.Success? then [Shipped] else [])
      ensures outbox == old(outbox) + (if dispatch.Success? then [dispatch.value] else [])
      ensures storage == old(storage)
    {
      if dispatch.Failure? {
        return Failed(dispatch.error);
      }
      outbox := outbox + [dispatch.value];
      stages := stages + [Shipped];
      outcome := Done;
    }
  }

  /** The local storage after a sequence of runs, one at a time, given their reports oldest first. */
  function StorageAfter(storage: map<string, JsValue>, reports: seq<RunReport>): map<string, JsValue>
  {
    if |reports| == 0 then storage
    else Persist(StorageAfter(storage, reports[..|reports| - 1]), reports[|reports| - 1].marker)
  }

  /** The index of the last run that wrote its marker, or -1 when none did. */
  function LastMarkedRun(reports: seq<RunReport>): (i: int)
    ensures -1 <= i < |reports|
    ensures i >= 0 ==> reports[i].marker.Some?
    ensures forall j :: i < j < |reports| ==> reports[j].marker.None?
  {
    if |reports| == 0 then -1
    else if reports[|reports| - 1].marker.Some? then |reports| - 1
    else LastMarkedRun(reports[..|reports| - 1])
  }

  /**
   * Single-slot history: after any sequence of runs, `SPEEDTEST_DATA` holds
   * the marker of the last run that reached it and nothing of the runs
   * before; every other stored key is as it was.
   */
  lemma {:induction false} SingleSlotHistory(storage: map<string, JsValue>, reports: seq<RunReport>)
    ensures var i := LastMarkedRun(reports);
            i >= 0 ==> && SpeedtestDataKey in StorageAfter(storage, reports)
                       && StorageAfter(storage, reports)[SpeedtestDataKey] == reports[i].marker.value
    ensures LastMarkedRun(reports) == -1 ==> StorageAfter(storage, reports) == storage
    ensures forall k :: k != SpeedtestDataKey ==> (k in StorageAfter(storage, reports) <==> k in storage)
    ensures forall k :: k != SpeedtestDataKey && k in storage ==> StorageAfter(storage, reports)[k] == storage[k]
    decreases |reports|
  {
    if |reports| > 0 {
      var front := reports[..|reports| - 1];
      SingleSlotHistory(storage, front);
      var i := LastMarkedRun(reports);
      if i >= 0 && i < |reports| - 1 {
        assert LastMarkedRun(front) == i;
        assert front[i] == reports[i];
      }
    }
  }

  /**
   * The marker left by a sequence of runs names the time and the type of the
   * last run that wrote one.
   */
  lemma LastRunTypeIsRemembered(storage: map<string, JsValue>, runTypes: seq<string>, envs: seq<Env>, reports: seq<RunReport>)
    requires |runTypes| == |envs| == |reports|
    requires forall j :: 0 <= j < |reports| ==> reports[j] == Run(runTypes[j], envs[j])
    requires LastMarkedRun(reports) >= 0
    ensures var i := LastMarkedRun(reports);
            && SpeedtestDataKey in StorageAfter(storage, reports)
            && StorageAfter(storage, reports)[SpeedtestDataKey] == RunMarker(envs[i].nowMs, runTypes[i])
  {
    SingleSlotHistory(storage, reports);
  }

  /**
   * Once the probe has settled, the run assembles its record and writes its
   * marker; the record holds every fact key and `runType`, the probe's fields
   * unchanged, and `successful` tells whether the probe was aborted.
   */
  lemma RecordOfProbedRun(runType: string, env: Env)
    requires |Run(runType, env).stages| >= 3
    ensures CollectFacts(env).Success? && SpeedtestData(env.probe, env.probeTimestamp).Success?
    ensures var probe := SpeedtestData(env.probe, env.probeTimestamp).value;
            && Run(runType, env).record == Some(AssembleRecord(CollectFacts(env).value, runType, probe))
            && Run(runType, env).marker == Some(RunMarker(env.nowMs, runType))
            && FactKeys + {RunTypeKey} <= Run(runType, env).record.value.Keys
            && (forall k :: k in probe ==> Run(runType, env).record.value[k] == probe[k])
            && env.probe.Ended?
            && Run(runType, env).record.value[SuccessfulKey] == Bool(!env.probe.aborted)
  {
    var settings := GetSettings(env.localSettings, env.managed).value;
    var facts := CollectFacts(env).value;
    var probe := SpeedtestData(env.probe, env.probeTimestamp).value;
    var record := AssembleRecord(facts, runType, probe);
    assert Run(runType, env).record == Some(record) && Run(runType, env).marker == Some(RunMarker(env.nowMs, runType)) by {
      assert Run(runType, env) == RunWithFacts(runType, env, settings, facts);
      assert Run(runType, env) == Ship(runType, env, settings, Setup(settings.speedtestUrls, runType), record);
    }
    assert record[SuccessfulKey] == probe[SuccessfulKey];
  }

  /**
   * A completed run ships exactly one request to the configured sink: the
   * record as the single event of a batch tagged `{type: "chrometric"}`,
   * authorised with the merged logger configuration's token.
   */
  lemma ShippedRequest(runType: string, env: Env)
    requires Run(runType, env).outcome == Done
    ensures Run(runType, env).record.Some? && Run(runType, env).request.Some?
    ensures var request := Run(runType, env).request.value;
            && ReadIngestBody(request.body)
               == Some([IngestBatch(TypeTag, [IngestEvent(env.shipTimestamp, Obj(Run(runType, env).record.value))])])
            && request.headers["Authorization"]
               == BearerHeader(Get(GetSettings(env.localSettings, env.managed).value.loggerConfig, TokenKey)).value
  {
    var settings := GetSettings(env.localSettings, env.managed).value;
    var facts := CollectFacts(env).value;
    assert Run(runType, env) == RunWithFacts(runType, env, settings, facts);
    var probe := SpeedtestData(env.probe, env.probeTimestamp).value;
    var record := AssembleRecord(facts, runType, probe);
    assert Run(runType, env) == Ship(runType, env, settings, Setup(settings.speedtestUrls, runType), record);
  }

  /** An unreachable probe is data, not an error: the marker is written and the record, marked unsuccessful, is shipped. */
  lemma AbortedProbeStillShips(runType: string, env: Env, settings: ResolvedSettings, facts: DeviceFacts)
    requires GetSettings(env.localSettings, env.managed) == Success(settings)
    requires Get(settings.loggerConfig, "name") == Str("humio")
    requires "humio" in env.globals && env.globals["humio"] == HumioConstructor
    requires BearerHeader(Get(settings.loggerConfig, TokenKey)).Success?
    requires CollectFacts(env) == Success(facts)
    requires env.probe.Ended? && env.probe.aborted
    ensures Run(runType, env).outcome == Done && Run(runType, env).marker.Some?
    ensures Run(runType, env).record == Some(AssembleRecord(facts, runType, map[SuccessfulKey := Bool(false)]))
    ensures Run(runType, env).record.value[SuccessfulKey] == Bool(false)
  {
    assert Run(runType, env) == RunWithFacts(runType, env, settings, facts);
    AbortedProbeShips(runType, env, settings, facts);
  }

  /** `AbortedProbeStillShips` from the probe on. */
  lemma AbortedProbeShips(runType: string, env: Env, settings: ResolvedSettings, facts: DeviceFacts)
    requires Truthy(settings.loggerConfig) && Truthy(settings.speedtestUrls)
    requires Get(settings.loggerConfig, "name") == Str("humio")
    requires "humio" in env.globals && env.globals["humio"] == HumioConstructor
    requires BearerHeader(Get(settings.loggerConfig, TokenKey)).Success?
    requires env.probe.Ended? && env.probe.aborted
    ensures var report := RunWithFacts(runType, env, settings, facts);
            && report.outcome == Done && report.marker.Some?
            && report.record == Some(AssembleRecord(facts, runType, map[SuccessfulKey := Bool(false)]))
  {
    var probe := map[SuccessfulKey := Bool(false)];
    assert SpeedtestData(env.probe, env.probeTimestamp) == Success(probe);
    var record := AssembleRecord(facts, runType, probe);
    assert LogData(env.globals, settings.loggerConfig, Obj(record), env.shipTimestamp).Success?;
  }

  /**
   * A rejecting adapter stops the run right after the settings, before the
   * probe is set up, and the run rejects with the adapter's exception; a run
   * stops there for no other reason.
   */
  lemma AdapterRejectionStopsTheRun(runType: string, env: Env)
    ensures Run(runType, env).stages == [SettingsResolved]
            <==> GetSettings(env.localSettings, env.managed).Success? && CollectFacts(env).Failure?
    ensures GetSettings(env.localSettings, env.managed).Success? && CollectFacts(env).Failure? ==>
              && Run(runType, env).outcome == Failed(CollectFacts(env).error)
              && Run(runType, env).probeSetup.None? && Run(runType, env).marker.None?
              && Run(runType, env).request.None?
  {
    if GetSettings(env.localSettings, env.managed).Success? {
      var settings := GetSettings(env.localSettings, env.managed).value;
      assert Run(runType, env) == RunWithSettings(runType, env, settings);
    }
  }

  /**
   * A probe whose `start()` throws stops the run after the facts and rejects
   * it with that exception; nothing is stored or sent. A run stops there for
   * no other reason.
   */
  lemma ProbeStartFailureStopsTheRun(runType: string, env: Env)
    ensures Run(runType, env).stages == [SettingsResolved, FactsCollected]
            <==> && GetSettings(env.localSettings, env.managed).Success?
                 && CollectFacts(env).Success? && env.probe == StartThrows
    ensures GetSettings(env.localSettings, env.managed).Success? && CollectFacts(env).Success? && env.probe == StartThrows ==>
              && Run(runType, env).outcome == Failed(Foreign("Speedtest.start"))
              && Run(runType, env).marker.None? && Run(runType, env).request.None?
  {
    if GetSettings(env.localSettings, env.managed).Success? {
      var settings := GetSettings(env.localSettings, env.managed).value;
      assert Run(runType, env) == RunWithSettings(runType, env, settings);
      if CollectFacts(env).Success? {
        assert Run(runType, env) == RunWithFacts(runType, env, settings, CollectFacts(env).value);
      }
    }
  }

  /**
   * A dispatch that fails rejects the run with the dispatcher's exception
   * after the marker was written: the store records a run whose data was
   * never sent.
   */
  lemma DispatchFailureKeepsTheMarker(runType: string, env: Env, settings: ResolvedSettings, facts: DeviceFacts,
                                      probe: map<string, JsValue>)
    requires GetSettings(env.localSettings, env.managed) == Success(settings)
    requires CollectFacts(env) == Success(facts)
    requires SpeedtestData(env.probe, env.probeTimestamp) == Success(probe)
    requires LogData(env.globals, settings.loggerConfig, Obj(AssembleRecord(facts, runType, probe)), env.shipTimestamp).Failure?
    ensures Run(runType, env).stages == [SettingsResolved, FactsCollected, ProbeComplete, MarkerPersisted]
    ensures Run(runType, env).outcome
            == Failed(LogData(env.globals, settings.loggerConfig, Obj(AssembleRecord(facts, runType, probe)), env.shipTimestamp).error)
    ensures Run(runType, env).marker == Some(RunMarker(env.nowMs, runType))
    ensures Run(runType, env).request.None?
  {
    var record := AssembleRecord(facts, runType, probe);
    assert Run(runType, env) == Ship(runType, env, settings, Setup(settings.speedtestUrls, runType), record) by {
      assert Run(runType, env) == RunWithFacts(runType, env, settings, facts);
    }
  }

  /**
   * When every fallback-protected API throws and the platform is not Chrome
   * OS, the facts are still gathered and carry their documented defaults.
   */
  lemma FallbacksFillTheFacts(env: Env)
    requires OsVersion(env.userAgent, env.versionCapture).Success? && ExtensionVersion(env.manifest).Success?
    requires env.deviceIdApi.Throws? && env.cpuApi.Throws? && env.memoryApi.Throws? && env.windowsApi.Throws?
    requires !IsChromeOs(env.platformOs)
    ensures CollectFacts(env).Success?
    ensures var facts := CollectFacts(env).value;
            && facts.googleDeviceID == Str(DefaultDeviceId)
            && facts.serialNumber == Str(DefaultSerial)
            && facts.cpu == EmptyObject && facts.memory == EmptyObject
            && facts.tabCount == 0
  {
  }
}
