/**
 * The probe facade (`getSpeedtestData`): how the Speedtest library is set up
 * for a run type, which endpoint it targets, and what the returned promise
 * settles to. The measurement itself is the library's business and arrives
 * here as a `ProbeOutcome`.
 */
module Probe {
  import opened Js

  const ManualRun := "manual"
  const FullTestOrder := "IP_D_U"     // ping, download, upload
  const LatencyTestOrder := "IP"      // ping (latency and jitter) only
  const TestOrderParameter := "test_order"
  const SuccessfulKey := "successful"
  const TimestampKey := "speedtest_timestamp"

  /** How a started Speedtest ends: `start()` throws, or `onend(aborted)` is called. */
  datatype ProbeOutcome =
    | StartThrows
    | Ended(aborted: bool, prevData: map<string, JsValue>)   // `prevData`: the library's parsed `_prevData`

  /** The configuration handed to the library before `start()`. */
  datatype SpeedtestSetup = SpeedtestSetup(parameters: map<string, string>, testPoints: JsValue, selectedServer: JsValue)

  /** Manual runs do the full test; every other run type only measures latency and jitter. */
  function TestOrder(runType: string): (order: string)
    ensures order == FullTestOrder <==> runType == ManualRun
    ensures order == LatencyTestOrder <==> runType != ManualRun
  {
    if runType == ManualRun then FullTestOrder else LatencyTestOrder
  }

  /** `speedtestUrls[0]`: the first configured endpoint is the target, the rest are never tried. */
  function SelectedServer(speedtestUrls: JsValue): (server: JsValue)
    requires !Nullish(speedtestUrls)
    ensures speedtestUrls.Arr? && |speedtestUrls.items| > 0 ==> server == speedtestUrls.items[0]
    ensures speedtestUrls.Arr? && |speedtestUrls.items| == 0 ==> server == Undefined
    ensures speedtestUrls == EmptyObject ==> server == Undefined
  {
    Index0(speedtestUrls)
  }

  /** The `setParameter`, `addTestPoints` and `setSelectedServer` calls made for a run. */
  function Setup(speedtestUrls: JsValue, runType: string): (setup: SpeedtestSetup)
    requires !Nullish(speedtestUrls)
    ensures setup.parameters.Keys == {"telemetry_level", "xhr_ignoreErrors", "xhr_ul_blob_megabytes", TestOrderParameter}
    ensures setup.parameters[TestOrderParameter] == TestOrder(runType)
    ensures setup.parameters["telemetry_level"] == "2"
    ensures setup.parameters["xhr_ignoreErrors"] == "0" && setup.parameters["xhr_ul_blob_megabytes"] == "4"
    ensures setup.testPoints == speedtestUrls && setup.selectedServer == SelectedServer(speedtestUrls)
  {
    SpeedtestSetup(
      map["telemetry_level" := "2", "xhr_ignoreErrors" := "0", "xhr_ul_blob_megabytes" := "4",
          TestOrderParameter := TestOrder(runType)],
      speedtestUrls,
      SelectedServer(speedtestUrls))
  }

  /**
   * What the promise of `getSpeedtestData` settles to. An aborted test
   * resolves to exactly `{successful: false}` (that first `resolve` wins, the
   * later one is ignored); a completed one resolves to the library's results
   * stamped with the time and `successful: true`; a throwing `start()` rejects.
   */
  function SpeedtestData(outcome: ProbeOutcome, timestamp: string): (r: Result<map<string, JsValue>, Thrown>)
    ensures r.Failure? <==> outcome.StartThrows?
    ensures outcome.Ended? && outcome.aborted ==> r == Success(map[SuccessfulKey := Bool(false)])
    ensures outcome.Ended? && !outcome.aborted ==>
              && r.Success?
              && r.value.Keys == outcome.prevData.Keys + {TimestampKey, SuccessfulKey}
              && r.value[SuccessfulKey] == Bool(true)
              && r.value[TimestampKey] == Str(timestamp)
              && forall k :: k in outcome.prevData && k != TimestampKey && k != SuccessfulKey ==>
                   r.value[k] == outcome.prevData[k]
  {
    match outcome
    case StartThrows => Failure(Foreign("Speedtest.start"))
    case Ended(aborted, prevData) =>
      if aborted then Success(map[SuccessfulKey := Bool(false)])
      else Success(prevData[TimestampKey := Str(timestamp)][SuccessfulKey := Bool(true)])
  }

  /** The `successful` field of a settled probe tells exactly whether the test was aborted. */
  lemma SuccessfulMeansNotAborted(outcome: ProbeOutcome, timestamp: string)
    requires outcome.Ended?
    ensures SpeedtestData(outcome, timestamp).Success?
    ensures SpeedtestData(outcome, timestamp).value[SuccessfulKey] == Bool(!outcome.aborted)
  {
  }

  /** No failover: endpoints after the first one never influence the target. */
  lemma NoFailover(first: JsValue, rest1: seq<JsValue>, rest2: seq<JsValue>)
    ensures SelectedServer(Arr([first] + rest1)) == SelectedServer(Arr([first] + rest2)) == first
  {
  }
}
