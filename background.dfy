/**
 * The background page: it schedules the periodic alarm, turns an alarm or a
 * message from the popup into a run of the orchestrator, and answers the popup.
 */
module Background {
  import opened Js
  import opened Probe
  import opened Orchestrator

  /** Minutes between automatic runs before splay is added. */
  const Interval: int := 10
  /** Width of the random splay window, in minutes. */
  const Splay: int := 5
  const AlarmName: string := "telemetryAlarm"
  const AutoRun: string := "auto"
  const RunSpeedtestAction: string := "runSpeedtest"
  /** Minutes from start-up to the first alarm. */
  const FirstDelayMinutes: int := 1

  /**
   * `floor(random * floor(splay)) + interval`, for a draw `random` of
   * `Math.random`: the period is an integer number of minutes in [10, 15).
   */
  function AlarmPeriod(random: real): (period: int)
    requires 0.0 <= random < 1.0
    ensures Interval <= period < Interval + Splay
  {
    (random * Splay as real).Floor + Interval
  }

  /** Every period in the window is drawn for some value of `Math.random`. */
  lemma EveryPeriodReachable(period: int)
    requires Interval <= period < Interval + Splay
    ensures exists random: real :: 0.0 <= random < 1.0 && AlarmPeriod(random) == period
  {
    var random := (period - Interval) as real / Splay as real;
    assert random * Splay as real == (period - Interval) as real;
    assert AlarmPeriod(random) == period;
  }

  datatype AlarmInfo = AlarmInfo(name: string, delayInMinutes: int, periodInMinutes: int)

  /** The single repeating alarm registered when the background page loads. */
  function TelemetryAlarm(random: real): (alarm: AlarmInfo)
    requires 0.0 <= random < 1.0
    ensures alarm.name == AlarmName
    ensures alarm.delayInMinutes == FirstDelayMinutes
    ensures alarm.periodInMinutes == AlarmPeriod(random)
    ensures Interval <= alarm.periodInMinutes < Interval + Splay
  {
    AlarmInfo(AlarmName, FirstDelayMinutes, AlarmPeriod(random))
  }

  /** Every period in the window is the period of the alarm for some value of `Math.random`. */
  lemma EveryScheduleReachable(period: int)
    requires Interval <= period < Interval + Splay
    ensures exists random: real :: 0.0 <= random < 1.0 && TelemetryAlarm(random) == AlarmInfo(AlarmName, FirstDelayMinutes, period)
  {
    EveryPeriodReachable(period);
    var random: real :| 0.0 <= random < 1.0 && AlarmPeriod(random) == period;
    assert TelemetryAlarm(random) == AlarmInfo(AlarmName, FirstDelayMinutes, period);
  }

  /** The run type an alarm starts: only the telemetry alarm starts a run, an automatic one. */
  function AlarmTrigger(alarmName: string): (runType: Option<string>)
    ensures runType.Some? <==> alarmName == AlarmName
    ensures runType.Some? ==> runType.value == AutoRun
  {
    if alarmName == AlarmName then Some(AutoRun) else None
  }

  /** What a message from the popup causes: the run it starts and the response sent back. */
  datatype MessageReply = MessageReply(runType: Option<string>, response: Option<JsValue>)

  const StartedResponse: JsValue := Obj(map["status" := Str("started")])

  /**
   * `request.action == "runSpeedtest"` with loose equality: a match starts a
   * manual run and answers `{status: "started"}`, anything else is ignored.
   * A null or undefined request makes the property read throw.
   */
  function MessageTrigger(request: JsValue): (r: Result<MessageReply, Thrown>)
    ensures r.Failure? <==> Nullish(request)
    ensures r.Failure? ==> r.error == TypeError
    ensures r.Success? ==> (r.value.runType.Some? <==> r.value.response.Some?)
    ensures r.Success? && r.value.runType.Some? ==>
              r.value.runType.value == ManualRun && r.value.response.value == StartedResponse
    ensures r.Success? && Get(request, "action").Str? ==>
              (r.value.runType.Some? <==> Get(request, "action").s == RunSpeedtestAction)
  {
    if Nullish(request) then Failure(TypeError)
    else if LooseEqualsWord(Get(request, "action"), RunSpeedtestAction)
    then Success(MessageReply(Some(ManualRun), Some(StartedResponse)))
    else Success(MessageReply(None, None))
  }

  /** Only the message naming the action starts a run; other actions, and a missing one, do not. */
  lemma OnlyRunSpeedtestStartsARun(fields: map<string, JsValue>)
    ensures var r := MessageTrigger(Obj(fields));
            r.Success? &&
            ("action" !in fields ==> r.value == MessageReply(None, None)) &&
            ("action" in fields && fields["action"] == Str(RunSpeedtestAction) ==>
               r.value == MessageReply(Some(ManualRun), Some(StartedResponse)))
  {
  }

  /** Automatic runs probe latency and jitter only; a popup request runs the full test. */
  lemma TriggersChooseTheTestOrder(alarmName: string, request: JsValue)
    ensures AlarmTrigger(alarmName).Some? ==>
              TestOrder(AlarmTrigger(alarmName).value) == LatencyTestOrder
    ensures MessageTrigger(request).Success? && MessageTrigger(request).value.runType.Some? ==>
              TestOrder(MessageTrigger(request).value.runType.value) == FullTestOrder
  {
  }

  /**
   * The alarm listener: the telemetry alarm runs everything as an automatic
   * run, any other alarm leaves the extension untouched.
   */
  method OnAlarm(extension: Extension, alarmName: string, env: Env)
    modifies extension
    ensures alarmName != AlarmName ==>
              extension.storage == old(extension.storage) &&
              extension.outbox == old(extension.outbox) &&
              extension.stages == old(extension.stages)
    ensures alarmName == AlarmName ==>
              extension.stages == old(extension.stages) + Run(AutoRun, env).stages &&
              extension.storage == Persist(old(extension.storage), Run(AutoRun, env).marker) &&
              extension.outbox == old(extension.outbox) + Sent(Run(AutoRun, env).request)
  {
    var runType := AlarmTrigger(alarmName);
    if runType.Some? {
      var _ := extension.RunEverything(runType.value, env);
    }
  }

  /**
   * The message listener: a `runSpeedtest` request starts a manual run and
   * answers before the run finishes; any other message is left unanswered.
   */
  method OnMessage(extension: Extension, request: JsValue, env: Env)
    returns (r: Result<Option<JsValue>, Thrown>)
    modifies extension
    ensures r.Failure? <==> Nullish(request)
    ensures r.Success? <==> MessageTrigger(request).Success?
    ensures r.Success? ==> r.value == MessageTrigger(request).value.response
    ensures r.Success? && r.value.Some? ==>
              extension.stages == old(extension.stages) + Run(ManualRun, env).stages &&
              extension.storage == Persist(old(extension.storage), Run(ManualRun, env).marker) &&
              extension.outbox == old(extension.outbox) + Sent(Run(ManualRun, env).request)
    ensures !(r.Success? && r.value.Some?) ==>
              extension.storage == old(extension.storage) &&
              extension.outbox == old(extension.outbox) &&
              extension.stages == old(extension.stages)
  {
    var trigger := MessageTrigger(request);
    if trigger.Failure? {
      return Failure(trigger.error);
    }
    if trigger.value.runType.Some? {
      var _ := extension.RunEverything(trigger.value.runType.value, env);
    }
    return Success(trigger.value.response);
  }
}
