/**
 * The settings resolver (`getSettings`): the bundled `settings.json` and the
 * managed-storage policy are merged per top-level key, and the run is refused
 * when the merged logger configuration has no token.
 */
module Settings {
  import opened Js

  const DataLoggerConfigKey := "dataLoggerConfig"
  const SpeedtestUrlsKey := "speedtestUrls"
  const DebugKey := "debug"
  const TokenKey := "token"
  const SettingsMissingMessage := "Settings missing, aborting!"

  /** The resolved settings of one run. */
  datatype ResolvedSettings = ResolvedSettings(loggerConfig: JsValue, speedtestUrls: JsValue, debug: JsValue)

  /** `getSettingsJson`: a bundled file that cannot be read counts as `{}`. */
  function LocalSettings(read: FileRead): (local: JsValue)
    ensures read.Unreadable? ==> local == EmptyObject
    ensures read.Parsed? ==> local == read.json
  {
    match read
    case Parsed(json) => json
    case Unreadable => EmptyObject
  }

  /** A key of the managed policy object; an absent key reads as undefined. */
  function ManagedValue(managed: map<string, JsValue>, key: string): JsValue
  {
    Get(Obj(managed), key)
  }

  /** Override precedence of one key: a truthy managed value, else a truthy local value, else `{}`. */
  ghost predicate Precedence(managedValue: JsValue, localValue: JsValue, merged: JsValue)
  {
    && (Truthy(managedValue) ==> merged == managedValue)
    && (!Truthy(managedValue) && Truthy(localValue) ==> merged == localValue)
    && (!Truthy(managedValue) && !Truthy(localValue) ==> merged == EmptyObject)
  }

  /** `managed || local || {}`: the merged value is always truthy. */
  function Merge(managedValue: JsValue, localValue: JsValue): (merged: JsValue)
    ensures Precedence(managedValue, localValue, merged)
    ensures Truthy(merged)
  {
    Or(Or(managedValue, localValue), EmptyObject)
  }

  /** The logger configuration that `getSettings` would validate. */
  function MergedLoggerConfig(local: JsValue, managed: map<string, JsValue>): JsValue
    requires !Nullish(local)
  {
    Merge(ManagedValue(managed, DataLoggerConfigKey), Get(local, DataLoggerConfigKey))
  }

  /**
   * `getSettings`. Reading a property of a `null` settings file throws a
   * TypeError; otherwise the only reason to refuse is a falsy merged token,
   * because the speedtest URLs fall back to `{}`, which is truthy.
   */
  function GetSettings(localRead: FileRead, managed: map<string, JsValue>): (r: Result<ResolvedSettings, Thrown>)
    ensures Nullish(LocalSettings(localRead)) ==> r == Failure(TypeError)
    ensures !Nullish(LocalSettings(localRead)) ==>
              (r.Success? <==> Truthy(Get(MergedLoggerConfig(LocalSettings(localRead), managed), TokenKey)))
    ensures r.Failure? ==> r.error == TypeError || r.error == Error(SettingsMissingMessage)
    ensures !Nullish(LocalSettings(localRead)) && r.Failure? ==> r.error == Error(SettingsMissingMessage)
    ensures r.Success? ==>
              var local := LocalSettings(localRead);
              && !Nullish(local)
              && Precedence(ManagedValue(managed, DataLoggerConfigKey), Get(local, DataLoggerConfigKey), r.value.loggerConfig)
              && Precedence(ManagedValue(managed, SpeedtestUrlsKey), Get(local, SpeedtestUrlsKey), r.value.speedtestUrls)
              && r.value.debug == Get(local, DebugKey)
              && Truthy(Get(r.value.loggerConfig, TokenKey))
              && Truthy(r.value.speedtestUrls)
  {
    var local := LocalSettings(localRead);
    if Nullish(local) then Failure(TypeError)
    else
      var loggerConfig := Merge(ManagedValue(managed, DataLoggerConfigKey), Get(local, DataLoggerConfigKey));
      var speedtestUrls := Merge(ManagedValue(managed, SpeedtestUrlsKey), Get(local, SpeedtestUrlsKey));
      var debug := Get(local, DebugKey);
      if !Truthy(Get(loggerConfig, TokenKey)) || !Truthy(speedtestUrls) then
        Failure(Error(SettingsMissingMessage))
      else
        Success(ResolvedSettings(loggerConfig, speedtestUrls, debug))
  }

  /** The URL guard never fires: settings with a token but no URLs at all are accepted, with `{}` as the URL list. */
  lemma MissingUrlsAccepted(token: string)
    requires token != ""
    ensures var managed := map[DataLoggerConfigKey := Obj(map[TokenKey := Str(token)])];
            GetSettings(Unreadable, managed) == Success(ResolvedSettings(Obj(map[TokenKey := Str(token)]), EmptyObject, Undefined))
  {
  }

  /** A failed read of the bundled file is absorbed: managed settings with a token suffice on their own. */
  lemma ManagedAloneSuffices(managed: map<string, JsValue>)
    requires Truthy(Get(Merge(ManagedValue(managed, DataLoggerConfigKey), Undefined), TokenKey))
    ensures GetSettings(Unreadable, managed).Success?
  {
  }

  /**
   * An empty managed URL list is truthy, so it overrides a non-empty local
   * list: the probe is then given no endpoint at all.
   */
  lemma EmptyManagedListOverrides(managed: map<string, JsValue>, local: map<string, JsValue>)
    requires SpeedtestUrlsKey in managed && managed[SpeedtestUrlsKey] == Arr([])
    requires GetSettings(Parsed(Obj(local)), managed).Success?
    ensures GetSettings(Parsed(Obj(local)), managed).value.speedtestUrls == Arr([])
  {
  }
}
