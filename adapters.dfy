/**
 * The capability adapters of the run: each asks one Chrome API for a device
 * fact. The answers of the APIs are inputs (`Api<T>`); `Throws` stands for a
 * call that throws synchronously, typically because the API is not available
 * on this platform, which the fallback-protected adapters turn into a fixed
 * default value.
 */
module Adapters {
  import opened Js

  datatype Api<+T> = Answers(value: T) | Throws

  const DefaultDeviceId := "Chrome OS Device"
  const DefaultSerial := "ABC123"
  const UnknownOsVersion := "UNKNOWN"

  /** The fields of `chrome.system.cpu.getInfo`'s answer that the extension keeps. */
  datatype CpuInfo = CpuInfo(archName: JsValue, modelName: JsValue, numOfProcessors: JsValue)

  /** `getGoogleDeviceID`: the directory device id, or "Chrome OS Device" when the API throws. */
  function GoogleDeviceId(api: Api<JsValue>): (id: JsValue)
    ensures api.Throws? ==> id == Str(DefaultDeviceId)
    ensures api.Answers? ==> id == api.value
  {
    match api
    case Answers(v) => v
    case Throws => Str(DefaultDeviceId)
  }

  /** `getChromeDeviceSerial`: the device serial, or "ABC123" when the API throws. */
  function ChromeDeviceSerial(api: Api<JsValue>): (serial: JsValue)
    ensures api.Throws? ==> serial == Str(DefaultSerial)
    ensures api.Answers? ==> serial == api.value
  {
    match api
    case Answers(v) => v
    case Throws => Str(DefaultSerial)
  }

  /** The platform name holds "cros", in some mix of cases, at position `k`. */
  predicate CrosAt(os: string, k: nat) {
    k + 4 <= |os| && Lower(os)[k..k + 4] == "cros"
  }

  /**
   * The platform test of `getDeviceSerial`: the lower-cased os name contains
   * "cros", so the name holds "cros" in some mix of cases at some position.
   */
  function IsChromeOs(os: string): (r: bool)
    ensures r ==> exists k: nat :: CrosAt(os, k)
  {
    if Contains(Lower(os), "cros") then ChromeOsOccurrence(os); true else false
  }

  /** Where the lower-cased name contains "cros", the name holds "cros" in some mix of cases. */
  lemma ChromeOsOccurrence(os: string)
    requires Contains(Lower(os), "cros")
    ensures exists k: nat :: CrosAt(os, k)
  {
    ContainsOccurrence(Lower(os), "cros");
    var k: nat :| OccursAt(Lower(os), "cros", k);
    assert CrosAt(os, k);
  }

  /** `getDeviceSerial`: off Chrome OS the default serial, without consulting the serial API. */
  function DeviceSerial(os: string, serialApi: Api<JsValue>): (serial: JsValue)
    ensures !IsChromeOs(os) ==> serial == Str(DefaultSerial)
    ensures IsChromeOs(os) ==> serial == ChromeDeviceSerial(serialApi)
  {
    if !IsChromeOs(os) then Str(DefaultSerial) else ChromeDeviceSerial(serialApi)
  }

  /** Off Chrome OS the serial API's answer cannot influence the serial. */
  lemma NonChromeOsIgnoresSerialApi(os: string, a1: Api<JsValue>, a2: Api<JsValue>)
    requires !IsChromeOs(os)
    ensures DeviceSerial(os, a1) == DeviceSerial(os, a2) == Str(DefaultSerial)
  {
  }

  /** Lower-casing twice is lower-casing once. */
  lemma LowerIdempotent(s: string)
    ensures Lower(Lower(s)) == Lower(s)
  {
    assert forall i :: 0 <= i < |s| ==> Lower(Lower(s))[i] == Lower(s)[i];
  }

  /** The platform test does not depend on the case of the platform name. */
  lemma ChromeOsIgnoresCase(os: string)
    ensures IsChromeOs(os) <==> IsChromeOs(Lower(os))
  {
    LowerIdempotent(os);
  }

  /** "cros", in any mix of cases, at any position of the platform name marks Chrome OS. */
  lemma {:induction false} ChromeOsAnyCase(os: string, k: nat)
    requires CrosAt(os, k)
    ensures IsChromeOs(os)
  {
    ContainsAt(Lower(os), "cros", k);
  }

  /** A platform name without the letter s, in either case, takes the default serial. */
  lemma WithoutLetterSDefaultSerial(os: string, serialApi: Api<JsValue>)
    requires forall i :: 0 <= i < |os| ==> os[i] != 's' && os[i] != 'S'
    ensures !IsChromeOs(os)
    ensures DeviceSerial(os, serialApi) == Str(DefaultSerial)
  {
    MissingLastChar(Lower(os), "cros");
  }

  /** The flattened CPU fact `{arch, model, threads}`. */
  function FlattenCpu(info: CpuInfo): (cpu: JsValue)
    ensures cpu.Obj? && cpu.fields.Keys == {"arch", "model", "threads"}
    ensures cpu.fields["arch"] == info.archName
    ensures cpu.fields["model"] == info.modelName
    ensures cpu.fields["threads"] == info.numOfProcessors
  {
    Obj(map["arch" := info.archName, "model" := info.modelName, "threads" := info.numOfProcessors])
  }

  /** `getDeviceCPU`: the flattened CPU fact, or `{}` when the API throws. */
  function DeviceCpu(api: Api<CpuInfo>): (cpu: JsValue)
    ensures api.Throws? ==> cpu == EmptyObject
    ensures api.Answers? ==> cpu == FlattenCpu(api.value)
  {
    match api
    case Answers(info) => FlattenCpu(info)
    case Throws => EmptyObject
  }

  /** `getDeviceMemory`: the API's answer unchanged, or `{}` when the API throws. */
  function DeviceMemory(api: Api<JsValue>): (memory: JsValue)
    ensures api.Throws? ==> memory == EmptyObject
    ensures api.Answers? ==> memory == api.value
  {
    match api
    case Answers(v) => v
    case Throws => EmptyObject
  }

  /**
   * `getOsVersion`. A user agent mentioning "Chrome" yields the capture of
   * the version pattern; `capture` is what that match produced, and a failed
   * match (`None`) makes the indexing throw a TypeError.
   */
  function OsVersion(userAgent: string, capture: Option<string>): (r: Result<JsValue, Thrown>)
    ensures !Contains(userAgent, "Chrome") ==> r == Success(Str(UnknownOsVersion))
    ensures Contains(userAgent, "Chrome") && capture.Some? ==> r == Success(Str(capture.value))
    ensures r.Failure? <==> Contains(userAgent, "Chrome") && capture.None?
  {
    if Contains(userAgent, "Chrome") then
      match capture
      case Some(version) => Success(Str(version))
      case None => Failure(TypeError)
    else
      Success(Str(UnknownOsVersion))
  }

  /** `getExtensionVersion`: `manifest.version`; an unreadable manifest rejects. */
  function ExtensionVersion(manifest: FileRead): (r: Result<JsValue, Thrown>)
    ensures r.Failure? <==> manifest.Unreadable? || Nullish(manifest.json)
    ensures r.Success? ==> r.value == Get(manifest.json, "version")
  {
    match manifest
    case Unreadable => Failure(Foreign("readExtensionJson"))
    case Parsed(json) => if Nullish(json) then Failure(TypeError) else Success(Get(json, "version"))
  }

  /** Number of tabs over all windows, each window given as its list of tabs. */
  function TotalTabs(windows: seq<seq<JsValue>>): nat
  {
    if |windows| == 0 then 0 else TotalTabs(windows[..|windows| - 1]) + |windows[|windows| - 1]|
  }

  /** All tabs of all windows, one after the other. */
  function AllTabs(windows: seq<seq<JsValue>>): seq<JsValue>
  {
    if |windows| == 0 then [] else windows[0] + AllTabs(windows[1..])
  }

  /** Counting window by window adds up. */
  lemma {:induction false} TotalTabsAppend(a: seq<seq<JsValue>>, b: seq<seq<JsValue>>)
    ensures TotalTabs(a + b) == TotalTabs(a) + TotalTabs(b)
    decreases |b|
  {
    if |b| > 0 {
      var b' := b[..|b| - 1];
      assert (a + b)[..|a + b| - 1] == a + b';
      TotalTabsAppend(a, b');
    } else {
      assert a + b == a;
    }
  }

  /** The tab count is the number of tabs in the concatenation of all windows' tab lists. */
  lemma {:induction false} TotalTabsCountsAllTabs(windows: seq<seq<JsValue>>)
    ensures TotalTabs(windows) == |AllTabs(windows)|
    decreases |windows|
  {
    if |windows| > 0 {
      TotalTabsAppend([windows[0]], windows[1..]);
      assert [windows[0]] + windows[1..] == windows;
      assert [windows[0]][..0] == [];
      TotalTabsCountsAllTabs(windows[1..]);
    }
  }

  /** The tab count is 0 exactly when no window has a tab. */
  lemma {:induction false} NoTabsMeansZero(windows: seq<seq<JsValue>>)
    ensures TotalTabs(windows) == 0 <==> forall i :: 0 <= i < |windows| ==> windows[i] == []
    decreases |windows|
  {
    if |windows| > 0 {
      var front := windows[..|windows| - 1];
      NoTabsMeansZero(front);
      assert forall i :: 0 <= i < |front| ==> front[i] == windows[i];
    }
  }

  /** The value `getTabCount` resolves to. */
  function TabCountFact(api: Api<seq<seq<JsValue>>>): nat
  {
    match api
    case Answers(windows) => TotalTabs(windows)
    case Throws => 0
  }

  /**
   * `getTabCount`: walks every window and every tab in it, adding one per
   * tab; 0 when the windows API throws.
   */
  method GetTabCount(api: Api<seq<seq<JsValue>>>) returns (tabCount: nat)
    ensures api.Throws? ==> tabCount == 0
    ensures api.Answers? ==> tabCount == TotalTabs(api.value) == |AllTabs(api.value)|
    ensures tabCount == TabCountFact(api)
  {
    if api.Throws? {
      return 0;
    }
    var windows := api.value;
    tabCount := 0;
    var w := 0;
    while w < |windows|
      invariant 0 <= w <= |windows|
      invariant tabCount == TotalTabs(windows[..w])
    {
      var tabs := windows[w];
      var t := 0;
      while t < |tabs|
        invariant 0 <= t <= |tabs|
        invariant tabCount == TotalTabs(windows[..w]) + t
      {
        tabCount := tabCount + 1;
        t := t + 1;
      }
      assert windows[..w + 1][..w] == windows[..w];
      w := w + 1;
    }
    assert windows[..w] == windows;
    TotalTabsCountsAllTabs(windows);
  }
}
