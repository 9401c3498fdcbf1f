/**
 * The data-logger side: the Humio sink (`humio().shipIt`), which turns a
 * record into one POST to Humio's structured-ingest endpoint, and the
 * dispatcher (`getDataLoggerFunction`, `logData`), which finds the sink by the
 * name in the logger configuration among the extension's global bindings.
 */
module Sinks {
  import opened Js

  const HumioIngestUrl := "https://cloud.us.humio.com/api/v1/ingest/humio-structured"
  const TypeTag: map<string, JsValue> := map["type" := Str("chrometric")]
  const LoggerNameNotStringMessage := "Data logger name must be a string"
  const LoggerNotFoundMessage := "data logger shipit function not found"

  /** An HTTP request handed to `fetch`; the body is the value that `JSON.stringify` serialises. */
  datatype HttpRequest = HttpRequest(url: string, verb: string, headers: map<string, string>, body: JsValue)

  /** One event and one batch of Humio's structured-ingest format. */
  datatype IngestEvent = IngestEvent(timestamp: string, attributes: JsValue)
  datatype IngestBatch = IngestBatch(tags: map<string, JsValue>, events: seq<IngestEvent>)

  /** Reads an event `{timestamp, attributes}`. */
  function ReadEvent(v: JsValue): Option<IngestEvent>
  {
    if v.Obj? && v.fields.Keys == {"timestamp", "attributes"} && v.fields["timestamp"].Str? then
      Some(IngestEvent(v.fields["timestamp"].s, v.fields["attributes"]))
    else None
  }

  function ReadEvents(vs: seq<JsValue>): Option<seq<IngestEvent>>
  {
    if |vs| == 0 then Some([])
    else
      var head, tail := ReadEvent(vs[0]), ReadEvents(vs[1..]);
      if head.Some? && tail.Some? then Some([head.value] + tail.value) else None
  }

  /** Reads a batch `{tags: {...}, events: [...]}`. */
  function ReadBatch(v: JsValue): Option<IngestBatch>
  {
    if v.Obj? && v.fields.Keys == {"tags", "events"} && v.fields["tags"].Obj? && v.fields["events"].Arr? then
      match ReadEvents(v.fields["events"].items)
      case Some(events) => Some(IngestBatch(v.fields["tags"].fields, events))
      case None => None
    else None
  }

  function ReadBatches(vs: seq<JsValue>): Option<seq<IngestBatch>>
  {
    if |vs| == 0 then Some([])
    else
      var head, tail := ReadBatch(vs[0]), ReadBatches(vs[1..]);
      if head.Some? && tail.Some? then Some([head.value] + tail.value) else None
  }

  /** A one-element list of events reads back as its one event. */
  lemma ReadSingleEvent(v: JsValue, e: IngestEvent)
    requires ReadEvent(v) == Some(e)
    ensures ReadEvents([v]) == Some([e])
  {
    assert [v][1..] == [] && [v][0] == v;
    assert [e] + [] == [e];
  }

  /** A one-element list of batches reads back as its one batch. */
  lemma ReadSingleBatch(v: JsValue, b: IngestBatch)
    requires ReadBatch(v) == Some(b)
    ensures ReadBatches([v]) == Some([b])
  {
    assert [v][1..] == [] && [v][0] == v;
    assert [b] + [] == [b];
  }

  /** Reads a structured-ingest request body: a list of batches. */
  function ReadIngestBody(body: JsValue): Option<seq<IngestBatch>>
  {
    if body.Arr? then ReadBatches(body.items) else None
  }

  /** The request body `[{tags: {type: "chrometric"}, events: [{timestamp, attributes: data}]}]`. */
  function IngestBody(data: JsValue, timestamp: string): (body: JsValue)
    ensures ReadIngestBody(body) == Some([IngestBatch(TypeTag, [IngestEvent(timestamp, data)])])
  {
    var event := Obj(map["timestamp" := Str(timestamp), "attributes" := data]);
    var batch := Obj(map["tags" := Obj(TypeTag), "events" := Arr([event])]);
    assert event.fields.Keys == {"timestamp", "attributes"};
    ReadSingleEvent(event, IngestEvent(timestamp, data));
    assert batch.fields.Keys == {"tags", "events"};
    ReadSingleBatch(batch, IngestBatch(TypeTag, [IngestEvent(timestamp, data)]));
    Arr([batch])
  }

  /** The HTTP whitespace bytes: tab, line feed, carriage return and space. */
  predicate IsHttpWhitespace(c: char) {
    c == '\t' || c == '\n' || c == '\r' || c == ' '
  }

  /** The value without its leading HTTP whitespace. */
  function TrimStart(s: string): (r: string)
    ensures |r| <= |s| && r == s[|s| - |r|..]
    ensures forall i :: 0 <= i < |s| - |r| ==> IsHttpWhitespace(s[i])
    ensures |r| == 0 || !IsHttpWhitespace(r[0])
  {
    if |s| > 0 && IsHttpWhitespace(s[0]) then TrimStart(s[1..]) else s
  }

  /** The value without its trailing HTTP whitespace. */
  function TrimEnd(s: string): (r: string)
    ensures |r| <= |s| && r == s[..|r|]
    ensures forall i :: |r| <= i < |s| ==> IsHttpWhitespace(s[i])
    ensures |r| == 0 || !IsHttpWhitespace(r[|r| - 1])
  {
    if |s| > 0 && IsHttpWhitespace(s[|s| - 1]) then TrimEnd(s[..|s| - 1]) else s
  }

  /** Every character fits in one byte, as WebIDL's `ByteString` conversion demands. */
  predicate IsByteString(s: string) {
    forall i :: 0 <= i < |s| ==> s[i] <= '\U{FF}'
  }

  /** The bytes a header value may not hold: NUL, line feed and carriage return. */
  predicate HasForbiddenByte(s: string) {
    exists i :: 0 <= i < |s| && (s[i] == '\0' || s[i] == '\n' || s[i] == '\r')
  }

  /**
   * A header value as `new Headers({...})` stores it (sections 2.2.2 and 5.1
   * of the Fetch standard): the value is converted to a `ByteString`, stripped
   * of leading and trailing HTTP whitespace, and rejected with a TypeError
   * when it still holds NUL, CR or LF.
   */
  function HeaderValue(raw: string): (r: Result<string, Thrown>)
    ensures r.Failure? <==> !IsByteString(raw) || HasForbiddenByte(TrimEnd(TrimStart(raw)))
    ensures r.Failure? ==> r.error == TypeError
    ensures r.Success? ==> r.value == TrimEnd(TrimStart(raw))
    ensures r.Success? ==> !HasForbiddenByte(r.value)
    ensures r.Success? ==> |r.value| == 0 || (!IsHttpWhitespace(r.value[0]) && !IsHttpWhitespace(r.value[|r.value| - 1]))
  {
    if !IsByteString(raw) then Failure(TypeError)
    else
      var value := TrimEnd(TrimStart(raw));
      if HasForbiddenByte(value) then Failure(TypeError) else Success(value)
  }

  /** The `Authorization` header value the Humio sink builds from the logger configuration's token. */
  function BearerHeader(token: JsValue): Result<string, Thrown>
  {
    HeaderValue("Bearer " + ToJsString(token))
  }

  /** The POST that the Humio sink hands to `fetch`, with the given `Authorization` value. */
  function HumioRequest(authorization: string, data: JsValue, timestamp: string): (request: HttpRequest)
    ensures request.url == HumioIngestUrl && request.verb == "POST"
    ensures request.headers.Keys == {"Content-Type", "Authorization"}
    ensures request.headers["Content-Type"] == "application/json"
    ensures request.headers["Authorization"] == authorization
    ensures ReadIngestBody(request.body) == Some([IngestBatch(TypeTag, [IngestEvent(timestamp, data)])])
  {
    HttpRequest(
      HumioIngestUrl,
      "POST",
      map["Content-Type" := "application/json", "Authorization" := authorization],
      IngestBody(data, timestamp))
  }

  /**
   * `humio().shipIt(dataLoggerConfig, data, debug)`: the request it hands to
   * `fetch`. Its body reads back as a single batch tagged
   * `{type: "chrometric"}` holding a single event whose attributes are `data`
   * unchanged. Building the headers throws a TypeError for a token that is no
   * valid header value; transport failures are caught inside the sink, so
   * nothing of them reaches the caller.
   */
  function HumioShipIt(dataLoggerConfig: JsValue, data: JsValue, timestamp: string): (r: Result<HttpRequest, Thrown>)
    requires !Nullish(dataLoggerConfig)
    ensures r.Failure? <==> BearerHeader(Get(dataLoggerConfig, "token")).Failure?
    ensures r.Failure? ==> r.error == TypeError
    ensures r.Success? ==> r.value == HumioRequest(BearerHeader(Get(dataLoggerConfig, "token")).value, data, timestamp)
  {
    match BearerHeader(Get(dataLoggerConfig, "token"))
    case Failure(e) => Failure(e)
    case Success(authorization) => Success(HumioRequest(authorization, data, timestamp))
  }

  /** "Bearer " followed by a token whose last character is not HTTP whitespace has nothing to strip. */
  lemma BearerNotTrimmed(token: string)
    requires |token| > 0 && !IsHttpWhitespace(token[|token| - 1])
    ensures TrimEnd(TrimStart("Bearer " + token)) == "Bearer " + token
  {
    var raw := "Bearer " + token;
    assert raw[|raw| - 1] == token[|token| - 1];
  }

  /** The "Bearer " prefix neither adds a wide character nor a forbidden byte. */
  lemma BearerBytes(token: string)
    ensures IsByteString("Bearer " + token) <==> IsByteString(token)
    ensures HasForbiddenByte("Bearer " + token) <==> HasForbiddenByte(token)
  {
    var raw := "Bearer " + token;
    assert forall i :: 0 <= i < |token| ==> token[i] == raw[i + 7];
    assert forall i :: 0 <= i < 7 ==> raw[i] == "Bearer "[i];
  }

  /**
   * A string token whose last character is not HTTP whitespace is sent
   * verbatim after "Bearer ", and the header is accepted exactly when every
   * character of the token fits in a byte and none is NUL, CR or LF.
   */
  lemma StringTokenHeader(token: string)
    requires |token| > 0 && !IsHttpWhitespace(token[|token| - 1])
    ensures BearerHeader(Str(token)).Success? <==> IsByteString(token) && !HasForbiddenByte(token)
    ensures BearerHeader(Str(token)).Success? ==> BearerHeader(Str(token)).value == "Bearer " + token
  {
    BearerNotTrimmed(token);
    BearerBytes(token);
  }

  /** A token with a character beyond one byte, such as "€", makes the sink throw a TypeError before anything is sent. */
  lemma {:induction false} WideTokenRejected(token: string, k: nat, data: JsValue, timestamp: string)
    requires k < |token| && token[k] > '\U{FF}'
    ensures HumioShipIt(Obj(map["token" := Str(token)]), data, timestamp) == Failure(TypeError)
  {
    var raw := "Bearer " + token;
    assert raw[k + 7] == token[k];
  }

  /** What a name is bound to in the extension's global scope, as `new` and `shipIt` see it. */
  datatype Binding =
    | HumioConstructor                  // `function humio()`, whose instances carry `shipIt`
    | OtherFunction                     // constructs an object without `shipIt`
    | ConstructorThrows(error: Thrown)  // `new` on it throws `error`
    | NotFunction                       // a variable holding a non-function value

  /**
   * The global bindings of the extension's background scripts: the functions
   * they declare, the Speedtest library's constructor, and the variables they
   * declare or assign without a declaration. Async functions are not
   * constructors, so `new` on them throws a TypeError; `new logData()` reads
   * a property of `undefined`; `new getDataLoggerFunction()` rejects its
   * `undefined` argument.
   */
  function ExtensionGlobals(): (globals: map<string, Binding>)
    ensures "humio" in globals && globals["humio"] == HumioConstructor
    ensures forall name :: name in globals && globals[name] == HumioConstructor ==> name == "humio"
  {
    map[
      "humio" := HumioConstructor,
      "Speedtest" := OtherFunction,
      "getSettings" := ConstructorThrows(TypeError), "getSettingsJson" := ConstructorThrows(TypeError),
      "readManagedSettings" := ConstructorThrows(TypeError), "readExtensionJson" := OtherFunction,
      "renderStatus" := OtherFunction, "getSpeedtestData" := OtherFunction,
      "getGoogleDeviceID" := OtherFunction, "getChromeDeviceSerial" := OtherFunction,
      "getDeviceCPU" := OtherFunction, "getDeviceMemory" := OtherFunction,
      "getTabCount" := OtherFunction, "getDeviceSerial" := ConstructorThrows(TypeError),
      "getOsVersion" := ConstructorThrows(TypeError), "getConsoleUser" := ConstructorThrows(TypeError),
      "getExtensionVersion" := ConstructorThrows(TypeError),
      "getDataLoggerFunction" := ConstructorThrows(Error(LoggerNameNotStringMessage)),
      "logData" := ConstructorThrows(TypeError), "runEverything" := ConstructorThrows(TypeError),
      "interval" := NotFunction, "splay" := NotFunction, "alarmPeriod" := NotFunction,
      "server" := NotFunction, "speedtestData" := NotFunction,
      "speedtestResults" := NotFunction, "userAgentString" := NotFunction]
  }

  /**
   * `getDataLoggerFunction(name)`: `this[name]` in the global scope. A name
   * that is not a string, or that is not bound to a function, throws.
   */
  function GetDataLoggerFunction(globals: map<string, Binding>, dataLoggerName: JsValue): (r: Result<Binding, Thrown>)
    ensures !dataLoggerName.Str? ==> r == Failure(Error(LoggerNameNotStringMessage))
    ensures dataLoggerName.Str? && (dataLoggerName.s !in globals || globals[dataLoggerName.s].NotFunction?) ==>
              r == Failure(Error(LoggerNotFoundMessage))
    ensures r.Success? <==> dataLoggerName.Str? && dataLoggerName.s in globals && !globals[dataLoggerName.s].NotFunction?
    ensures r.Success? ==> r.value == globals[dataLoggerName.s]
  {
    if !dataLoggerName.Str? then Failure(Error(LoggerNameNotStringMessage))
    else if dataLoggerName.s !in globals || globals[dataLoggerName.s].NotFunction? then
      Failure(Error(LoggerNotFoundMessage))
    else Success(globals[dataLoggerName.s])
  }

  /**
   * `logData(dataLoggerConfig, data, debug)`: looks the sink up by
   * `dataLoggerConfig.name`, constructs it with `new` and calls `shipIt`; the
   * result is the request the sink sends, or the TypeError it throws while
   * building the headers. A constructor that throws fails
   * with its exception; an object without `shipIt` fails with a TypeError
   * when `shipIt` is called.
   */
  function LogData(globals: map<string, Binding>, dataLoggerConfig: JsValue, data: JsValue, timestamp: string)
    : (r: Result<HttpRequest, Thrown>)
    requires !Nullish(dataLoggerConfig)
    ensures r.Success? <==> (GetDataLoggerFunction(globals, Get(dataLoggerConfig, "name")) == Success(HumioConstructor)
                             && BearerHeader(Get(dataLoggerConfig, "token")).Success?)
    ensures GetDataLoggerFunction(globals, Get(dataLoggerConfig, "name")) == Success(HumioConstructor) ==>
              r == HumioShipIt(dataLoggerConfig, data, timestamp)
    ensures GetDataLoggerFunction(globals, Get(dataLoggerConfig, "name")).Failure? ==>
              r == Failure(GetDataLoggerFunction(globals, Get(dataLoggerConfig, "name")).error)
    ensures GetDataLoggerFunction(globals, Get(dataLoggerConfig, "name")) == Success(OtherFunction) ==>
              r == Failure(TypeError)
    ensures forall e: Thrown :: GetDataLoggerFunction(globals, Get(dataLoggerConfig, "name")) == Success(ConstructorThrows(e)) ==>
              r == Failure(e)
  {
    match GetDataLoggerFunction(globals, Get(dataLoggerConfig, "name"))
    case Failure(e) => Failure(e)
    case Success(HumioConstructor) => HumioShipIt(dataLoggerConfig, data, timestamp)
    case Success(ConstructorThrows(e)) => Failure(e)
    case Success(_) => Failure(TypeError)
  }

  /** In the extension's global scope the name "humio" is bound to the Humio sink's constructor. */
  lemma HumioIsRegistered(dataLoggerConfig: map<string, JsValue>, data: JsValue, timestamp: string)
    requires "name" in dataLoggerConfig && dataLoggerConfig["name"] == Str("humio")
    ensures "humio" in ExtensionGlobals() && ExtensionGlobals()["humio"] == HumioConstructor
    ensures LogData(ExtensionGlobals(), Obj(dataLoggerConfig), data, timestamp)
            == HumioShipIt(Obj(dataLoggerConfig), data, timestamp)
  {
  }

  /** Dispatch fails closed: a name the extension does not bind never produces a request. */
  lemma UnknownSinkFailsClosed(dataLoggerConfig: map<string, JsValue>, data: JsValue, timestamp: string)
    requires "name" in dataLoggerConfig && dataLoggerConfig["name"].Str? && dataLoggerConfig["name"].s !in ExtensionGlobals()
    ensures LogData(ExtensionGlobals(), Obj(dataLoggerConfig), data, timestamp) == Failure(Error(LoggerNotFoundMessage))
  {
  }

  /**
   * Naming the dispatcher itself as the data logger fails inside its own
   * constructor: called with no argument, it rejects the name `undefined`.
   */
  lemma SelfNamedLoggerRejects(dataLoggerConfig: map<string, JsValue>, data: JsValue, timestamp: string)
    requires "name" in dataLoggerConfig && dataLoggerConfig["name"] == Str("getDataLoggerFunction")
    ensures LogData(ExtensionGlobals(), Obj(dataLoggerConfig), data, timestamp) == Failure(Error(LoggerNameNotStringMessage))
  {
  }
}
