/**
 * The HTTP client of src/services/api.ts: the error value, the transport wrapper that
 * adds a timeout and the default headers (`fetchWithTimeout`), the response decoder
 * (`processResponse`) and the five facade operations of `ApiService`.
 *
 * The network is the parameter `fetch`, a function from the request actually sent to
 * its outcome; a timeout shows up as the rejection with an `AbortError` that the
 * cancelled fetch produces. `JSON.stringify` is the parameter `stringify`.
 */
module Api {
  import opened Wrappers
  import opened JsValues
  import Config

  /** `ApiError`: a message, an optional HTTP status and an optional code. */
  datatype ApiError = ApiError(message: string, status: Option<nat>, code: Option<string>)

  /** A value thrown in JavaScript: an `ApiError`, another `Error`, or some other value. */
  datatype Exception =
    | ApiException(error: ApiError)
    | NativeError(name: string, message: string)
    | ThrownValue(value: Json)

  /**
   * A completed HTTP response as the decoder sees it: the `ok` flag, the status line,
   * the `content-type` header (None when absent), and the outcome of reading the body
   * with `json()` (None: the parse rejected) or with `text()` (None: the read rejected).
   */
  datatype Response = Response(
    ok: bool,
    status: nat,
    statusText: string,
    contentType: Option<string>,
    json: Option<Json>,
    text: Option<string>)

  /** The caller's `RequestInit`: None stands for a property that is not given. */
  datatype RequestInit = RequestInit(
    httpMethod: Option<string>,
    body: Option<string>,
    headers: map<string, string>)

  /** What `fetch` is called with. */
  datatype Request = Request(
    url: string,
    httpMethod: Option<string>,
    body: Option<string>,
    headers: map<string, string>)

  /** What `fetch` does: resolve with a response or reject with a thrown value. */
  datatype FetchOutcome = Responded(response: Response) | Threw(error: Exception)

  /** The timer armed by `setTimeout`: its delay, and whether it is still pending. */
  datatype Timer = Timer(delay: nat, pending: bool)

  const TimeoutMessage: string := "La petición tardó demasiado tiempo"
  const JsonDecodeMessage: string := "Error al procesar la respuesta JSON de la API"
  const TextDecodeMessage: string := "Error al procesar la respuesta de texto de la API"
  const BodyDecodeMessage: string := "Error al procesar la respuesta de la API"

  /** The error raised when the timer cancelled the request. */
  const TimeoutError: ApiError := ApiError(TimeoutMessage, Some(408), None)

  // ---------------------------------------------------------------- transport

  /**
   * `{ ...defaults, ...caller }`: every key of both, and on a collision the
   * caller's value.
   */
  function MergeHeaders(defaults: map<string, string>, caller: map<string, string>)
    : (r: map<string, string>)
    ensures r.Keys == defaults.Keys + caller.Keys
    ensures forall k :: k in caller ==> r[k] == caller[k]
    ensures forall k :: k in defaults && k !in caller ==> r[k] == defaults[k]
  {
    defaults + caller
  }

  /** Merging in the headers a second time changes nothing. */
  lemma MergeHeadersIdempotent(defaults: map<string, string>, caller: map<string, string>)
    ensures MergeHeaders(MergeHeaders(defaults, caller), caller) == MergeHeaders(defaults, caller)
  {
  }

  /**
   * `error instanceof Error && error.name === 'AbortError'`. An `ApiError` is named
   * "ApiError" and a thrown non-`Error` value has no name, so only a native error can be
   * an abort.
   */
  function IsAbortError(e: Exception): (b: bool)
    ensures !e.NativeError? ==> !b
    ensures b ==> e.name == "AbortError"
  {
    e.NativeError? && e.name == "AbortError"
  }

  /**
   * `fetchWithTimeout(url, options, timeout)`. The timer is armed before the call
   * (`armed` is the timer as `fetch` is called) and is no longer pending on either exit; an abort becomes the 408 `ApiError`, every
   * other rejection is rethrown as it is, and a response is returned as it is.
   */
  method FetchWithTimeout(url: string, options: RequestInit, timeout: nat,
                          fetch: Request -> FetchOutcome)
    returns (r: Result<Response, Exception>, sent: Request, armed: Timer, timer: Timer)
    ensures sent.url == url && sent.httpMethod == options.httpMethod && sent.body == options.body
    ensures sent.headers == MergeHeaders(Config.DefaultHeaders, options.headers)
    ensures armed == Timer(timeout, true)
    ensures timer == armed.(pending := false)
    ensures fetch(sent).Responded? ==> r == Success(fetch(sent).response)
    ensures fetch(sent).Threw? && IsAbortError(fetch(sent).error)
            ==> r == Failure(ApiException(TimeoutError))
    ensures fetch(sent).Threw? && !IsAbortError(fetch(sent).error)
            ==> r == Failure(fetch(sent).error)
  {
    timer := Timer(timeout, true);
    sent := Request(url, options.httpMethod, options.body,
                    MergeHeaders(Config.DefaultHeaders, options.headers));
    armed := timer;
    var outcome := fetch(sent);
    match outcome {
      case Responded(response) =>
        timer := timer.(pending := false);
        r := Success(response);
      case Threw(error) =>
        timer := timer.(pending := false);
        if IsAbortError(error) {
          r := Failure(ApiException(TimeoutError));
        } else {
          r := Failure(error);
        }
    }
  }

  // ------------------------------------------------------------------ decoder

  predicate StartsWith(s: string, prefix: string) {
    |prefix| <= |s| && s[..|prefix|] == prefix
  }

  /** `part` occurs in `s` starting at index `i`. */
  predicate At(s: string, part: string, i: int) {
    0 <= i <= |s| - |part| && s[i..i + |part|] == part
  }

  /** An occurrence in the tail is an occurrence in the string one position further on. */
  lemma AtTail(s: string, part: string)
    requires |s| > 0
    ensures (exists j :: At(s[1..], part, j)) <==> (exists i :: 1 <= i && At(s, part, i))
  {
    if j :| At(s[1..], part, j) {
      assert s[j + 1..j + 1 + |part|] == s[1..][j..j + |part|];
      assert At(s, part, j + 1);
    }
    if i :| 1 <= i && At(s, part, i) {
      assert s[1..][i - 1..i - 1 + |part|] == s[i..i + |part|];
      assert At(s[1..], part, i - 1);
    }
  }

  /** `s.includes(part)`: true exactly when `part` occurs somewhere in `s`. */
  function Contains(s: string, part: string): (b: bool)
    ensures b <==> exists i :: At(s, part, i)
    decreases |s|
  {
    if StartsWith(s, part) then
      assert At(s, part, 0);
      true
    else if |s| > |part| then
      AtTail(s, part);
      Contains(s[1..], part)
    else
      false
  }

  /** `part` is found wherever it stands in the string. */
  lemma ContainsInMiddle(before: string, part: string, after: string)
    ensures Contains(before + part + after, part)
  {
    var s := before + part + after;
    assert s[|before|..|before| + |part|] == part;
    assert At(s, part, |before|);
  }

  /** `contentType && contentType.includes(t)`: present, non-empty, and mentioning `t`. */
  function Declares(contentType: Option<string>, t: string): (b: bool)
    ensures b <==> contentType.Some? && contentType.value != ""
                   && exists i :: At(contentType.value, t, i)
  {
    contentType.Some? && contentType.value != "" && Contains(contentType.value, t)
  }

  /** "Error {status}: {statusText}", the message of an HTTP error without a usable body. */
  function DefaultHttpMessage(status: nat, statusText: string): (m: string)
    ensures |m| == 8 + |NatToString(status)| + |statusText|
  {
    "Error " + NatToString(status) + ": " + statusText
  }

  /** The parts of the fallback message: "Error ", the status digits, ": ", the status text. */
  lemma DefaultHttpMessageParts(status: nat, statusText: string)
    ensures var m, d := DefaultHttpMessage(status, statusText), NatToString(status);
            && m[..6] == "Error " && m[6..6 + |d|] == d && m[6 + |d|..8 + |d|] == ": "
            && m[8 + |d|..] == statusText
  {
  }

  /** The error body is an object whose `message` is truthy, so `||` picks it. */
  function UsableMessage(errorData: Option<Json>): (b: bool)
    ensures b <==> errorData.Some? && errorData.value.JObject? && "message" in errorData.value.fields
                   && errorData.value.fields["message"] !in {JNull, JBool(false), JNumber(0), JString("")}
  {
    errorData.Some? && errorData.value.JObject? && "message" in errorData.value.fields
    && Truthy(errorData.value.fields["message"])
  }

  /**
   * `errorMessage = errorData.message || errorMessage`, with the `catch` around it. A
   * rejected parse, and a `null` body (reading `.message` of null throws), keep the
   * fallback; only an object has a `message` property; a truthy one is converted to a
   * string by the `Error` constructor.
   */
  function HttpErrorMessage(status: nat, statusText: string, errorData: Option<Json>): (m: string)
    ensures UsableMessage(errorData) ==> m == ToJsString(errorData.value.fields["message"])
    ensures !UsableMessage(errorData) ==> m == DefaultHttpMessage(status, statusText)
  {
    var fallback := DefaultHttpMessage(status, statusText);
    match errorData
    case Some(JObject(fields)) =>
      if "message" in fields && Truthy(fields["message"]) then ToJsString(fields["message"])
      else fallback
    case _ => fallback
  }

  /**
   * `processResponse(response)`. The branches are tried in order: a non-2xx status,
   * 204, a JSON content type, a plain-text content type, and otherwise the text.
   */
  function ProcessResponse(r: Response): (res: Result<Json, ApiError>)
    ensures res.Success? ==> r.ok
    ensures !r.ok ==> res.Failure? && res.error.status == Some(r.status)
    ensures r.ok && res.Failure? ==> res.error.status == None
    ensures res.Failure? ==> res.error.code == None
  {
    if !r.ok then
      Failure(ApiError(HttpErrorMessage(r.status, r.statusText, r.json), Some(r.status), None))
    else if r.status == 204 then
      Success(JNull)
    else if Declares(r.contentType, "application/json") then
      match r.json
      case Some(v) => Success(v)
      case None => Failure(ApiError(JsonDecodeMessage, None, None))
    else if Declares(r.contentType, "text/plain") then
      match r.text
      case Some(t) => Success(JString(t))
      case None => Failure(ApiError(TextDecodeMessage, None, None))
    else
      match r.text
      case Some(t) => Success(JString(t))
      case None => Failure(ApiError(BodyDecodeMessage, None, None))
  }

  /** The message of an HTTP error differs from the fallback only for a truthy `message` field. */
  lemma HttpMessageFallsBack(r: Response)
    requires !r.ok
    requires !(r.json.Some? && r.json.value.JObject? && "message" in r.json.value.fields
               && Truthy(r.json.value.fields["message"]))
    ensures ProcessResponse(r).error.message == DefaultHttpMessage(r.status, r.statusText)
  {
  }

  /** A non-empty string `message` in the error body becomes the error's message. */
  lemma HttpMessageFromBody(r: Response, fields: map<string, Json>, m: string)
    requires !r.ok && r.json == Some(JObject(fields))
    requires "message" in fields && fields["message"] == JString(m) && m != ""
    ensures ProcessResponse(r) == Failure(ApiError(m, Some(r.status), None))
  {
  }

  /** An empty-string `message` is falsy, so it falls back like a missing one. */
  lemma EmptyHttpMessageFallsBack(r: Response, fields: map<string, Json>)
    requires !r.ok && r.json == Some(JObject(fields))
    requires "message" in fields && fields["message"] == JString("")
    ensures ProcessResponse(r).error.message == DefaultHttpMessage(r.status, r.statusText)
  {
  }

  /**
   * An HTTP error's message is never empty unless the body's `message` is an array
   * (an empty array is truthy and renders as "").
   */
  lemma HttpMessageNonEmpty(r: Response)
    requires !r.ok
    requires r.json.Some? && r.json.value.JObject? && "message" in r.json.value.fields
             ==> !r.json.value.fields["message"].JArray?
    ensures ProcessResponse(r).error.message != ""
  {
  }

  lemma EmptyArrayMessage(status: nat, statusText: string)
    ensures HttpErrorMessage(status, statusText, Some(JObject(map["message" := JArray([])]))) == ""
  {
  }

  /**
   * The fallback message determines the status and the status text: the status digits
   * end at the first ':' after "Error ".
   */
  lemma DefaultHttpMessageInjective(s1: nat, t1: string, s2: nat, t2: string)
    requires DefaultHttpMessage(s1, t1) == DefaultHttpMessage(s2, t2)
    ensures s1 == s2 && t1 == t2
  {
    var d1, d2 := NatToString(s1), NatToString(s2);
    var m := DefaultHttpMessage(s1, t1);
    assert m == "Error " + d1 + ": " + t1;
    assert m == "Error " + d2 + ": " + t2;
    assert m[6 + |d1|] == ':';
    assert m[6 + |d2|] == ':';
    assert |d1| == |d2|;
    assert d1 == m[6..6 + |d1|] == d2;
    NatToStringInjective(s1, s2);
    assert t1 == m[8 + |d1|..] == t2;
  }

  /** An ok response with status 204 resolves with null, whatever its headers and body. */
  lemma NoContentIsNull(r: Response, contentType: Option<string>, json: Option<Json>, text: Option<string>)
    requires r.ok && r.status == 204
    ensures ProcessResponse(r.(contentType := contentType, json := json, text := text)) == Success(JNull)
  {
  }

  /** A JSON content type: the parsed body, or an error without status when the parse fails. */
  lemma JsonBody(r: Response)
    requires r.ok && r.status != 204 && Declares(r.contentType, "application/json")
    ensures r.json.Some? ==> ProcessResponse(r) == Success(r.json.value)
    ensures r.json.None? ==> ProcessResponse(r) == Failure(ApiError(JsonDecodeMessage, None, None))
  {
  }

  /**
   * The JSON test comes first: when the content type mentions JSON, the text read
   * plays no part, even if the type also mentions text/plain.
   */
  lemma JsonTakesPrecedence(r: Response, text: Option<string>)
    requires r.ok && r.status != 204 && Declares(r.contentType, "application/json")
    ensures ProcessResponse(r.(text := text)) == ProcessResponse(r)
  {
  }

  /** For instance "application/json, text/plain" is decoded as JSON. */
  lemma BothTypesDecodeAsJson(r: Response)
    requires r.ok && r.status != 204 && r.contentType == Some("application/json, text/plain")
    ensures Declares(r.contentType, "text/plain")
    ensures ProcessResponse(r) == match r.json
                                  case Some(v) => Success(v)
                                  case None => Failure(ApiError(JsonDecodeMessage, None, None))
  {
    var ct := "application/json, text/plain";
    assert At(ct, "application/json", 0);
    assert At(ct, "text/plain", 18);
  }

  /** A content type with text/plain (and no JSON): the raw text, or the text-read error. */
  lemma PlainTextBody(r: Response)
    requires r.ok && r.status != 204
    requires !Declares(r.contentType, "application/json") && Declares(r.contentType, "text/plain")
    ensures r.text.Some? ==> ProcessResponse(r) == Success(JString(r.text.value))
    ensures r.text.None? ==> ProcessResponse(r) == Failure(ApiError(TextDecodeMessage, None, None))
  {
  }

  /** No content type, or an unrecognised one: the raw text, or the generic decode error. */
  lemma DefaultBody(r: Response)
    requires r.ok && r.status != 204
    requires !Declares(r.contentType, "application/json") && !Declares(r.contentType, "text/plain")
    ensures r.text.Some? ==> ProcessResponse(r) == Success(JString(r.text.value))
    ensures r.text.None? ==> ProcessResponse(r) == Failure(ApiError(BodyDecodeMessage, None, None))
  {
  }

  /** Where a decoded value comes from: null for 204, the JSON parse, or the text read. */
  lemma SuccessSources(r: Response)
    ensures ProcessResponse(r).Success? <==>
            r.ok && (r.status == 204
                     || (Declares(r.contentType, "application/json") && r.json.Some?)
                     || (!Declares(r.contentType, "application/json") && r.text.Some?))
  {
  }

  /** Response {"message":"ok"} with status 200 and a JSON content type resolves with that object. */
  lemma ScenarioJsonOk()
    ensures var body := JObject(map["message" := JString("ok")]);
            ProcessResponse(Response(true, 200, "OK", Some("application/json"), Some(body), None))
            == Success(body)
  {
    assert StartsWith("application/json", "application/json");
  }

  /** Status 404 with body {"message":"not found"} raises ApiError("not found", 404). */
  lemma ScenarioNotFound()
    ensures ProcessResponse(Response(false, 404, "Not Found", Some("application/json"),
                                     Some(JObject(map["message" := JString("not found")])), None))
            == Failure(ApiError("not found", Some(404), None))
  {
  }

  /** Status 500 with an unparsable body raises "Error 500: Internal Server Error". */
  lemma ScenarioServerError()
    ensures ProcessResponse(Response(false, 500, "Internal Server Error", None, None, Some("oops")))
            == Failure(ApiError("Error 500: Internal Server Error", Some(500), None))
  {
    assert NatToString(500) == "500" by {
      assert NatToString(50) == "50" by {
        assert NatToString(5) == "5";
      }
    }
    assert DefaultHttpMessage(500, "Internal Server Error") == "Error 500: Internal Server Error";
  }

  // ------------------------------------------------------------------- facade

  /** `data ? JSON.stringify(data) : undefined`: a falsy payload sends no body. */
  function SerializedBody(data: Option<Json>, stringify: Json -> string): (body: Option<string>)
    ensures body.Some? <==> data.Some? && Truthy(data.value)
    ensures body.Some? ==> body.value == stringify(data.value)
  {
    if data.Some? && Truthy(data.value) then Some(stringify(data.value)) else None
  }

  /** `{ method: verb, body, ...options }`: what the caller gives overrides the defaults. */
  function InitFor(verb: string, body: Option<string>, options: RequestInit): (init: RequestInit)
    ensures init.httpMethod == Some(options.httpMethod.GetOr(verb))
    ensures init.body == if options.body.Some? then options.body else body
    ensures init.headers == options.headers
  {
    RequestInit(Some(options.httpMethod.GetOr(verb)),
                if options.body.Some? then options.body else body,
                options.headers)
  }

  /**
   * What an `ApiService` call promises: the request sent to `fetch` (URL from the
   * endpoint, the verb unless the caller names another method, the body unless the
   * caller gives one, the merged headers) and the result (the decoded response or its
   * decode error, the 408 error on abort, any other rejection unchanged).
   */
  ghost predicate Delivers(verb: string, baseUrl: string, endpoint: string, body: Option<string>,
                           options: RequestInit, fetch: Request -> FetchOutcome,
                           r: Result<Json, Exception>, sent: Request)
  {
    && sent.url == Config.BuildApiUrl(baseUrl, endpoint)
    && sent.httpMethod == Some(options.httpMethod.GetOr(verb))
    && sent.body == (if options.body.Some? then options.body else body)
    && sent.headers == MergeHeaders(Config.DefaultHeaders, options.headers)
    && r == match fetch(sent)
            case Responded(response) =>
              (match ProcessResponse(response)
               case Success(v) => Success(v)
               case Failure(e) => Failure(ApiException(e)))
            case Threw(e) =>
              if IsAbortError(e) then Failure(ApiException(TimeoutError)) else Failure(e)
  }

  /** The composition shared by the five operations: URL, request init, transport, decode. */
  method Send(verb: string, baseUrl: string, endpoint: string, body: Option<string>,
              options: RequestInit, fetch: Request -> FetchOutcome)
    returns (r: Result<Json, Exception>, sent: Request)
    ensures Delivers(verb, baseUrl, endpoint, body, options, fetch, r, sent)
  {
    var url := Config.BuildApiUrl(baseUrl, endpoint);
    var response, armed, timer;
    response, sent, armed, timer := FetchWithTimeout(url, InitFor(verb, body, options), Config.Timeout, fetch);
    match response {
      case Success(resp) =>
        match ProcessResponse(resp) {
          case Success(v) => r := Success(v);
          case Failure(e) => r := Failure(ApiException(e));
        }
      case Failure(e) =>
        r := Failure(e);
    }
  }

  /** `ApiService.get(endpoint, options)`. */
  method Get(baseUrl: string, endpoint: string, options: RequestInit, fetch: Request -> FetchOutcome)
    returns (r: Result<Json, Exception>, sent: Request)
    ensures Delivers("GET", baseUrl, endpoint, None, options, fetch, r, sent)
  {
    r, sent := Send("GET", baseUrl, endpoint, None, options, fetch);
  }

  /** `ApiService.post(endpoint, data, options)`. */
  method Post(baseUrl: string, endpoint: string, data: Option<Json>, options: RequestInit,
              fetch: Request -> FetchOutcome, stringify: Json -> string)
    returns (r: Result<Json, Exception>, sent: Request)
    ensures Delivers("POST", baseUrl, endpoint, SerializedBody(data, stringify), options, fetch, r, sent)
  {
    r, sent := Send("POST", baseUrl, endpoint, SerializedBody(data, stringify), options, fetch);
  }

  /** `ApiService.put(endpoint, data, options)`. */
  method Put(baseUrl: string, endpoint: string, data: Option<Json>, options: RequestInit,
             fetch: Request -> FetchOutcome, stringify: Json -> string)
    returns (r: Result<Json, Exception>, sent: Request)
    ensures Delivers("PUT", baseUrl, endpoint, SerializedBody(data, stringify), options, fetch, r, sent)
  {
    r, sent := Send("PUT", baseUrl, endpoint, SerializedBody(data, stringify), options, fetch);
  }

  /** `ApiService.patch(endpoint, data, options)`. */
  method Patch(baseUrl: string, endpoint: string, data: Option<Json>, options: RequestInit,
               fetch: Request -> FetchOutcome, stringify: Json -> string)
    returns (r: Result<Json, Exception>, sent: Request)
    ensures Delivers("PATCH", baseUrl, endpoint, SerializedBody(data, stringify), options, fetch, r, sent)
  {
    r, sent := Send("PATCH", baseUrl, endpoint, SerializedBody(data, stringify), options, fetch);
  }

  /** `ApiService.delete(endpoint, options)`. */
  method Delete(baseUrl: string, endpoint: string, options: RequestInit, fetch: Request -> FetchOutcome)
    returns (r: Result<Json, Exception>, sent: Request)
    ensures Delivers("DELETE", baseUrl, endpoint, None, options, fetch, r, sent)
  {
    r, sent := Send("DELETE", baseUrl, endpoint, None, options, fetch);
  }

  /**
   * The facade adds no wrapping of its own: every failure is the decoder's error, the
   * timeout error, or exactly what `fetch` threw.
   */
  lemma FacadeFailures(verb: string, baseUrl: string, endpoint: string, body: Option<string>,
                       options: RequestInit, fetch: Request -> FetchOutcome,
                       r: Result<Json, Exception>, sent: Request)
    requires Delivers(verb, baseUrl, endpoint, body, options, fetch, r, sent)
    requires r.Failure?
    ensures fetch(sent).Responded? ==>
              r.error == ApiException(ProcessResponse(fetch(sent).response).error)
    ensures fetch(sent).Threw? ==>
              r.error == (if IsAbortError(fetch(sent).error) then ApiException(TimeoutError)
                          else fetch(sent).error)
  {
  }

  /** A 408 status on a failure means a timeout or a server response with status 408. */
  lemma Status408Sources(verb: string, baseUrl: string, endpoint: string, body: Option<string>,
                         options: RequestInit, fetch: Request -> FetchOutcome,
                         r: Result<Json, Exception>, sent: Request)
    requires Delivers(verb, baseUrl, endpoint, body, options, fetch, r, sent)
    requires fetch(sent).Threw? ==> !fetch(sent).error.ApiException?
    ensures (r.Failure? && r.error.ApiException? && r.error.error.status == Some(408)) <==>
            ((fetch(sent).Threw? && IsAbortError(fetch(sent).error)) ||
             (fetch(sent).Responded? && !fetch(sent).response.ok && fetch(sent).response.status == 408))
  {
  }

  /** Unless the caller overrides it, every request carries "Content-Type: application/json". */
  lemma DefaultContentType(verb: string, baseUrl: string, endpoint: string, body: Option<string>,
                           options: RequestInit, fetch: Request -> FetchOutcome,
                           r: Result<Json, Exception>, sent: Request)
    requires Delivers(verb, baseUrl, endpoint, body, options, fetch, r, sent)
    ensures "Content-Type" in sent.headers
    ensures "Content-Type" !in options.headers ==> sent.headers["Content-Type"] == "application/json"
  {
  }
}
