# A verified model of a browser HTTP client

This Dafny project models the core of a small TypeScript client that talks to one backend. It has three parts, and the model follows them:

- **Configuration** (`src/config/api.ts`, module `Config`). The base URL comes from the environment, falling back to `http://localhost:3001`. The timeout is 10000 ms. The default headers are `Content-Type: application/json`. `buildApiUrl` joins the base URL and an endpoint: it strips at most one trailing `/` from the base and at most one leading `/` from the endpoint. `getApiDebugInfo` builds the debug summary.
- **Transport, decoder and facade** (`src/services/api.ts`, module `Api`).
  - `fetchWithTimeout` arms a timer, sends the request with the default headers merged under the caller's, and clears the timer on both exits. An abort becomes `ApiError(…, 408)`. Any other rejection is rethrown unchanged.
  - `processResponse` decides, in this order: non-2xx (an HTTP error carrying the response status), 204 (`null`), a JSON content type, a `text/plain` content type, and finally the raw text.
  - The five `ApiService` operations compose URL, request init, transport and decoder.
- **Request state** (`src/hooks/useApi.ts`, module `UseApi`). The hook's cells `data`, `error` and `state` become the fields of class `ApiHook`.
  - Each verb is split into its start step (`Start`, or `StartPatch` for `patch`, which sets the state twice) and its completion (`Complete`).
  - `Reset` and the predicates `IsLoading`/`IsSuccess`/`IsError` are modelled as written.
  - The functions `Apply` and `Replay` give the same transitions on values. This lets the lemmas state what happens when calls overlap: the last completion decides the state, and a stale error can survive into a success.

Modules `JsValues` and `Wrappers` supply the JavaScript values involved:

- `Json`, truthiness, and the `String(v)` conversion that `new Error(msg)` applies.
- The decimal rendering of a status in a template literal.
- `Option` and `Result`.

How the environment is modelled:

- The network is a parameter `fetch: Request -> FetchOutcome`. A timeout appears as the `AbortError` rejection of the cancelled fetch.
- The outcomes of `response.json()` and `response.text()` are `Option` fields of the response.
- `JSON.stringify` is a parameter `stringify`.
- `process.env` and `window.location.port` are `Option<string>` parameters.

Behaviour of the code that a reader might not expect. The model follows the code:

- The error messages are the code's Spanish strings, for example `"La petición tardó demasiado tiempo"` for the timeout.
- The data cell is not cleared when a call fails, so the earlier data stays beside the new error (`UseApi.FailureKeepsEarlierData`). With overlapping calls, a `success` state can also carry a stale error (`UseApi.StaleErrorSurvivesSuccess`).
- The HTTP error message falls back to `"Error {status}: {statusText}"` in more cases than a failed parse. It also falls back when the body is `null`, has no `message`, or has a falsy `message` such as `""`. A truthy non-string `message` is converted to a string. For `message: []` that string is empty (`Api.EmptyArrayMessage`), so the error message is not always non-empty.
- When two calls overlap, the call that *completes* last decides the final state, whatever the order in which the calls were issued (`UseApi.LaterCompletionWins`).
- A caller's `method` or `body` in the options overrides the verb and the serialized payload. This follows from the `{ method, body, ...options }` spread (`Api.InitFor`).
- A falsy payload (`0`, `false`, `""`, `null`) is sent with no body (`Api.SerializedBody`).
- A server response with status 408 cannot be told apart by status from a client-side timeout (`Api.Status408Sources`).

## Model

| member | source | states |
|---|---|---|
| `Config.BaseUrl` | src/config/api.ts:4 | the environment's base URL when it is set and non-empty, otherwise `http://localhost:3001`; never empty |
| `Config.StripTrailingSlash` | src/config/api.ts:17 | the result is a prefix of the input, one character shorter exactly when the input ends with `/` |
| `Config.StripLeadingSlash` | src/config/api.ts:18 | the result is a suffix of the input, one character shorter exactly when the input starts with `/` |
| `Config.BuildApiUrl` | src/config/api.ts:16-20 | the URL starts with the stripped base followed by `/`; its length is stripped base + 1 + stripped endpoint |
| `Config.BuildApiUrlEndpoint` | src/config/api.ts:19 | what follows the separator is exactly the endpoint without its leading slash |
| `Config.BuildApiUrlInjective` | src/config/api.ts:16-20 | two endpoints give the same URL if and only if they agree once one leading slash is stripped |
| `Config.LeadingSlashIgnored` | src/config/api.ts:18 | `buildApiUrl("/" + x) == buildApiUrl(x)` when `x` does not start with `/` |
| `Config.TrailingSlashIgnored` | src/config/api.ts:17 | a base with one added trailing slash gives the same URLs when the base does not already end in `/` |
| `Config.OnlyOneLeadingSlashStripped` | src/config/api.ts:18 | an endpoint `"//x"` yields the stripped base followed by `"//x"` |
| `Config.OnlyOneTrailingSlashStripped` | src/config/api.ts:17 | for every endpoint, a base ending in `"//"` keeps one of the two slashes, followed by the endpoint without its leading slash |
| `Config.GetApiDebugInfo` | src/config/api.ts:23-27 | `baseUrl` is the configured base, `frontendPort` the window's port or `"unknown"`, `fullUrl` the stripped base with one `/` |
| `Config.DefaultDebugUrl` | src/config/api.ts:4-26 | without an environment value the debug URL is `http://localhost:3001/` |
| `JsValues.Truthy` | src/services/api.ts:66 | a value is falsy exactly when it is `null`, `false`, `0` or `""` |
| `JsValues.ToJsString` | src/services/api.ts:71 | a string is kept, an object becomes `"[object Object]"`, `[]` becomes `""`, and only `""` or an array converts to the empty string |
| `JsValues.NatToString` | src/services/api.ts:62 | the rendering of the status is a non-empty string of decimal digits with no leading zero |
| `JsValues.NatToStringRoundTrip` | src/services/api.ts:62 | reading the rendered digits back gives the status |
| `JsValues.NatToStringInjective` | src/services/api.ts:62 | two statuses render the same if and only if they are equal |
| `Api.MergeHeaders` | src/services/api.ts:42-45 | the merged headers have every default and every caller key; the caller's value wins on a collision and every other default is kept |
| `Api.MergeHeadersIdempotent` | src/services/api.ts:42-45 | merging the caller's headers in a second time changes nothing |
| `Api.IsAbortError` | src/services/api.ts:52 | definition of `error instanceof Error && error.name === 'AbortError'`: only a native error named `AbortError`; an `ApiError` or a thrown non-`Error` value never is |
| `Api.FetchWithTimeout` | src/services/api.ts:30-57 | the request carries the caller's options and the merged headers; `armed`, the timer as `fetch` is called, is pending with the timeout, and the returned timer is the same timer no longer pending; a response is returned unchanged, an abort becomes the 408 `ApiError`, any other rejection is rethrown unchanged |
| `Api.Contains` | src/services/api.ts:83 | `includes` holds exactly when the part occurs at some index of the string |
| `Api.Declares` | src/services/api.ts:83 | definition of `contentType && contentType.includes(t)`: the header is present, non-empty, and has `t` at some index; used again at line 92 |
| `Api.ContainsInMiddle` | src/services/api.ts:83 | `includes` finds a substring wherever it stands |
| `Api.DefaultHttpMessage` | src/services/api.ts:62 | definition of `"Error {status}: {statusText}"`; its length is the status digits plus the status text plus 8 |
| `Api.DefaultHttpMessageParts` | src/services/api.ts:62 | the fallback message is `"Error "`, then the status digits, then `": "`, then the status text |
| `Api.UsableMessage` | src/services/api.ts:66 | definition of the test `||` makes: the body is an object whose `message` is present and not one of `null`, `false`, `0`, `""` |
| `Api.HttpErrorMessage` | src/services/api.ts:62-71 | when the error body is an object with a truthy `message`, that value converted to a string; otherwise `"Error {status}: {statusText}"` |
| `Api.ProcessResponse` | src/services/api.ts:60-108 | only an ok response produces a value; a non-ok response always fails with the response's status; decode failures of an ok response carry no status; no failure carries a code |
| `Api.HttpMessageFallsBack` | src/services/api.ts:62-69 | unless the body is an object with a truthy `message`, the HTTP error's message is exactly `"Error {status}: {statusText}"` |
| `Api.HttpMessageFromBody` | src/services/api.ts:62-71 | a non-empty string `message` in the error body becomes the error's message, with the response status |
| `Api.EmptyHttpMessageFallsBack` | src/services/api.ts:66 | an empty-string `message` falls back to the default message |
| `Api.HttpMessageNonEmpty` | src/services/api.ts:62-71 | the HTTP error message is non-empty unless the body's `message` is an array |
| `Api.EmptyArrayMessage` | src/services/api.ts:66 | a `message` of `[]` is truthy and converts to the empty string |
| `Api.DefaultHttpMessageInjective` | src/services/api.ts:62 | the default message determines both the status and the status text |
| `Api.NoContentIsNull` | src/services/api.ts:75-77 | an ok 204 response resolves with `null`, whatever its content type and body |
| `Api.JsonBody` | src/services/api.ts:83-89 | with a JSON content type a successful parse is returned as it is, and a failed one raises the JSON decode error without status |
| `Api.JsonTakesPrecedence` | src/services/api.ts:83-99 | with a JSON content type the result does not depend on the text read, even when `text/plain` is also declared |
| `Api.BothTypesDecodeAsJson` | src/services/api.ts:83-99 | `"application/json, text/plain"` declares both types and is decoded on the JSON path |
| `Api.PlainTextBody` | src/services/api.ts:92-99 | with `text/plain` (and no JSON) the raw text is returned, and a failed read raises the text decode error without status |
| `Api.DefaultBody` | src/services/api.ts:101-107 | with no content type or an unrecognised one, the raw text is returned, and a failed read raises the generic decode error without status |
| `Api.SuccessSources` | src/services/api.ts:60-108 | decoding succeeds if and only if the response is ok and it is a 204, or the parse on the chosen path succeeded |
| `Api.ScenarioJsonOk` | src/services/api.ts:83-86 | 200 with JSON body `{"message":"ok"}` resolves with that object |
| `Api.ScenarioNotFound` | src/services/api.ts:61-72 | 404 with body `{"message":"not found"}` raises `ApiError("not found", 404)` |
| `Api.ScenarioServerError` | src/services/api.ts:61-72 | 500 with an unparsable body raises `"Error 500: Internal Server Error"` with status 500 |
| `Api.SerializedBody` | src/services/api.ts:127 | a body is sent if and only if the payload is present and truthy, and it is the payload's serialization |
| `Api.InitFor` | src/services/api.ts:115-118 | definition (its properties are stated in `Api.Delivers` and `Api.DefaultContentType`): the request init has the caller's method or else the verb, the caller's body or else the serialized payload, and the caller's headers |
| `Api.Send` | src/services/api.ts:113-119 | the request goes to the built URL with the verb, body and merged headers; the result is the decoded response, the decoder's error, the 408 error on abort, or the unchanged rejection |
| `Api.Get` | src/services/api.ts:113-120 | `Send` with `GET` and no body of its own |
| `Api.Post` | src/services/api.ts:123-131 | `Send` with `POST` and the serialized payload |
| `Api.Put` | src/services/api.ts:134-142 | `Send` with `PUT` and the serialized payload |
| `Api.Patch` | src/services/api.ts:145-153 | `Send` with `PATCH` and the serialized payload |
| `Api.Delete` | src/services/api.ts:156-163 | `Send` with `DELETE` and no body of its own |
| `Api.FacadeFailures` | src/services/api.ts:111-163 | the facade adds no wrapping: a failure is the decoder's error, the timeout error, or exactly what fetch threw |
| `Api.Status408Sources` | src/services/api.ts:52-71 | for a fetch that never throws the client's own `ApiError` (native `fetch` cannot), a failure with status 408 comes from an abort or from a server response with status 408, and from nothing else |
| `Api.DefaultContentType` | src/services/api.ts:42-45 | every request carries `Content-Type`, and it is `application/json` unless the caller overrides it |
| `UseApi.ToApiError` | src/hooks/useApi.ts:24 | definition (used by `ApiHook.Complete`): an `ApiError` is kept as it is; any other thrown value becomes `ApiError("Error desconocido")` without status |
| `UseApi.Settle` | src/hooks/useApi.ts:19-27 | definition (used by `ApiHook.Complete`): a verb returns the value on success and rethrows the (wrapped) error on failure |
| `UseApi.InitialConsistent` | src/hooks/useApi.ts:9-11 | the initial cells satisfy the consistency relation between state, data and error |
| `UseApi.Apply` | src/hooks/useApi.ts:15-27 | one step of the hook: only a reset leads to `idle`; a start keeps the data and clears the error; a success sets the data and keeps the error; a failure sets an error and keeps the data |
| `UseApi.Replay` | src/hooks/useApi.ts:15-27 | over any sequence of steps the data cell changes only if some step is a completion or a reset |
| `UseApi.ReplayAppend` | src/hooks/useApi.ts:15-27 | replaying one more step applies that step to the replayed cells |
| `UseApi.SequentialCallsStayConsistent` | src/hooks/useApi.ts:15-27 | without overlapping calls, `loading`/`success` imply no error, `error` implies an error, `idle` implies both cells empty; once no call is in flight the state is not `loading` |
| `UseApi.LastCompletionDecides` | src/hooks/useApi.ts:19-26 | whatever happened before, the last completion alone sets the final state |
| `UseApi.StaleErrorSurvivesSuccess` | src/hooks/useApi.ts:15-27 | two overlapping calls, the first failing before the second succeeds, end in `success` with the first error still stored |
| `UseApi.LaterCompletionWins` | src/hooks/useApi.ts:15-27 | with two overlapping calls, the one completing last decides the state, and on success the data, on failure the error; the other cell is what the earlier completion left |
| `UseApi.FailureKeepsEarlierData` | src/hooks/useApi.ts:19-26 | a failure after a success leaves the earlier data in place beside the new error |
| `UseApi.ResetDoesNotCancel` | src/hooks/useApi.ts:105-109 | a reset while a call is in flight does not stop its completion from setting the cells |
| `UseApi.StartIdempotent` | src/hooks/useApi.ts:69-70 | starting twice in a row is the same as starting once |
| `UseApi.FlagsExclusive` | src/hooks/useApi.ts:115-117 | at most one of `isLoading`, `isSuccess`, `isError` holds, and none holds exactly when the state is `idle` |
| `UseApi.ApiHook.constructor` | src/hooks/useApi.ts:9-11 | a new hook has data `null`, no error and state `idle` |
| `UseApi.ApiHook.IsLoading` | src/hooks/useApi.ts:115 | definition of `state === 'loading'`; exclusivity is in `UseApi.FlagsExclusive` |
| `UseApi.ApiHook.IsSuccess` | src/hooks/useApi.ts:116 | definition of `state === 'success'`; exclusivity is in `UseApi.FlagsExclusive` |
| `UseApi.ApiHook.IsError` | src/hooks/useApi.ts:117 | definition of `state === 'error'`; exclusivity is in `UseApi.FlagsExclusive` |
| `UseApi.ApiHook.SetData` | src/hooks/useApi.ts:9 | sets the data cell and leaves the other two unchanged |
| `UseApi.ApiHook.SetError` | src/hooks/useApi.ts:10 | sets the error cell and leaves the other two unchanged |
| `UseApi.ApiHook.SetState` | src/hooks/useApi.ts:11 | sets the state cell and leaves the other two unchanged |
| `UseApi.ApiHook.Start` | src/hooks/useApi.ts:15-16 | the state becomes `loading` and the error is cleared; the data is left unchanged |
| `UseApi.ApiHook.StartPatch` | src/hooks/useApi.ts:69-71 | the doubled `setState('loading')` of `patch` leaves the same cells as `Start` |
| `UseApi.ApiHook.Complete` | src/hooks/useApi.ts:19-27 | on success the data is set, the state becomes `success`, the value is returned and the error is untouched; on failure the wrapped error is stored and rethrown, the state becomes `error` and the data is untouched |
| `UseApi.ApiHook.Reset` | src/hooks/useApi.ts:105-109 | from any state, data `null`, no error and state `idle` |
| `UseApi.ApiHook.Get` | src/hooks/useApi.ts:14-29 | start, the `GET` facade call, then completion with its outcome; returns what `Settle` gives |
| `UseApi.ApiHook.Post` | src/hooks/useApi.ts:32-47 | start, the `POST` facade call, then completion with its outcome |
| `UseApi.ApiHook.Put` | src/hooks/useApi.ts:50-65 | start, the `PUT` facade call, then completion with its outcome |
| `UseApi.ApiHook.Patch` | src/hooks/useApi.ts:68-84 | the doubled start, the `PATCH` facade call, then completion with its outcome |
| `UseApi.ApiHook.Delete` | src/hooks/useApi.ts:87-102 | start, the `DELETE` facade call, then completion with its outcome |

## Left out

- The real `fetch`, the network, `AbortController` and `setTimeout` timing are I/O and timers. The fetch is a parameter. The timeout shows up only as the `AbortError` outcome. The timer is a record of its delay and whether it is pending.
- The `signal` property that `fetchWithTimeout` adds to the request is not modelled, because it only connects the timer to the fetch.
- `RequestInit` fields other than `method`, `body` and `headers` are not modelled.
- Api.InitFor: an option is either given or absent. A `method` or `body` that is present but `undefined` or `null` is not modelled. The `...options` spread would let such a value override the verb or the serialized payload.
- Headers given as a `Headers` object or as an array are not modelled; the model uses `map<string,string>`.
- Header names are treated as case-sensitive, because the source merges plain objects.
- `JSON.parse`, `JSON.stringify`, `response.json()` and `response.text()` are foreign library calls. Their outcomes are inputs, and the model makes no round-trip claim about JSON.
- An exception thrown by `JSON.stringify` in `post`/`put`/`patch` is not modelled; it comes from a foreign library call.
- JSON numbers are integers. Fractions, `NaN` and `-0` are left out because they need floating point. So is the double-precision behaviour of large integers: values above 2^53 are not rounded, and values of magnitude 10^21 or more are printed with every digit rather than in exponent form (`"1e+21"`). This affects truthiness and the string conversion of a numeric `message`.
- The string conversion of an object `message` assumes the object has no own `toString`/`valueOf` keys. A JSON object with such keys would make the `Error` constructor call them, and that is JavaScript object machinery.
- The `ok` flag and the status are independent inputs, as the decoder reads them, and the model does not require `ok` to match a 2xx status.
- The `name` and stack of the `ApiError` class are not modelled. `instanceof ApiError` is the `ApiException` case of `Exception`.
- React's `useState`/`useCallback`, closures and re-render batching are framework machinery. The cells are plain fields.
- The asynchronous scheduler is not modelled. Overlapping calls are written as traces of start and completion events.
- TypeScript generics and `as T` casts are type-level only. Values are untyped `Json`. The 204 `null` and a parsed JSON `null` are the same value, as they are in JavaScript.
- `process.env` and `window.location.port` are environment reads and are passed in as parameters.
- src/components/ApiTest.tsx is UI rendering and is not part of this model.
- The unused `ApiResponse<T>` interface is not part of this model.
- A cancellation that fires more than once is not modelled, because cancellation events are not separate inputs.
