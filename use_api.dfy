/**
 * The request state of the `useApi` hook (src/hooks/useApi.ts): three cells `data`,
 * `error` and `state`, updated by each verb when it starts and when it completes, and
 * cleared by `reset`.
 *
 * Each verb is asynchronous: it sets its "start" state, awaits the `ApiService` call,
 * then sets its "complete" state. `ApiHook.Start` and `ApiHook.Complete` are those two
 * halves, so that calls which overlap can be written down as a trace of events; the
 * methods `ApiHook.Get` etc. are one call run without anything in between. The
 * functions `Apply` and `Replay` give the same transitions on values.
 */
module UseApi {
  import opened Wrappers
  import opened JsValues
  import Api

  /** `RequestState`: 'idle' | 'loading' | 'success' | 'error'. */
  datatype RequestState = IdleState | LoadingState | SuccessState | ErrorState

  /**
   * The three cells of the hook. `data` is a JavaScript value: the initial `null` and a
   * resolved `null` are the same `JNull`; `error` is None for `null`.
   */
  datatype Snapshot = Snapshot(data: Json, error: Option<Api.ApiError>, state: RequestState)

  /** The cells as `useState` initialises them, and as `reset` leaves them. */
  const Initial: Snapshot := Snapshot(JNull, None, IdleState)

  const UnknownErrorMessage: string := "Error desconocido"

  /** `err instanceof ApiError ? err : new ApiError('Error desconocido')`. */
  function ToApiError(e: Api.Exception): (r: Api.ApiError)
    ensures e.ApiException? ==> r == e.error
    ensures !e.ApiException? ==> r == Api.ApiError(UnknownErrorMessage, None, None)
  {
    if e.ApiException? then e.error else Api.ApiError(UnknownErrorMessage, None, None)
  }

  /** What a verb returns or rethrows, given what the `ApiService` call returned or threw. */
  function Settle(outcome: Result<Json, Api.Exception>): (r: Result<Json, Api.ApiError>)
    ensures r.Success? <==> outcome.Success?
    ensures r.Success? ==> r.value == outcome.value
    ensures r.Failure? ==> r.error == ToApiError(outcome.error)
  {
    match outcome
    case Success(v) => Success(v)
    case Failure(e) => Failure(ToApiError(e))
  }

  /** One step of the hook: a verb starts, a verb's call completes, or `reset` is called. */
  datatype Event = Started | Completed(outcome: Result<Json, Api.Exception>) | ResetCalled

  /**
   * The cells after one step. Only a reset leads to `idle`; a start keeps the data, a
   * success keeps the error and a failure keeps the data.
   */
  function Apply(s: Snapshot, e: Event): (r: Snapshot)
    ensures r.state == IdleState <==> e.ResetCalled?
    ensures e.Started? ==> r.data == s.data && r.error == None
    ensures e.Completed? && e.outcome.Success? ==> r.data == e.outcome.value && r.error == s.error
    ensures e.Completed? && e.outcome.Failure? ==> r.data == s.data && r.error.Some?
  {
    match e
    case Started => s.(state := LoadingState, error := None)
    case Completed(Success(v)) => s.(data := v, state := SuccessState)
    case Completed(Failure(x)) => s.(error := Some(ToApiError(x)), state := ErrorState)
    case ResetCalled => Initial
  }

  /**
   * The cells after a sequence of steps, in order. The data cell changes only through a
   * completion or a reset: starts alone leave it as it was.
   */
  function Replay(s: Snapshot, es: seq<Event>): (r: Snapshot)
    ensures r.data != s.data ==> exists i :: 0 <= i < |es| && !es[i].Started?
    decreases |es|
  {
    if es == [] then s
    else
      var r := Replay(Apply(s, es[0]), es[1..]);
      assert r.data != Apply(s, es[0]).data ==> exists j :: 0 <= j < |es[1..]| && !es[1..][j].Started?;
      r
  }

  lemma ReplayStep(s: Snapshot, e: Event, es: seq<Event>)
    ensures Replay(s, [e] + es) == Replay(Apply(s, e), es)
  {
    assert ([e] + es)[1..] == es;
  }

  /** Four steps replayed one after another. */
  lemma ReplayFour(s: Snapshot, a: Event, b: Event, c: Event, d: Event)
    ensures Replay(s, [a, b, c, d]) == Apply(Apply(Apply(Apply(s, a), b), c), d)
  {
    ReplayStep(s, a, [b, c, d]);
    ReplayStep(Apply(s, a), b, [c, d]);
    ReplayStep(Apply(Apply(s, a), b), c, [d]);
    ReplayStep(Apply(Apply(Apply(s, a), b), c), d, []);
  }

  lemma {:induction false} ReplayAppend(s: Snapshot, es: seq<Event>, e: Event)
    ensures Replay(s, es + [e]) == Apply(Replay(s, es), e)
    decreases |es|
  {
    if es != [] {
      assert (es + [e])[1..] == es[1..] + [e];
      ReplayAppend(Apply(s, es[0]), es[1..], e);
    }
  }

  /**
   * Calls that do not overlap: a verb starts only when no call is in flight, and a
   * completion belongs to the one call in flight. `pending` says whether a call is in
   * flight before `es`; `reset` may come at any point.
   */
  predicate Sequential(es: seq<Event>, pending: bool)
    decreases |es|
  {
    if es == [] then true
    else match es[0]
      case Started => !pending && Sequential(es[1..], true)
      case Completed(_) => pending && Sequential(es[1..], false)
      case ResetCalled => Sequential(es[1..], pending)
  }

  /** Whether a call is in flight after `es`. */
  function PendingAfter(es: seq<Event>, pending: bool): (p: bool)
    decreases |es|
  {
    if es == [] then pending
    else PendingAfter(es[1..], match es[0]
                               case Started => true
                               case Completed(_) => false
                               case ResetCalled => pending)
  }

  /**
   * The relation between the cells that the state names: no error while loading or
   * after a success, an error after a failure, nothing at all when idle.
   */
  predicate Consistent(s: Snapshot) {
    && (s.state == LoadingState || s.state == SuccessState ==> s.error == None)
    && (s.state == ErrorState ==> s.error.Some?)
    && (s.state == IdleState ==> s.data == JNull && s.error == None)
  }

  lemma InitialConsistent()
    ensures Consistent(Initial)
  {
  }

  /**
   * Without overlapping calls the cells stay consistent, and once no call is in flight
   * the state is no longer `loading`.
   */
  lemma {:induction false} SequentialCallsStayConsistent(s: Snapshot, es: seq<Event>, pending: bool)
    requires Sequential(es, pending)
    requires Consistent(s)
    requires pending ==> s.error == None
    requires !pending ==> s.state != LoadingState
    ensures Consistent(Replay(s, es))
    ensures !PendingAfter(es, pending) ==> Replay(s, es).state != LoadingState
    decreases |es|
  {
    if es != [] {
      var next := match es[0]
                  case Started => true
                  case Completed(_) => false
                  case ResetCalled => pending;
      SequentialCallsStayConsistent(Apply(s, es[0]), es[1..], next);
    }
  }

  /** Whatever came before, the last completion alone decides the final state. */
  lemma LastCompletionDecides(s: Snapshot, es: seq<Event>, outcome: Result<Json, Api.Exception>)
    ensures Replay(s, es + [Completed(outcome)]).state
            == if outcome.Success? then SuccessState else ErrorState
  {
    ReplayAppend(s, es, Completed(outcome));
  }

  /**
   * Overlapping calls: two verbs start, the first call fails, then the second
   * succeeds. The state is `success` but the first call's error is still stored.
   */
  lemma StaleErrorSurvivesSuccess(e: Api.Exception, v: Json)
    ensures var s := Replay(Initial, [Started, Started, Completed(Failure(e)), Completed(Success(v))]);
            s == Snapshot(v, Some(ToApiError(e)), SuccessState) && !Consistent(s)
  {
    ReplayFour(Initial, Started, Started, Completed(Failure(e)), Completed(Success(v)));
  }

  /**
   * Two calls, the second resolving first: the first call's later completion decides the
   * state, and also the data on success or the error on failure; the other cell is what
   * the second call left behind.
   */
  lemma LaterCompletionWins(first: Result<Json, Api.Exception>, second: Result<Json, Api.Exception>)
    ensures var s := Replay(Initial, [Started, Started, Completed(second), Completed(first)]);
            && s.state == (if first.Success? then SuccessState else ErrorState)
            && (first.Success? ==> s.data == first.value
                                   && s.error == (if second.Failure? then Some(ToApiError(second.error)) else None))
            && (first.Failure? ==> s.error == Some(ToApiError(first.error))
                                   && s.data == (if second.Success? then second.value else JNull))
  {
    ReplayFour(Initial, Started, Started, Completed(second), Completed(first));
  }

  /** A failure does not clear the data of an earlier success: it stays beside the error. */
  lemma FailureKeepsEarlierData(v: Json, e: Api.Exception)
    ensures var s := Replay(Initial, [Started, Completed(Success(v)), Started, Completed(Failure(e))]);
            s.data == v && s.error == Some(ToApiError(e)) && s.state == ErrorState
  {
    ReplayFour(Initial, Started, Completed(Success(v)), Started, Completed(Failure(e)));
  }

  /** `reset` does not cancel a call in flight: its completion still sets the cells. */
  lemma ResetDoesNotCancel(s: Snapshot, outcome: Result<Json, Api.Exception>)
    ensures Replay(s, [Started, ResetCalled, Completed(outcome)])
            == match outcome
               case Success(v) => Snapshot(v, None, SuccessState)
               case Failure(e) => Snapshot(JNull, Some(ToApiError(e)), ErrorState)
  {
    ReplayStep(s, Started, [ResetCalled, Completed(outcome)]);
    ReplayStep(Apply(s, Started), ResetCalled, [Completed(outcome)]);
    ReplayStep(Initial, Completed(outcome), []);
  }

  /** A verb started twice in a row is the same as started once. */
  lemma StartIdempotent(s: Snapshot)
    ensures Apply(Apply(s, Started), Started) == Apply(s, Started)
  {
  }

  /** The hook's cells, updated in place by its operations. */
  class ApiHook {
    var data: Json
    var error: Option<Api.ApiError>
    var state: RequestState

    function Current(): (s: Snapshot)
      reads this
    {
      Snapshot(data, error, state)
    }

    /** `useState(null)`, `useState(null)`, `useState('idle')`. */
    constructor ()
      ensures Current() == Initial
    {
      data, error, state := JNull, None, IdleState;
    }

    /** `isLoading: state === 'loading'`. */
    function IsLoading(): (b: bool)
      reads this
      ensures b <==> Current().state == LoadingState
    {
      state == LoadingState
    }

    /** `isSuccess: state === 'success'`. */
    function IsSuccess(): (b: bool)
      reads this
      ensures b <==> Current().state == SuccessState
    {
      state == SuccessState
    }

    /** `isError: state === 'error'`. */
    function IsError(): (b: bool)
      reads this
      ensures b <==> Current().state == ErrorState
    {
      state == ErrorState
    }

    /** The setters of the three `useState` cells: each changes its own cell only. */
    method SetData(v: Json)
      modifies this
      ensures data == v && error == old(error) && state == old(state)
    {
      data := v;
    }

    method SetError(e: Option<Api.ApiError>)
      modifies this
      ensures error == e && data == old(data) && state == old(state)
    {
      error := e;
    }

    method SetState(st: RequestState)
      modifies this
      ensures state == st && data == old(data) && error == old(error)
    {
      state := st;
    }

    /** The start of `get`, `post`, `put` and `delete`: loading, no error, data kept. */
    method Start()
      modifies this
      ensures state == LoadingState && error == None && data == old(data)
      ensures Current() == Apply(old(Current()), Started)
    {
      SetState(LoadingState);
      SetError(None);
    }

    /** The start of `patch`, which sets the state twice: the same as `Start`. */
    method StartPatch()
      modifies this
      ensures state == LoadingState && error == None && data == old(data)
      ensures Current() == Apply(old(Current()), Started)
    {
      SetState(LoadingState);
      SetState(LoadingState);
      SetError(None);
    }

    /**
     * The completion shared by the five verbs: on success the data and the state are
     * set and the value returned, the error cell untouched; on failure the error
     * (wrapped unless it is an `ApiError`) is stored and rethrown, the data untouched.
     */
    method Complete(outcome: Result<Json, Api.Exception>) returns (r: Result<Json, Api.ApiError>)
      modifies this
      ensures r == Settle(outcome)
      ensures outcome.Success? ==>
                data == outcome.value && state == SuccessState && error == old(error)
      ensures outcome.Failure? ==>
                error == Some(ToApiError(outcome.error)) && state == ErrorState && data == old(data)
      ensures Current() == Apply(old(Current()), Completed(outcome))
    {
      match outcome {
        case Success(result) =>
          SetData(result);
          SetState(SuccessState);
          r := Success(result);
        case Failure(err) =>
          var apiError := ToApiError(err);
          SetError(Some(apiError));
          SetState(ErrorState);
          r := Failure(apiError);
      }
    }

    /** `reset()`: from any state, back to the initial cells. */
    method Reset()
      modifies this
      ensures Current() == Initial
    {
      SetData(JNull);
      SetError(None);
      SetState(IdleState);
    }

    /** `get(endpoint, options)` with nothing else running in between. */
    method Get(baseUrl: string, endpoint: string, options: Api.RequestInit,
               fetch: Api.Request -> Api.FetchOutcome)
      returns (r: Result<Json, Api.ApiError>, ghost outcome: Result<Json, Api.Exception>,
               ghost sent: Api.Request)
      modifies this
      ensures Api.Delivers("GET", baseUrl, endpoint, None, options, fetch, outcome, sent)
      ensures r == Settle(outcome)
      ensures Current() == Apply(Apply(old(Current()), Started), Completed(outcome))
    {
      Start();
      var res, req := Api.Get(baseUrl, endpoint, options, fetch);
      outcome, sent := res, req;
      r := Complete(res);
    }

    /** `post(endpoint, data, options)` with nothing else running in between. */
    method Post(baseUrl: string, endpoint: string, data': Option<Json>, options: Api.RequestInit,
                fetch: Api.Request -> Api.FetchOutcome, stringify: Json -> string)
      returns (r: Result<Json, Api.ApiError>, ghost outcome: Result<Json, Api.Exception>,
               ghost sent: Api.Request)
      modifies this
      ensures Api.Delivers("POST", baseUrl, endpoint, Api.SerializedBody(data', stringify),
                           options, fetch, outcome, sent)
      ensures r == Settle(outcome)
      ensures Current() == Apply(Apply(old(Current()), Started), Completed(outcome))
    {
      Start();
      var res, req := Api.Post(baseUrl, endpoint, data', options, fetch, stringify);
      outcome, sent := res, req;
      r := Complete(res);
    }

    /** `put(endpoint, data, options)` with nothing else running in between. */
    method Put(baseUrl: string, endpoint: string, data': Option<Json>, options: Api.RequestInit,
               fetch: Api.Request -> Api.FetchOutcome, stringify: Json -> string)
      returns (r: Result<Json, Api.ApiError>, ghost outcome: Result<Json, Api.Exception>,
               ghost sent: Api.Request)
      modifies this
      ensures Api.Delivers("PUT", baseUrl, endpoint, Api.SerializedBody(data', stringify),
                           options, fetch, outcome, sent)
      ensures r == Settle(outcome)
      ensures Current() == Apply(Apply(old(Current()), Started), Completed(outcome))
    {
      Start();
      var res, req := Api.Put(baseUrl, endpoint, data', options, fetch, stringify);
      outcome, sent := res, req;
      r := Complete(res);
    }

    /** `patch(endpoint, data, options)` with nothing else running in between. */
    method Patch(baseUrl: string, endpoint: string, data': Option<Json>, options: Api.RequestInit,
                 fetch: Api.Request -> Api.FetchOutcome, stringify: Json -> string)
      returns (r: Result<Json, Api.ApiError>, ghost outcome: Result<Json, Api.Exception>,
               ghost sent: Api.Request)
      modifies this
      ensures Api.Delivers("PATCH", baseUrl, endpoint, Api.SerializedBody(data', stringify),
                           options, fetch, outcome, sent)
      ensures r == Settle(outcome)
      ensures Current() == Apply(Apply(old(Current()), Started), Completed(outcome))
    {
      StartPatch();
      var res, req := Api.Patch(baseUrl, endpoint, data', options, fetch, stringify);
      outcome, sent := res, req;
      r := Complete(res);
    }

    /** `delete(endpoint, options)` with nothing else running in between. */
    method Delete(baseUrl: string, endpoint: string, options: Api.RequestInit,
                  fetch: Api.Request -> Api.FetchOutcome)
      returns (r: Result<Json, Api.ApiError>, ghost outcome: Result<Json, Api.Exception>,
               ghost sent: Api.Request)
      modifies this
      ensures Api.Delivers("DELETE", baseUrl, endpoint, None, options, fetch, outcome, sent)
      ensures r == Settle(outcome)
      ensures Current() == Apply(Apply(old(Current()), Started), Completed(outcome))
    {
      Start();
      var res, req := Api.Delete(baseUrl, endpoint, options, fetch);
      outcome, sent := res, req;
      r := Complete(res);
    }
  }

  /** `isLoading`, `isSuccess`, `isError`: at most one holds, and none exactly when idle. */
  lemma FlagsExclusive(h: ApiHook)
    ensures !(h.IsLoading() && h.IsSuccess())
    ensures !(h.IsLoading() && h.IsError())
    ensures !(h.IsSuccess() && h.IsError())
    ensures h.state == IdleState <==> !(h.IsLoading() || h.IsSuccess() || h.IsError())
  {
  }
}
