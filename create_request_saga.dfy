/** The request-lifecycle wrapper of the frontend. A saga built by
    `createRequestSaga(type, request)` yields, in order: a `put` of
    `startLoading(type)`, a `call` of the request with the action's payload, a
    `put` of the SUCCESS or FAILURE action, and a `put` of `finishLoading(type)`.
    A `put` appends to the log of yielded effects and a `call` answers the
    request's outcome, given as a value. The `try` covers the `call`, the read
    of `response.data` and the SUCCESS `put`, so a request that resolves to
    nothing (`undefined` or `null`) also ends in FAILURE. */
module CreateRequestSaga {
  import opened Wrappers

  /** `createRequestActionTypes(type)`: the base type and its two outcomes. */
  function CreateRequestActionTypes(actionType: string): (r: seq<string>)
    ensures |r| == 3 && r[0] == actionType
    ensures r[1] == actionType + "_SUCCESS" && r[2] == actionType + "_FAILURE"
    ensures r[0] != r[1] && r[1] != r[2] && r[0] != r[2]
  {
    var success := actionType + "_SUCCESS";
    var failure := actionType + "_FAILURE";
    assert success[|actionType| + 1] == 'S' && failure[|actionType| + 1] == 'F';
    [actionType, success, failure]
  }

  /** An HTTP response as the API client answers it; `meta` carries all of it. */
  datatype Response<D> = Response(data: D, status: int, headers: map<string, string>)

  /** How the request settles: resolved with a value or rejected with `e`. A
      resolved value is a response, or `None` for `undefined` / `null`. */
  datatype Outcome<D, E> = Ok(response: Option<Response<D>>) | Err(e: E)

  /** What the `catch` receives: the request's rejection, or the TypeError
      raised by reading `.data` of a value that is not an object. */
  datatype Caught<E> = Rejected(reason: E) | DataOfNothing

  /** The request resolved to a response whose `.data` can be read. */
  predicate Resolved<D, E>(outcome: Outcome<D, E>)
  {
    outcome.Ok? && outcome.response.Some?
  }

  /** The actions the saga puts. `startLoading` / `finishLoading` are the
      loading module's action creators, kept opaque. */
  datatype Action<D, E> =
    | StartLoading(key: string)
    | FinishLoading(key: string)
    | Success(actionType: string, payload: D, meta: Response<D>)
    | Failure(actionType: string, errorPayload: Caught<E>, error: bool)

  /** The effects the generator yields. */
  datatype Effect<P, D, E> = Put(action: Action<D, E>) | Call(args: P)

  /** The action that triggers the saga; only its payload is used. */
  datatype TriggerAction<P> = TriggerAction(actionType: string, payload: P)

  /** What `createRequestSaga(type, request)` closes over. */
  datatype Saga<!P, D, E> = Saga(
    actionType: string,
    success: string,
    failure: string,
    request: P -> Outcome<D, E>)

  /** `createRequestSaga(type, request)`: its SUCCESS and FAILURE names are the
      ones `createRequestActionTypes` derives. */
  function CreateRequestSaga<P, D, E>(actionType: string, request: P -> Outcome<D, E>)
    : (s: Saga<P, D, E>)
    ensures s.actionType == actionType && s.request == request
    ensures s.success == CreateRequestActionTypes(actionType)[1]
    ensures s.failure == CreateRequestActionTypes(actionType)[2]
  {
    Saga(actionType, actionType + "_SUCCESS", actionType + "_FAILURE", request)
  }

  /** The action put once the request has settled: SUCCESS exactly for a
      readable response, FAILURE with what the `catch` received otherwise. */
  function Settled<P, D, E>(saga: Saga<P, D, E>, outcome: Outcome<D, E>): (a: Action<D, E>)
    ensures a.Success? <==> Resolved(outcome)
    ensures a.Success? ==>
      a.actionType == saga.success && a.meta == outcome.response.value && a.payload == a.meta.data
    ensures a.Failure? ==> a.actionType == saga.failure && a.error
    ensures outcome.Err? ==> a.Failure? && a.errorPayload == Rejected(outcome.e)
    ensures outcome == Ok(None) ==> a.Failure? && a.errorPayload == DataOfNothing
  {
    match outcome
    case Ok(Some(response)) => Success(saga.success, response.data, response)
    case Ok(None) => Failure(saga.failure, DataOfNothing, true)
    case Err(e) => Failure(saga.failure, Rejected(e), true)
  }

  /** The effects one run of the saga yields: `put` start, `call` of the request
      with the payload, `put` of the settled action, `put` finish. */
  function Trace<P, D, E>(saga: Saga<P, D, E>, payload: P): (t: seq<Effect<P, D, E>>)
    ensures |t| == 4
    ensures t[0] == Put(StartLoading(saga.actionType)) && t[1] == Call(payload)
    ensures t[2].Put? && t[2].action == Settled(saga, saga.request(payload))
    ensures t[3] == Put(FinishLoading(saga.actionType))
  {
    [Put(StartLoading(saga.actionType)), Call(payload)] +
    [Put(Settled(saga, saga.request(payload)))] +
    [Put(FinishLoading(saga.actionType))]
  }

  /** The actions among a run's effects, in order. */
  function Actions<P, D, E>(effects: seq<Effect<P, D, E>>): (r: seq<Action<D, E>>)
    ensures |r| <= |effects|
    ensures forall i :: 0 <= i < |r| ==> Put(r[i]) in effects
    ensures forall i :: 0 <= i < |effects| && effects[i].Put? ==> effects[i].action in r
  {
    if effects == [] then []
    else (if effects[0].Put? then [effects[0].action] else []) + Actions(effects[1..])
  }

  /** The actions of consecutive effect runs are the actions of each, in order. */
  lemma {:induction false} ActionsAppend<P, D, E>(a: seq<Effect<P, D, E>>, b: seq<Effect<P, D, E>>)
    ensures Actions(a + b) == Actions(a) + Actions(b)
  {
    if a == [] {
      assert a + b == b;
    } else {
      assert (a + b)[1..] == a[1..] + b;
      ActionsAppend(a[1..], b);
    }
  }

  function CountSettled<D, E>(acts: seq<Action<D, E>>): nat
  {
    if acts == [] then 0
    else (if acts[0].Success? || acts[0].Failure? then 1 else 0) + CountSettled(acts[1..])
  }

  function CountFinish<D, E>(acts: seq<Action<D, E>>, key: string): nat
  {
    if acts == [] then 0
    else (if acts[0] == FinishLoading(key) then 1 else 0) + CountFinish(acts[1..], key)
  }

  /** The generator's yielded effects, in order. */
  class EffectLog<P, D, E> {
    var yielded: seq<Effect<P, D, E>>

    constructor ()
      ensures yielded == []
    {
      yielded := [];
    }

    method Yield(e: Effect<P, D, E>)
      modifies this
      ensures yielded == old(yielded) + [e]
    {
      yielded := yielded + [e];
    }
  }

  /** One run of the generator `createRequestSaga` returns. The catch turns a
      rejected request, and a resolved value without `.data`, into the FAILURE
      action; nothing escapes the run. */
  method Run<P, D, E>(saga: Saga<P, D, E>, action: TriggerAction<P>, log: EffectLog<P, D, E>)
    modifies log
    ensures log.yielded == old(log.yielded) + Trace(saga, action.payload)
  {
    log.Yield(Put(StartLoading(saga.actionType)));
    log.Yield(Call(action.payload));
    var outcome := saga.request(action.payload);
    match outcome {
      case Ok(Some(response)) =>
        log.Yield(Put(Success(saga.success, response.data, response)));
      case Ok(None) =>
        log.Yield(Put(Failure(saga.failure, DataOfNothing, true)));
      case Err(e) =>
        log.Yield(Put(Failure(saga.failure, Rejected(e), true)));
    }
    log.Yield(Put(FinishLoading(saga.actionType)));
  }

  /** A run puts start, the settled action and finish, in that order. */
  lemma ActionsOfTrace<P, D, E>(saga: Saga<P, D, E>, payload: P)
    ensures Actions(Trace(saga, payload)) ==
      [StartLoading(saga.actionType), Settled(saga, saga.request(payload)),
       FinishLoading(saga.actionType)]
  {
    var t := Trace(saga, payload);
    assert t == [t[0], t[1]] + [t[2], t[3]];
    assert [t[0], t[1]] == [t[0]] + [t[1]];
    assert [t[2], t[3]] == [t[2]] + [t[3]];
    ActionsAppend([t[0], t[1]], [t[2], t[3]]);
    ActionsAppend([t[0]], [t[1]]);
    ActionsAppend([t[2]], [t[3]]);
  }

  /** A request resolved with a response: start, SUCCESS with the data and the
      response as meta, finish. */
  lemma SuccessActions<P, D, E>(actionType: string, request: P -> Outcome<D, E>, payload: P,
                                response: Response<D>)
    requires request(payload) == Ok(Some(response))
    ensures Actions(Trace(CreateRequestSaga(actionType, request), payload)) ==
      [StartLoading(actionType), Success(actionType + "_SUCCESS", response.data, response),
       FinishLoading(actionType)]
  {
    ActionsOfTrace(CreateRequestSaga(actionType, request), payload);
  }

  /** A rejected request: start, FAILURE with the error flagged, finish. */
  lemma FailureActions<P, D, E>(actionType: string, request: P -> Outcome<D, E>, payload: P, e: E)
    requires request(payload) == Err(e)
    ensures Actions(Trace(CreateRequestSaga(actionType, request), payload)) ==
      [StartLoading(actionType), Failure(actionType + "_FAILURE", Rejected(e), true),
       FinishLoading(actionType)]
  {
    ActionsOfTrace(CreateRequestSaga(actionType, request), payload);
  }

  /** A request that resolves to `undefined` or `null`: reading `.data` throws
      inside the `try`, so the run puts FAILURE with that TypeError. */
  lemma ResolvedToNothingFails<P, D, E>(actionType: string, request: P -> Outcome<D, E>, payload: P)
    requires request(payload) == Ok(None)
    ensures Actions(Trace(CreateRequestSaga(actionType, request), payload)) ==
      [StartLoading(actionType), Failure(actionType + "_FAILURE", DataOfNothing, true),
       FinishLoading(actionType)]
  {
    ActionsOfTrace(CreateRequestSaga(actionType, request), payload);
  }

  /** `startLoading(type)` is put before the request is called, and the request
      is called once, with the action's payload. */
  lemma StartBeforeCall<P, D, E>(saga: Saga<P, D, E>, payload: P)
    ensures Trace(saga, payload)[0] == Put(StartLoading(saga.actionType))
    ensures Trace(saga, payload)[1] == Call(payload)
    ensures forall i :: 0 <= i < |Trace(saga, payload)| && Trace(saga, payload)[i].Call? ==> i == 1
  {
  }

  /** Exactly one of SUCCESS and FAILURE is put, and it is SUCCESS exactly when
      the request resolved to a response; `finishLoading(type)` is put once,
      last. */
  lemma SettlesOnceThenFinishes<P, D, E>(saga: Saga<P, D, E>, payload: P)
    ensures var acts := Actions(Trace(saga, payload));
      |acts| == 3 && CountSettled(acts) == 1 &&
      (acts[1].Success? <==> Resolved(saga.request(payload))) &&
      (acts[1].Failure? <==> !Resolved(saga.request(payload))) &&
      acts[2] == FinishLoading(saga.actionType) &&
      CountFinish(acts, saga.actionType) == 1
  {
    ActionsOfTrace(saga, payload);
    var acts := Actions(Trace(saga, payload));
    assert acts[1..][1..][1..] == [];
    assert acts[1..][1..] == [acts[2]];
    assert acts[1..] == [acts[1], acts[2]];
    assert CountSettled(acts[1..][1..]) == 0;
    assert CountSettled(acts[1..]) == 1;
    assert CountFinish(acts[1..][1..], saga.actionType) == 1;
    assert CountFinish(acts[1..], saga.actionType) == 1;
  }
}
