/** Subscription status placeholder of the reactive-query binding
    (packages/tanstack-angular-query/src/internals/subscriptionOptions.ts). */
module SubscriptionOptions {
  import opened JsValues
  import opened Utils

  /** The five statuses a subscription result can report. */
  datatype SubscriptionStatus = Idle | Pending | Connecting | Error | Success

  /** `TRPCSubscriptionResult`: only the error variant carries an error and only
      the success variant carries data; every other field is undefined. */
  datatype SubscriptionResult<D, E> =
    | IdleResult
    | PendingResult
    | ConnectingResult
    | ErrorResult(error: E)
    | SuccessResult(data: D)
  {
    function Status(): SubscriptionStatus
    {
      match this
      case IdleResult => Idle
      case PendingResult => Pending
      case ConnectingResult => Connecting
      case ErrorResult(_) => Error
      case SuccessResult(_) => Success
    }

    /** The `data` field. */
    function Data(): (d: Option<D>)
      ensures d.Some? <==> Status() == Success
    {
      if SuccessResult? then Some(data) else None
    }

    /** The `error` field. */
    function Err(): (e: Option<E>)
      ensures e.Some? <==> Status() == Error
    {
      if ErrorResult? then Some(error) else None
    }
  }

  /** The caller's subscription options; the callbacks are opaque function values. */
  datatype SubscriptionOpts = SubscriptionOpts(
    enabled: Option<bool>,
    onData: Option<Value>,
    onError: Option<Value>,
    onStarted: Option<Value>,
    onStopped: Option<Value>)

  /** Whether the caller switched the subscription off: `opts?.enabled === false`. */
  predicate Disabled(opts: Option<SubscriptionOpts>)
  {
    opts.Some? && opts.value.enabled == Some(false)
  }

  /** `trpcSubscriptionOptions`: idle when explicitly disabled, pending otherwise,
      never further; neither variant carries data or an error. */
  function TrpcSubscriptionOptions<D, E>(path: seq<string>, queryKey: QueryKey, subscribe: Value,
                                         opts: Option<SubscriptionOpts>): (r: SubscriptionResult<D, E>)
    ensures r.Status() == Idle <==> Disabled(opts)
    ensures r.Status() == Pending <==> !Disabled(opts)
    ensures r.Data() == None && r.Err() == None
  {
    if Disabled(opts) then IdleResult else PendingResult
  }

  /** The result depends on `enabled` alone: not on the path, the key, the
      subscribe function or any callback. */
  lemma SubscriptionIgnoresAllButEnabled<D, E>(
    p1: seq<string>, k1: QueryKey, s1: Value, o1: Option<SubscriptionOpts>,
    p2: seq<string>, k2: QueryKey, s2: Value, o2: Option<SubscriptionOpts>)
    requires Disabled(o1) == Disabled(o2)
    ensures TrpcSubscriptionOptions<D, E>(p1, k1, s1, o1) == TrpcSubscriptionOptions<D, E>(p2, k2, s2, o2)
  {
  }

  /** No call ever reports connecting, success or error. */
  lemma NeverProgresses<D, E>(path: seq<string>, queryKey: QueryKey, subscribe: Value, opts: Option<SubscriptionOpts>)
    ensures TrpcSubscriptionOptions<D, E>(path, queryKey, subscribe, opts).Status() !in {Connecting, Success, Error}
  {
  }
}
