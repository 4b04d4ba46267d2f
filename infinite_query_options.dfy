/** Infinite-query option assembly of the reactive-query binding
    (packages/tanstack-angular-query/src/internals/infiniteQueryOptions.ts). */
module InfiniteQueryOptions {
  import opened JsValues
  import opened Utils

  /** What the cache library hands the fetch function for one page. */
  datatype PageContext = PageContext(pageParam: Option<Value>, signal: Value)

  /** What the untyped client's `query` settles to. */
  datatype CallResult =
    | Resolved(value: Value)
    | Iterable(stream: Stream<Value>)
    | Rejected(reason: Value)

  /** What the page fetch settles to. */
  datatype PageResult = PageData(data: Value) | PageError(reason: Value)

  /** The untyped client's `query(path, input, requestOptions)`. */
  type ClientQuery = ClientArgs -> CallResult

  /** The `queryFn` of the built options: the skip sentinel, or the page fetch
      closed over the call's input, path, options, client and key. */
  datatype QueryFn =
    | SkipQueryFn
    | FetchPage(input: Option<Value>, path: seq<string>, opts: Option<Value>,
                query: ClientQuery, queryClient: QueryClient, queryKey: QueryKey)

  /** The built options: the caller's other options, the key, the fetch function
      and the `trpc` label. */
  datatype InfiniteOptions =
    InfiniteOptions(options: map<string, Value>, queryKey: QueryKey, queryFn: QueryFn, trpc: TrpcOptionsResult)

  /** The option names the builder sets itself. */
  const ReservedOptionNames: set<string> := {"queryKey", "queryFn", "trpc"}

  /** Index keys are digit strings, so spreading an array never yields a `cursor` field. */
  lemma IndexKeysAreNotCursor(n: nat)
    ensures forall i :: 0 <= i < n ==> DecimalString(i) != "cursor"
  {
    forall i | 0 <= i < n ensures DecimalString(i) != "cursor" {
      assert DecimalString(i)[0] != "cursor"[0];
    }
  }

  /** The input of one page: the caller's input fields, when the input is an
      object, with `cursor` set to the page parameter. */
  function PageInput(input: Option<Value>, pageParam: Option<Value>): (r: map<string, Value>)
    ensures Member(Some(Obj(r)), "cursor") == pageParam
    ensures input.Some? && input.value.Obj? ==>
              forall k :: k != "cursor" ==> Member(Some(Obj(r)), k) == Member(input, k)
    ensures input.Some? && input.value.Arr? ==>
              forall i :: 0 <= i < |input.value.items| ==>
                DecimalString(i) in r && r[DecimalString(i)] == input.value.items[i]
    ensures input.Some? && input.value.Arr? ==>
              forall k :: k in r && k != "cursor" ==>
                exists i :: 0 <= i < |input.value.items| && k == DecimalString(i)
    ensures !(input.Some? && (input.value.Obj? || input.value.Arr?)) ==> r.Keys <= {"cursor"}
  {
    var base := if IsObjectLike(input) then Spread(input) else map[];
    if input.Some? && input.value.Arr? then
      IndexKeysAreNotCursor(|input.value.items|);
      SetField(base, "cursor", pageParam)
    else
      SetField(base, "cursor", pageParam)
  }

  /** The cancellation signal a page request carries: the cache library's signal
      when `opts.trpc.abortOnDestroy` is truthy, otherwise an explicit `null`. */
  function PageSignal(opts: Option<Value>, signal: Value): (r: Value)
    ensures Truthy(Member(Member(opts, "trpc"), "abortOnDestroy")) ==> r == signal
    ensures !Truthy(Member(Member(opts, "trpc"), "abortOnDestroy")) ==> r == Null
  {
    if Truthy(Member(Member(opts, "trpc"), "abortOnDestroy")) then signal else Null
  }

  /** The `trpc` request options of one page: the caller's, with the signal set. */
  function PageTrpcOptions(opts: Option<Value>, signal: Value): (r: map<string, Value>)
    ensures "signal" in r && r["signal"] == PageSignal(opts, signal)
    ensures forall k :: k != "signal" ==>
              (k in r <==> k in Spread(Member(opts, "trpc"))) &&
              (k in r ==> r[k] == Spread(Member(opts, "trpc"))[k])
  {
    Spread(Member(opts, "trpc"))["signal" := PageSignal(opts, signal)]
  }

  /** The options object of one page request: the caller's options with `trpc`
      replaced by the page's request options. */
  function PageRequestOptions(opts: Option<Value>, signal: Value): (r: Value)
    ensures r.Obj?
    ensures Member(Some(r), "trpc") == Some(Obj(PageTrpcOptions(opts, signal)))
    ensures forall k :: k != "trpc" ==>
              (k in r.fields <==> k in Spread(opts)) &&
              (k in r.fields ==> r.fields[k] == Spread(opts)[k])
  {
    Obj(Spread(opts)["trpc" := Obj(PageTrpcOptions(opts, signal))])
  }

  /** The client arguments of one page, obtained from the page's key through
      `getClientArgs`: the dotted path, the page input, the page's request options. */
  function PageArgs(input: Option<Value>, path: seq<string>, opts: Option<Value>, ctx: PageContext): (args: ClientArgs)
    ensures args == ClientArgs(Join(path, '.'), Some(Obj(PageInput(input, ctx.pageParam))),
                               Some(Obj(PageTrpcOptions(opts, ctx.signal))))
  {
    var pageKey: QueryKey := [PathElem(path), OptsElem(KeyOpts(Some(Obj(PageInput(input, ctx.pageParam))), None))];
    GetClientArgs(pageKey, Some(PageRequestOptions(opts, ctx.signal)))
  }

  /** How the awaited client result becomes the page: an async iterable is
      drained into a list in yield order, any other value is passed through, a
      rejection propagates unchanged. */
  function Settle(result: CallResult): (r: PageResult)
    ensures result.Resolved? ==> r == PageData(result.value)
    ensures result.Rejected? ==> r == PageError(result.reason)
    ensures result.Iterable? ==>
              r.PageData? && r.data.Arr? && |r.data.items| == Count(result.stream) &&
              forall k :: 0 <= k < Count(result.stream) ==> r.data.items[k] == Nth(result.stream, k)
  {
    match result
    case Resolved(v) => PageData(v)
    case Iterable(s) =>
      DrainInYieldOrder(s);
      PageData(Arr(Drain(s)))
    case Rejected(e) => PageError(e)
  }

  /** Running the page fetch for one page. */
  function RunQueryFn(fn: QueryFn, ctx: PageContext): (r: PageResult)
    requires fn.FetchPage?
    ensures r == Settle(fn.query(ClientArgs(Join(fn.path, '.'), Some(Obj(PageInput(fn.input, ctx.pageParam))),
                                            Some(Obj(PageTrpcOptions(fn.opts, ctx.signal))))))
  {
    Settle(fn.query(PageArgs(fn.input, fn.path, fn.opts, ctx)))
  }

  /** `trpcInfiniteQueryOptions`. */
  function TrpcInfiniteQueryOptions(input: Option<Value>, query: ClientQuery, queryClient: LazyArg<QueryClient>,
                                    path: seq<string>, queryKey: QueryKey, opts: Option<Value>): (r: InfiniteOptions)
    ensures r.queryFn.SkipQueryFn? <==> input == Some(SkipToken)
    ensures r.queryKey == queryKey
    ensures r.trpc.path == Join(path, '.')
    ensures forall k :: k in r.options <==> k in Spread(opts) && k !in ReservedOptionNames
    ensures forall k :: k in r.options ==> r.options[k] == Spread(opts)[k]
    ensures input != Some(SkipToken) ==>
              r.queryFn == FetchPage(input, path, opts, query, UnwrapLazyArg(queryClient), queryKey)
  {
    var client := UnwrapLazyArg(queryClient);
    var fetch := FetchPage(input, path, opts, query, client, queryKey);
    InfiniteOptions(Spread(opts) - ReservedOptionNames, queryKey,
                    if input == Some(SkipToken) then SkipQueryFn else fetch,
                    CreateTrpcOptionsResult(path))
  }

  /** Unless the input is the skip token, every page fetch calls the client once
      with the dotted path, the caller's input plus the page's cursor, and the
      caller's request options with the signal chosen by `abortOnDestroy`. */
  lemma InfiniteFetchCallsClient(input: Option<Value>, query: ClientQuery, queryClient: LazyArg<QueryClient>,
                                 path: seq<string>, queryKey: QueryKey, opts: Option<Value>, ctx: PageContext)
    requires input != Some(SkipToken)
    ensures var fn := TrpcInfiniteQueryOptions(input, query, queryClient, path, queryKey, opts).queryFn;
            fn.FetchPage? &&
            RunQueryFn(fn, ctx) == Settle(query(ClientArgs(Join(path, '.'), Some(Obj(PageInput(input, ctx.pageParam))),
                                                           Some(Obj(PageTrpcOptions(opts, ctx.signal))))))
  {
  }

  /** The dotted path in the returned `trpc` label is the one each page fetch
      passes to the client. */
  lemma LabelNamesFetchedProcedure(input: Option<Value>, query: ClientQuery, queryClient: LazyArg<QueryClient>,
                                   path: seq<string>, queryKey: QueryKey, opts: Option<Value>, ctx: PageContext)
    requires input != Some(SkipToken)
    ensures var r := TrpcInfiniteQueryOptions(input, query, queryClient, path, queryKey, opts);
            r.queryFn.FetchPage? &&
            PageArgs(r.queryFn.input, r.queryFn.path, r.queryFn.opts, ctx).path == r.trpc.path
  {
  }
}
