/** Cache-key and client-argument helpers of the reactive-query binding
    (packages/tanstack-angular-query/src/internals/utils.ts). */
module Utils {
  import opened JsValues

  /** The fetch shape a query key may be qualified with. */
  datatype KeyType = Query | Infinite | Any

  /** The qualifier record `{ input?, type? }` of a query key. */
  datatype KeyOpts = KeyOpts(input: Option<Value>, kind: Option<KeyType>)

  /** One element of a key array: the path segments, or the qualifier record. */
  datatype KeyElem = PathElem(segments: seq<string>) | OptsElem(opts: KeyOpts)

  /** The tuple shape `[path, opts?]` of a query key; the record's `type` is
      `'query'` or `'infinite'` when present, never `'any'`. */
  predicate IsQueryKey(k: seq<KeyElem>)
  {
    1 <= |k| <= 2 && k[0].PathElem? && (|k| == 2 ==> k[1].OptsElem? && k[1].opts.kind != Some(Any))
  }

  type QueryKey = k: seq<KeyElem> | IsQueryKey(k) witness [PathElem([])]

  /** A mutation key is the one-element tuple `[path]`. */
  type MutationKey = k: seq<KeyElem> | |k| == 1 && k[0].PathElem? witness [PathElem([])]

  /** The procedure path a key was built for. */
  function KeyPath(k: QueryKey): seq<string>
  {
    k[0].segments
  }

  /** The type a key records: `'any'` is the default and is never written down. */
  function RecordedType(kind: Option<KeyType>): (r: Option<KeyType>)
    ensures r != Some(Any)
    ensures kind == Some(Query) || kind == Some(Infinite) ==> r == kind
    ensures kind == None || kind == Some(Any) ==> r == None
  {
    if kind == Some(Any) then None else kind
  }

  /** The query key for a path, an optional input and an optional fetch type:
      the path alone, followed by a qualifier record exactly when an input or a
      type was supplied. */
  function QueryKeyOf(path: seq<string>, input: Option<Value>, kind: Option<KeyType>): (key: QueryKey)
    ensures KeyPath(key) == path
    ensures |key| == 2 <==> input.Some? || kind.Some?
    ensures |key| == 2 ==> key[1].opts.input == input
    ensures |key| == 2 ==> key[1].opts.kind != Some(Any)
    ensures |key| == 2 && (kind == Some(Query) || kind == Some(Infinite)) ==> key[1].opts.kind == kind
    ensures |key| == 2 && (kind == None || kind == Some(Any)) ==> key[1].opts.kind == None
  {
    if input.None? && kind.None? then [PathElem(path)]
    else [PathElem(path), OptsElem(KeyOpts(input, RecordedType(kind)))]
  }

  /** `getQueryKeyInternal`: the key array starts as `[path]`; when an input or a
      type is given, a record is filled field by field and pushed. */
  method GetQueryKeyInternal(path: seq<string>, input: Option<Value>, kind: Option<KeyType>)
    returns (queryKey: QueryKey)
    ensures queryKey == QueryKeyOf(path, input, kind)
  {
    var key: seq<KeyElem> := [PathElem(path)];
    if input.Some? || kind.Some? {
      var opts := KeyOpts(None, None);
      if input.Some? {
        opts := opts.(input := input);
      }
      if kind.Some? && kind != Some(Any) {
        opts := opts.(kind := kind);
      }
      key := key + [OptsElem(opts)];
    }
    queryKey := key;
  }

  /** Keys built for the same path share the key `[path]` as a sequence prefix,
      whatever input and fetch type they carry; the prefix is strict exactly when
      an input or a type was supplied. A key built for another path does not have
      it as a sequence prefix. */
  lemma PathKeyIsPrefix(p: seq<string>, q: seq<string>, input: Option<Value>, kind: Option<KeyType>)
    ensures QueryKeyOf(p, None, None) <= QueryKeyOf(q, input, kind) <==> p == q
    ensures p == q ==> (QueryKeyOf(p, None, None) < QueryKeyOf(q, input, kind) <==> input.Some? || kind.Some?)
  {
    var key := QueryKeyOf(q, input, kind);
    assert key[0] == PathElem(q);
    if QueryKeyOf(p, None, None) <= key {
      assert key[..1] == [PathElem(p)];
    }
  }

  /** A key determines the path, the input and the recorded type it was built
      from, so `'query'` and `'infinite'` fetches of one input never share a key. */
  lemma QueryKeyInjective(p1: seq<string>, i1: Option<Value>, t1: Option<KeyType>,
                          p2: seq<string>, i2: Option<Value>, t2: Option<KeyType>)
    requires QueryKeyOf(p1, i1, t1) == QueryKeyOf(p2, i2, t2)
    ensures p1 == p2 && i1 == i2 && RecordedType(t1) == RecordedType(t2)
  {
    var k := QueryKeyOf(p1, i1, t1);
    assert KeyPath(k) == p1 && KeyPath(k) == p2;
  }

  /** The keys the package's own tests expect, and the `'any'` case that records
      an empty qualifier. */
  lemma QueryKeyExamples()
    ensures QueryKeyOf(["posts", "list"], None, None) == [PathElem(["posts", "list"])]
    ensures QueryKeyOf(["posts", "byId"], Some(Obj(map["id" := Num(1)])), None)
            == [PathElem(["posts", "byId"]), OptsElem(KeyOpts(Some(Obj(map["id" := Num(1)])), None))]
    ensures QueryKeyOf(["posts", "list"], None, Some(Query))
            == [PathElem(["posts", "list"]), OptsElem(KeyOpts(None, Some(Query)))]
    ensures QueryKeyOf(["posts", "list"], Some(Obj(map["limit" := Num(10)])), Some(Infinite))
            == [PathElem(["posts", "list"]), OptsElem(KeyOpts(Some(Obj(map["limit" := Num(10)])), Some(Infinite)))]
    ensures QueryKeyOf(["posts", "list"], None, Some(Any)) == [PathElem(["posts", "list"]), OptsElem(KeyOpts(None, None))]
    ensures GetMutationKeyInternal(["posts", "create"]) == [PathElem(["posts", "create"])]
    ensures Join(["posts", "list"], '.') == "posts.list"
  {
  }

  /** `getMutationKeyInternal`. */
  function GetMutationKeyInternal(path: seq<string>): (key: MutationKey)
    ensures key == QueryKeyOf(path, None, None)
  {
    [PathElem(path)]
  }

  /** The client call arguments `[path, input?, requestOptions?]`. */
  datatype ClientArgs = ClientArgs(path: string, input: Option<Value>, requestOptions: Option<Value>)

  /** `getClientArgs`: the dotted path, the key's input (undefined when the key
      has no record or the record no input) and `opts?.trpc` as given. */
  function GetClientArgs(queryKey: QueryKey, opts: Option<Value>): (args: ClientArgs)
    ensures args.path == Join(KeyPath(queryKey), '.')
    ensures |queryKey| == 2 ==> args.input == queryKey[1].opts.input
    ensures |queryKey| == 1 ==> args.input == None
    ensures args.requestOptions == Member(opts, "trpc")
  {
    var input := if |queryKey| == 2 then queryKey[1].opts.input else None;
    ClientArgs(Join(KeyPath(queryKey), '.'), input, Member(opts, "trpc"))
  }

  /** Client arguments recovered from a key give back the input the key was
      built with, whatever type it records, and the dotted form of its path;
      for segments free of dots the path itself is recovered by splitting. */
  lemma ClientArgsRoundTrip(path: seq<string>, input: Option<Value>, kind: Option<KeyType>, opts: Option<Value>)
    ensures GetClientArgs(QueryKeyOf(path, input, kind), opts) == ClientArgs(Join(path, '.'), input, Member(opts, "trpc"))
    ensures |path| >= 1 && (forall k :: 0 <= k < |path| ==> '.' !in path[k]) ==>
              Split(GetClientArgs(QueryKeyOf(path, input, kind), opts).path, '.') == path
  {
    if |path| >= 1 && (forall k :: 0 <= k < |path| ==> '.' !in path[k]) {
      SplitJoin(path, '.');
    }
  }

  /** The `trpc` record `{ path }` attached to built options. */
  datatype TrpcOptionsResult = TrpcOptionsResult(path: string)

  /** `createTRPCOptionsResult`: the path label is the dotted path. */
  function CreateTrpcOptionsResult(path: seq<string>): (r: TrpcOptionsResult)
    ensures r.path == Join(path, '.')
  {
    TrpcOptionsResult(Join(path, '.'))
  }

  /** The label attached to options names the same procedure the client is
      called with for any key of that path. */
  lemma LabelMatchesClientPath(path: seq<string>, input: Option<Value>, kind: Option<KeyType>, opts: Option<Value>)
    ensures CreateTrpcOptionsResult(path).path == GetClientArgs(QueryKeyOf(path, input, kind), opts).path
  {
  }

  /** An argument given either as a value or as a thunk producing one. */
  datatype LazyArg<T> = Given(value: T) | Thunk(produce: () -> T)

  /** `unwrapLazyArg`: a thunk is called, a value is returned unchanged. */
  function UnwrapLazyArg<T>(arg: LazyArg<T>): (r: T)
    ensures arg.Given? ==> r == arg.value
    ensures arg.Thunk? ==> r == arg.produce()
  {
    match arg
    case Given(v) => v
    case Thunk(f) => f()
  }

  /** A finite async iterable: the items it yields, one step at a time. */
  datatype Stream<T> = End | Yield(head: T, tail: Stream<T>)

  /** The number of items a stream yields. */
  function Count<T>(s: Stream<T>): nat
  {
    match s
    case End => 0
    case Yield(_, tail) => 1 + Count(tail)
  }

  /** The item yielded at step `k`. */
  function Nth<T>(s: Stream<T>, k: nat): T
    requires k < Count(s)
  {
    if k == 0 then s.head else Nth(s.tail, k - 1)
  }

  /** Everything a stream yields, collected in yield order. */
  function Drain<T>(s: Stream<T>): (items: seq<T>)
  {
    match s
    case End => []
    case Yield(head, tail) => [head] + Drain(tail)
  }

  /** A stream that yields the given items in order. */
  function FromSeq<T>(items: seq<T>): Stream<T>
  {
    if items == [] then End else Yield(items[0], FromSeq(items[1..]))
  }

  /** Draining keeps every yielded item, at the position it was yielded. */
  lemma {:induction false} DrainInYieldOrder<T>(s: Stream<T>)
    ensures |Drain(s)| == Count(s)
    ensures forall k :: 0 <= k < Count(s) ==> Drain(s)[k] == Nth(s, k)
  {
    match s
    case End =>
    case Yield(head, tail) =>
      DrainInYieldOrder(tail);
      forall k | 0 <= k < Count(s) ensures Drain(s)[k] == Nth(s, k) {
        if k > 0 {
          assert Drain(s)[k] == Drain(tail)[k - 1];
        }
      }
  }

  /** Draining a stream built from a list gives the list back. */
  lemma {:induction false} DrainFromSeq<T>(items: seq<T>)
    ensures Drain(FromSeq(items)) == items
    decreases |items|
  {
    if items != [] {
      DrainFromSeq(items[1..]);
      assert items == [items[0]] + items[1..];
    }
  }

  /** Draining loses nothing: the stream is rebuilt from its items. */
  lemma {:induction false} FromSeqDrain<T>(s: Stream<T>)
    ensures FromSeq(Drain(s)) == s
  {
    match s
    case End =>
    case Yield(head, tail) =>
      FromSeqDrain(tail);
      assert Drain(s)[1..] == Drain(tail);
  }

  /** `buildQueryFromAsyncIterable`: pulls every item and appends it to the
      result list; the cache client and the key are accepted but not used. */
  method BuildQueryFromAsyncIterable<T>(iterable: Stream<T>, queryClient: QueryClient, queryKey: QueryKey)
    returns (results: seq<T>)
    ensures results == Drain(iterable)
  {
    results := [];
    var rest := iterable;
    while rest.Yield?
      invariant results + Drain(rest) == Drain(iterable)
      decreases rest
    {
      results := results + [rest.head];
      rest := rest.tail;
    }
  }

  /** An opaque handle on the query-cache client. */
  datatype QueryClient = QueryClient(clientId: nat)
}
