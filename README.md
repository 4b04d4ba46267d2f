# Cache keys and request arguments of the tRPC reactive-query binding

This project is a Dafny model of the cache-key and request-argument layer of the
Angular reactive-query binding for tRPC (`packages/tanstack-angular-query`). It
covers three source files:

- **`utils.ts`**: the helpers that build a query key from a procedure path, an
  optional input and an optional fetch type (`'query'`, `'infinite'` or
  `'any'`). They also build the mutation key, turn a key back into client call
  arguments (dotted path, input, request options), build the `trpc` path label,
  unwrap an argument that may be a thunk, and drain an async iterable into a list.
- **`infiniteQueryOptions.ts`**: the infinite-query options builder. It picks
  either the skip sentinel or a real page fetch. For each page it builds the
  input as the caller's input fields plus `cursor`. It chooses the cancellation
  signal from `abortOnDestroy` and calls the client with arguments from
  `getClientArgs`. A streamed result is drained; a rejection propagates.
- **`subscriptionOptions.ts`**: the placeholder that reports a subscription
  status. It is `idle` when the subscription is explicitly disabled and
  `pending` otherwise.

Modules:

- `JsValues` (`js_values.dfy`) models the JavaScript runtime that these helpers
  rely on. `undefined` is `None`. A value is null, a boolean, an integer, a
  string, an array, an object with string keys, an opaque function, an opaque
  abort signal, or the skip token. The module also gives truthiness, optional
  member access `v?.k`, object spread `{...v}` (arrays and strings spread under
  decimal index keys), `Array.prototype.join`, and `String.prototype.split` as
  the inverse of `join`.
- `Utils` (`utils.dfy`) models `utils.ts`. A query key is a sequence of one or
  two elements, `[path]` or `[path, {input?, type?}]`, the same as the JavaScript
  tuple. "Prefix" is therefore ordinary sequence prefix.
  - `getQueryKeyInternal` pushes onto an array and fills a record field by
    field. It is a method proved equal to the function `QueryKeyOf`, and the
    key properties are proved about that function.
  - An async iterable is a finite stream of yields. `buildQueryFromAsyncIterable`
    is a loop that pulls each item and appends it. It is proved to return
    `Drain` of the stream, which keeps every item in yield order and is the
    inverse of building a stream from a list.
- `InfiniteQueryOptions` (`infinite_query_options.dfy`) models
  `trpcInfiniteQueryOptions`. The returned `queryFn` is either the skip sentinel
  or a closure record. `RunQueryFn` runs one page fetch against a given client
  `query` function.
- `SubscriptionOptions` (`subscription_options.dfy`) models the five-state
  result union and `trpcSubscriptionOptions`.

Parameters stand in for what the model cannot see: the client's `query`
function (a function from client arguments to a settled result), the query
client (an opaque handle), the abort signal (an opaque value) and the
subscription callbacks (opaque function values).

## Model

| member | source | states |
|---|---|---|
| `Utils.QueryKeyOf` | packages/tanstack-angular-query/src/internals/utils.ts:15-28 | The key's first element is the given path. A second element exists iff an input or a type was supplied. Its `input` is exactly the given input. Its `type` is the given type when that type is `'query'` or `'infinite'`, and absent when the type is missing or `'any'`; it is never `'any'`. |
| `Utils.RecordedType` | packages/tanstack-angular-query/src/internals/utils.ts:22-24 | `'query'` and `'infinite'` are recorded as given; `'any'` and an absent type record nothing. |
| `Utils.GetQueryKeyInternal` | packages/tanstack-angular-query/src/internals/utils.ts:9-29 | Starting from `[path]`, filling the record field by field and pushing it yields exactly `QueryKeyOf(path, input, type)`. |
| `Utils.PathKeyIsPrefix` | packages/tanstack-angular-query/src/internals/utils.ts:15-26 | `[p]` is a prefix of a key built for `q` iff `p == q`. For the same path the prefix is strict iff an input or a type was supplied. This is sequence prefix over whole key elements; the cache library's partial key matching, which also compares path arrays segment by segment, is not modelled. |
| `Utils.QueryKeyInjective` | packages/tanstack-angular-query/src/internals/utils.ts:15-28 | Equal keys come from equal paths, equal inputs and equal recorded types. So `'query'` and `'infinite'` keys of one input differ. |
| `Utils.QueryKeyExamples` | packages/tanstack-angular-query/test/utils.test.ts:6-31 | Gives the exact keys the tests expect: path only, with input, with type, with input and type, and the mutation key. Also `'any'` alone yields `[path, {}]` and `['posts','list']` joins to `"posts.list"`. |
| `Utils.GetMutationKeyInternal` | packages/tanstack-angular-query/src/internals/utils.ts:34-36 | The mutation key is the query key of the same path with no input and no type, i.e. exactly `[path]`. |
| `Utils.GetClientArgs` | packages/tanstack-angular-query/src/internals/utils.ts:41-47 | The path is the key's path joined with `'.'`. The input is the key record's `input` when the key has a record, and undefined when it has none. The request options are `opts?.trpc` unchanged. |
| `Utils.ClientArgsRoundTrip` | packages/tanstack-angular-query/src/internals/utils.ts:41-47 | The client arguments of `QueryKeyOf(p, i, t)` are the dotted `p`, exactly `i` (for any type) and `opts?.trpc`. When no segment contains a dot, splitting the dotted path gives `p` back. |
| `JsValues.SplitJoin` | packages/tanstack-angular-query/src/internals/utils.ts:46 | Joining at least one dot-free segment with `'.'` and then splitting at `'.'` gives the segments back. So the dotted path names one procedure path. |
| `Utils.CreateTrpcOptionsResult` | packages/tanstack-angular-query/src/internals/utils.ts:52-56 | The label's `path` is the path joined with `'.'`. |
| `Utils.LabelMatchesClientPath` | packages/tanstack-angular-query/src/internals/utils.ts:41-56 | The label equals the path that `getClientArgs` passes to the client for any key of the same path. |
| `Utils.UnwrapLazyArg` | packages/tanstack-angular-query/src/internals/utils.ts:61-63 | A thunk is called and its result returned. A plain value is returned unchanged. |
| `Utils.BuildQueryFromAsyncIterable` | packages/tanstack-angular-query/src/internals/utils.ts:68-78 | The loop returns `Drain` of the stream: every yielded item, in yield order. The query client and the key do not affect the result. |
| `Utils.DrainInYieldOrder` | packages/tanstack-angular-query/src/internals/utils.ts:73-77 | The drained list has one entry per yield, and entry `k` is the item yielded at step `k`. |
| `Utils.DrainFromSeq` | packages/tanstack-angular-query/src/internals/utils.ts:73-77 | Draining a stream that yields a list gives that list back. |
| `Utils.FromSeqDrain` | packages/tanstack-angular-query/src/internals/utils.ts:73-77 | Rebuilding a stream from its drained items gives the same stream, so draining loses nothing. |
| `JsValues.DecimalStringInjective` | packages/tanstack-angular-query/src/internals/infiniteQueryOptions.ts:189 | Distinct array indices have distinct property keys, so spreading an array keeps every element. |
| `InfiniteQueryOptions.PageInput` | packages/tanstack-angular-query/src/internals/infiniteQueryOptions.ts:188-191 | `cursor` is the page parameter and overwrites any `cursor` the input had. For an object input every other field is the input's. For an array input the fields are its elements under index keys. For null, a primitive or undefined there is no field besides `cursor`. |
| `InfiniteQueryOptions.PageSignal` | packages/tanstack-angular-query/src/internals/infiniteQueryOptions.ts:197-199 | The signal is the cache library's signal iff `opts.trpc.abortOnDestroy` is truthy. Otherwise it is an explicit `null`. |
| `InfiniteQueryOptions.PageTrpcOptions` | packages/tanstack-angular-query/src/internals/infiniteQueryOptions.ts:195-200 | The page's `trpc` options hold the chosen `signal`. Every other field is the caller's `opts.trpc` field, unchanged. |
| `InfiniteQueryOptions.PageRequestOptions` | packages/tanstack-angular-query/src/internals/infiniteQueryOptions.ts:193-201 | The request options object keeps every caller option other than `trpc`, unchanged. Its `trpc` is the page's `trpc` options. |
| `InfiniteQueryOptions.PageArgs` | packages/tanstack-angular-query/src/internals/infiniteQueryOptions.ts:203 | `getClientArgs` applied to the page key and the request options gives the dotted path, the page input and the page's `trpc` options. |
| `InfiniteQueryOptions.Settle` | packages/tanstack-angular-query/src/internals/infiniteQueryOptions.ts:203-209 | An async-iterable result becomes a list with one entry per yield, in yield order. Any other value is returned unchanged. A rejection propagates with the same reason. |
| `InfiniteQueryOptions.RunQueryFn` | packages/tanstack-angular-query/src/internals/infiniteQueryOptions.ts:185-210 | A page fetch settles whatever the client returns when called with the dotted path, the page input and the page's `trpc` options. |
| `InfiniteQueryOptions.TrpcInfiniteQueryOptions` | packages/tanstack-angular-query/src/internals/infiniteQueryOptions.ts:172-220 | `queryFn` is the skip sentinel iff the input is the skip token; otherwise it is the page fetch closed over the input, path, options, client `query`, unwrapped query client and key. `queryKey` is the given key. `trpc.path` is the dotted path. Every other caller option is kept unchanged, and the three reserved names are replaced. |
| `InfiniteQueryOptions.InfiniteFetchCallsClient` | packages/tanstack-angular-query/src/internals/infiniteQueryOptions.ts:183-216 | For any input other than the skip token, the built `queryFn` is a real fetch. Each page call settles the client's answer to the dotted path, the caller's input plus the page cursor, and the request options with the chosen signal. |
| `InfiniteQueryOptions.LabelNamesFetchedProcedure` | packages/tanstack-angular-query/src/internals/infiniteQueryOptions.ts:203-218 | The returned `trpc.path` label is the path each page fetch passes to the client. |
| `InfiniteQueryOptions.IndexKeysAreNotCursor` | packages/tanstack-angular-query/src/internals/infiniteQueryOptions.ts:188-191 | No array index key is `cursor`, so the page cursor never hides an element of an array input. |
| `SubscriptionOptions.SubscriptionResult.Data` | packages/tanstack-angular-query/src/internals/subscriptionOptions.ts:5-40 | `data` is defined only in the success variant. |
| `SubscriptionOptions.SubscriptionResult.Err` | packages/tanstack-angular-query/src/internals/subscriptionOptions.ts:5-40 | `error` is defined only in the error variant. |
| `SubscriptionOptions.TrpcSubscriptionOptions` | packages/tanstack-angular-query/src/internals/subscriptionOptions.ts:63-96 | The status is `idle` iff `opts.enabled` is exactly `false`. It is `pending` in every other case (no options, `enabled` absent or `true`). `data` and `error` are undefined in both. |
| `SubscriptionOptions.SubscriptionIgnoresAllButEnabled` | packages/tanstack-angular-query/src/internals/subscriptionOptions.ts:75-96 | The whole result depends only on whether `enabled` is `false`. It does not depend on the path, the key, `subscribe` or any callback. |
| `SubscriptionOptions.NeverProgresses` | packages/tanstack-angular-query/src/internals/subscriptionOptions.ts:35-40 | No call returns `connecting`, `success` or `error`. |

## Left out

- Asynchrony. `await`, promises and the `for await` protocol become plain
  function results. The client's `query` is a total function from client
  arguments to a settled result (a value, an async iterable, or a rejection).
- Async iterables are finite streams. An unbounded producer cannot be drained
  and is out of scope. So is an iterator that throws part-way through.
- Utils.UnwrapLazyArg: the source decides by `typeof arg === 'function'` at
  run time. The model has the caller pick `Given` or `Thunk`. So a value that is
  itself a function, which the source would call, is not modelled.
- Numbers are integers. Floating point, `NaN` and `-0` (which affect truthiness)
  are not modelled.
- An object field that holds `undefined` is the same as an absent field. Key
  hashing and structural comparison treat the two alike. A page parameter of
  `undefined` therefore leaves `cursor` absent.
- Spreading a string or an array yields index-keyed fields. Other built-in
  objects (abort signals, functions, the skip symbol) contribute no fields, as
  they have no own enumerable properties.
- The `subscribe` function and the subscription callbacks are opaque values.
  The source never calls them, and the model shows that the result does not
  depend on them.
- The TanStack `infiniteQueryOptions` call and `Object.assign` are modelled as
  building one record. `infiniteQueryOptions` returns its argument at run time.
  The returned `trpc` field is the path label and replaces any `trpc` the caller
  passed in, as in the source.
- The compile-time overload types (`infiniteQueryOptions.ts:31-167`) have no run-time behaviour.
- Angular dependency injection (`Context.ts`, `context.ts`) and the HTTP link
  are not part of this model.
- `queryOptions`, `mutationOptions` and `createOptionsProxy` live in
  implementation files outside the modelled files, so they are not part of
  this model.
- JsValues.Spread: a string is spread by Dafny `char` (Unicode scalar value),
  whereas JavaScript spreads it by UTF-16 code unit, so characters outside the
  Basic Multilingual Plane give different index keys.
- Cache-library key matching: only sequence prefix of whole key elements is
  stated. The library's partial matching, under which `[p]` also matches keys
  whose path merely starts with the segments of `p`, is not modelled.
