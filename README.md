# redux-fetcher, modelled in Dafny

redux-fetcher is a small helper layer over the redux-api-middleware convention.
It has two entry points:

- `createFetchAction(id, url, options, meta)` builds the call descriptor the
  middleware consumes. The descriptor holds the endpoint, the HTTP method, a
  bailout predicate that suppresses duplicate or cached fetches, and three
  lifecycle types (`<ID>_FETCH_PENDING`, `_SUCCESS`, `_FAILURE`), each with a
  metadata producer. The optional `headers`, `credentials` and `body` are
  added by a method rule.
- `createFetchReducer(id)` builds the reducer that turns those three
  lifecycle actions into per-resource state and passes every other action
  through.

The model is pure, like the source. It has five modules:

- `Js` (js.dfy): the slice of JavaScript value semantics the code relies on.
  It covers dynamically typed values, truthiness, property reads that return
  undefined for a missing key, and the `String()` conversion that template
  literals apply.
- `Ascii` (ascii.dfy): `toUpperCase`/`toLowerCase` on ASCII letters.
- `UtilAction` (util_action.dfy): `src/util-action.js`. It holds the default
  bailout, the three type builders with their metadata producers, and
  `extendAction`. `extendAction` appears both as the function `Extend` and as
  the step-by-step method `ExtendAction`, which is proved equal to it.
- `UtilReducer` (util_reducer.dfy): `src/util-reducer.js`, the three state
  constructors.
- `Fetcher` (fetcher.dfy): `src/index.js`. It holds `createFetchAction`,
  `createFetchReducer` and the reducer closure, which is a `Reducer` value
  that captures its prefix. It also holds the lemmas that connect the
  descriptor, the reducer and the bailout.

How the model represents the source:

- An omitted `id`, `url` or `options` argument is `None`.
- An options object is a record of JavaScript values, with `Undefined` for a
  key the caller left out.
- A key the descriptor or a state object lacks is `None`. A key that is present
  with the value undefined is `Some(Undefined)`.
- The middleware's store is a `map<string, Value>`.

Where the code differs from its doc comments and tests, the model follows the
code:

- Default options apply only when `options` is omitted entirely
  (src/index.js:24). A partial options object leaves `method` undefined, and
  the descriptor then gets a `body` key (`Fetcher.PartialOptionsCarryBody`).
- The doc comment at src/index.js:17-21 says `meta` is put into the action.
  In the code `meta` is turned into a function, but that function is passed to
  type builders that take only `(prefix, url)`. Caller meta therefore never
  reaches the descriptor (`Fetcher.MetaHasNoEffect`).
- The reducer expectations in test/index.js:218-273 are that meta is kept in
  state, that `error` is `true` on failure and that the failure keeps its
  payload. In the code the reducer keeps no `meta`. On failure `error` is the
  string `"name: message"` and there is no `payload`. On pending the state
  holds `endpoint` from the payload and no `payload`.

## Model

| member | source | states |
|---|---|---|
| `Fetcher.CreateFetchAction` | src/index.js:24-55 | fails with "Must provide action identifier and url" exactly when id or url is omitted or empty; otherwise the endpoint is the url and there are exactly three types, in the order pending, success, failure, named upper(id)+"_FETCH_PENDING"/"_SUCCESS"/"_FAILURE", with the matching metadata producers over the url |
| `Fetcher.MetaHasNoEffect` | src/index.js:29-47 | the descriptor (or error) is the same whatever `meta` argument is passed |
| `Fetcher.DefaultDescriptor` | src/index.js:24-48 | with options omitted: endpoint is the url, method is "GET", no body, headers or credentials, and the default bailout without force |
| `Fetcher.BailoutChoice` | src/index.js:38 | the bailout is the caller's option when it is truthy, else the default bailout over (id, options.force) |
| `Fetcher.RequestFields` | src/index.js:39-51 | the method is the option's; headers and credentials are present iff the option is truthy, then verbatim; body is present iff the method is neither "GET" nor "HEAD", then the option's body |
| `Fetcher.PartialOptionsCarryBody` | src/index.js:24-51 | options without `method` give an undefined method and a descriptor that carries the options' body key |
| `Fetcher.CreateFetchReducer` | src/index.js:62-67 | fails with "Must provide action identifier for reducer" exactly when id is omitted or empty; otherwise captures upper(id) as the prefix |
| `Fetcher.MetaFunctionOf` | src/index.js:29-34 | a function `meta` is used as it is; any other value becomes a function returning that value |
| `Fetcher.Reducer.StageOf` | src/index.js:70-78 | an action type names a stage iff it is a string equal to the prefix followed by that stage's suffix |
| `Fetcher.Reducer.Apply` | src/index.js:69-83 | throws exactly on a FAILURE or PENDING action whose payload is undefined or null; otherwise SUCCESS, FAILURE and PENDING give fetchSuccess, fetchFailure and fetchPending of the payload, whatever the prior state, meta or error flag, and any other action returns the incoming state, or the empty object when the state is undefined |
| `Fetcher.Reducer.ApplyIntended` | src/util-reducer.js:19-25 | handles every action except PENDING as `Apply` does; on PENDING it throws iff the meta is undefined or null, and otherwise stores the pending state with the endpoint taken from the meta |
| `Fetcher.PendingWithoutPayloadThrows` | src/util-reducer.js:23 | the pending action `{type: "DATA_FETCH_PENDING", meta: {endpoint}}` with no payload makes the reducer for "data" throw |
| `Fetcher.PendingWithoutPayloadThrowsFor` | src/util-reducer.js:19-23 | for every prefix, state, meta and error flag, a PENDING action without a payload makes the reducer throw |
| `Fetcher.PendingMetaReachesState` | src/util-action.js:26-35 | the descriptor's pending type with the meta its producer computes and no payload: `Apply` throws, while `ApplyIntended` stores a loading state whose endpoint is the descriptor's url |
| `Fetcher.ReducerMatchesExactly` | src/index.js:67-80 | the reducer for id reacts to a stage's type built from a prefix iff that prefix equals upper(id) exactly |
| `Fetcher.ReducerIgnoresCase` | src/index.js:67 | ids that differ only in ASCII case yield the same reducer |
| `Fetcher.DescriptorTypesDriveReducer` | src/index.js:36-80 | the descriptor's three type strings, fed to the reducer built from the same id, yield the pending, success and failure states in that order (for a readable payload) |
| `Fetcher.LifecycleThenBailout` | src/util-reducer.js:1-25 | with the state `ApplyIntended` produces stored under the lower-cased id, the corrected bailout always skips after pending, skips after success iff the payload is truthy and force is not, and never skips after failure |
| `UtilAction.DefaultBailout` | src/util-action.js:1-8 | answers false when the entry under id is not truthy, and throws exactly when that entry is truthy and the entry under lower(id) is undefined or null |
| `UtilAction.DefaultBailoutPolicy` | src/util-action.js:1-8 | for a lower-case id it never throws, and it bails iff the entry exists and is loading, or holds a truthy payload without force |
| `UtilAction.LoadingAlwaysBails` | src/util-action.js:5 | a truthy `loading` is returned as the answer, whatever `force` is |
| `UtilAction.CachedPayloadBails` | src/util-action.js:4-5 | without force, a truthy payload makes it bail |
| `UtilAction.ForcedBailsOnlyWhenLoading` | src/util-action.js:4-5 | with force it bails iff the entry exists and is loading, so an idle entry never bails |
| `UtilAction.DefaultBailoutIsBoolean` | src/util-action.js:3-7 | when `loading` is a boolean or missing, the answer is exactly the boolean `true` or `false` the policy gives |
| `UtilAction.MixedCaseIdThrows` | src/util-action.js:3-4 | id "Data" with only a "Data" entry that is not loading throws |
| `UtilAction.StoreNodeBailout` | src/util-action.js:1-8 | the corrected bailout reads lower(id) for both the test and the reads, and bails iff the policy holds of that entry |
| `UtilAction.StoreNodeBailoutAgrees` | src/util-action.js:1-8 | on lower-case ids the code's bailout returns the corrected bailout's answer |
| `UtilAction.StoreNodeBailoutIgnoresCase` | src/util-action.js:4 | the corrected bailout gives the same answer for id and lower(id) |
| `UtilAction.TypeName` | src/util-action.js:13 | a type string is the prefix followed by the 14-character stage suffix "_FETCH_..." |
| `UtilAction.CreateSuccessType` | src/util-action.js:11-13 | the entry's type is prefix + "_FETCH_SUCCESS" and its producer is the success producer over the url |
| `UtilAction.CreatePendingType` | src/util-action.js:26-28 | the entry's type is prefix + "_FETCH_PENDING" and its producer is the pending producer over the url |
| `UtilAction.CreateFailureType` | src/util-action.js:37-39 | the entry's type is prefix + "_FETCH_FAILURE" and its producer is the failure producer over the url |
| `UtilAction.TypeNameInjective` | src/util-action.js:11-39 | two type strings are equal iff their prefixes and stages are equal |
| `UtilAction.ComputeMeta` | src/util-action.js:11-54 | every producer that returns a value returns an object whose endpoint is the url |
| `UtilAction.PendingMetaIsEndpointOnly` | src/util-action.js:26-35 | the pending producer returns exactly `{endpoint: url}`, the same for all arguments |
| `UtilAction.SuccessMetaShape` | src/util-action.js:11-23 | the success producer returns a value iff the response is readable, and then `{endpoint, response: {status, type}}` taken from the response |
| `UtilAction.FailureMetaShape` | src/util-action.js:37-54 | the failure producer never throws; with a response it equals the success producer, without one its only key is endpoint |
| `UtilAction.Extend` | src/util-action.js:57-77 | keeps endpoint, bailout, method and types; sets headers and credentials to the option when it is truthy and keeps the input's otherwise; sets body when the method is neither "GET" nor "HEAD" and keeps the input's otherwise |
| `UtilAction.ExtendAction` | src/util-action.js:57-77 | copying the input and assigning each optional field in turn yields `Extend` of the input |
| `UtilReducer.FetchSuccess` | src/util-reducer.js:2-8 | not loading, no error, the payload as given, no endpoint |
| `UtilReducer.ErrorText` | src/util-reducer.js:14 | the text is `String(payload.name)`, then ": ", then `String(payload.message)` |
| `UtilReducer.FetchFailure` | src/util-reducer.js:11-16 | not loading, error is the message `String(payload.name) + ": " + String(payload.message)` (never empty), no payload and no endpoint |
| `UtilReducer.FetchPending` | src/util-reducer.js:19-25 | loading, no error, the payload's endpoint, no payload |
| `UtilReducer.FetchPendingFromMeta` | src/util-reducer.js:19-25 | the corrected pending state: loading, no error, the endpoint read from the action's meta, no payload |
| `UtilReducer.ErrorTextSplits` | src/util-reducer.js:14 | for a string name without ':' the error text is the name, then ": ", then the message as a string |
| `UtilReducer.ResourceState.ToValue` | src/util-reducer.js:3-24 | the stored object's keys are exactly loading and error, plus payload and endpoint when the state has them; loading is the boolean, error is `false` or the message string (truthy iff non-empty), and payload and endpoint hold the state's values |
| `UtilReducer.LoadingOnlyWhilePending` | src/util-reducer.js:4-21 | loading is true for the pending state and false for the success and failure states |
| `UtilReducer.ErrorOnlyOnFailure` | src/util-reducer.js:5-22 | error is truthy for the failure state only |
| `Ascii.Upper` | src/index.js:36 | upper-casing keeps the length and maps every character by the ASCII upper-case map |
| `Ascii.Lower` | src/util-action.js:4 | lower-casing keeps the length and maps every character by the ASCII lower-case map |
| `Ascii.UpperIdempotent` | src/index.js:67 | upper-casing twice equals upper-casing once |
| `Ascii.UpperIgnoresCase` | src/index.js:67 | upper-casing a lower-cased string equals upper-casing the original |
| `Ascii.LowerIdempotent` | src/util-action.js:4 | lower-casing twice equals lower-casing once |
| `Js.Decimal` | src/util-reducer.js:14 | the numeral template conversion writes for a natural number: non-empty, digits only, no leading zero, and its digits denote the number |
| `Ascii.LowerFixedPoint` | src/util-action.js:4 | lower-casing leaves a string unchanged iff it holds no upper-case letter |

## Findings

| source | as written | input that shows it | evidently intended | confidence | as-written member | corrected member |
|---|---|---|---|---|---|---|
| src/util-action.js:3-4 | tests the entry under `id`, then reads `.payload` from the entry under `id.toLowerCase()` | id "Data", store `{Data: {loading: false}}`: the first test passes and reading `payload` of the missing "data" entry throws a TypeError; with the store keyed "data" the test never passes and the bailout never fires | both the test and the reads use one store node, the lower-cased id | high; not executed | `UtilAction.MixedCaseIdThrows` | `UtilAction.StoreNodeBailout` |
| src/util-reducer.js:19-25 | the pending state reads `payload.endpoint`, but the pending producer (src/util-action.js:26-35) puts the endpoint in the action's `meta`, and the pending action carries no payload | reducer for "data" with `{type: "DATA_FETCH_PENDING", meta: {endpoint: "http://localhost/awesomeendpoint"}}` (test/index.js:263-268): reading `endpoint` of the undefined payload throws a TypeError | the pending state takes the endpoint from the action's meta | high; not executed | `Fetcher.PendingWithoutPayloadThrows` | `Fetcher.Reducer.ApplyIntended` |

The lifecycle lemma `Fetcher.LifecycleThenBailout` is stated over the
corrected bailout and the corrected reducer. `Fetcher.PendingMetaReachesState`
shows that the corrected reducer stores the descriptor's url as the pending
endpoint when fed the meta the pending producer computes. `UtilAction.StoreNodeBailoutAgrees` shows that the code's
bailout gives the same answer whenever the identifier is lower-case, which is
the case the repository's own usage exercises.

## Left out

- The `CALL_API` marker key and the redux-api-middleware import. The descriptor itself is the modelled result.
- The HTTP transport, and when and with what arguments the middleware calls the bailout and the metadata producers. These are external I/O and dispatch.
- Running a caller-supplied bailout or a caller's `meta` function. A JavaScript function is an opaque `Closure` value, carried as given.
- JavaScript numbers beyond integers (fractions, NaN, -0), arrays as values, and the built-in properties of primitives and functions (a function's `name`, a string's `length`). The model reads these properties as undefined.
- Unicode case mapping. `toUpperCase`/`toLowerCase` are modelled on ASCII letters only.
- Non-string `id` or `url` arguments, which would make `toUpperCase` throw, and a `null` or non-object `options`. Identifiers and urls are strings or omitted, and options are a record or omitted.
- Calling the reducer with no action at all (a destructuring TypeError). The reducer always receives an action record.
- The same-reference guarantee of the pass-through. The model states equality of values.
- The arity (`Function.length`) of the two entry points.
- UtilReducer.FetchFailure: requires a payload that is neither undefined nor null. The TypeError the template literal raises on one is modelled by `Fetcher.Reducer.Apply`, its only caller.
- UtilReducer.FetchPending: requires a payload that is neither undefined nor null. The TypeError that reading `payload.endpoint` raises on one is modelled by `Fetcher.Reducer.Apply`. That includes the payload-less pending action the middleware dispatches (see Findings).
- `String()` of integers of 10^21 or more, which JavaScript writes in exponent form. `Js.Decimal` writes every natural number as plain digits.
