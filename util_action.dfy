/**
 * Helpers that build the pieces of the middleware call descriptor:
 * the default bailout predicate, the three lifecycle type entries with
 * their metadata producers, and the optional request fields.
 */
module UtilAction {
  import opened Js
  import opened Ascii

  /* ---------------------------------------------------------------------
   * Default bailout
   * ------------------------------------------------------------------- */

  /**
   * The bailout the descriptor carries: the caller's own value (a function,
   * which the model does not run) or the default one, closed over the
   * identifier and the `force` option.
   */
  datatype Bailout = Supplied(fn: Value) | Default(id: string, force: Value)

  /**
   * The default bailout applied to the store, as written: it tests the entry
   * under `id` but reads `payload` from the entry under `id` lower-cased,
   * which throws when that entry is undefined or null. The result is the
   * value of `entry.loading || cached`, which is `entry.loading` itself
   * whenever that is truthy.
   */
  function DefaultBailout(id: string, force: Value, state: map<string, Value>): (r: Result<Value>)
    ensures !Truthy(Lookup(state, id)) ==> r == Ok(Bool(false))
    ensures r.Err? <==> Truthy(Lookup(state, id)) && !Dereferenceable(Lookup(state, Lower(id)))
  {
    var entry := Lookup(state, id);
    if Truthy(entry) then
      var node := Lookup(state, Lower(id));
      if !Dereferenceable(node) then
        Err(TypeError("Cannot read properties of " + (if node.Null? then "null" else "undefined") + " (reading 'payload')"))
      else
        var cached := Truthy(Prop(node, "payload")) && !Truthy(force);
        var loading := Prop(entry, "loading");
        Ok(if Truthy(loading) then loading else Bool(cached))
    else
      Ok(Bool(false))
  }

  /**
   * The deduplication policy the default bailout implements: skip the fetch
   * when the resource's entry exists and it is loading, or it already holds a
   * payload and no forced refresh was asked for.
   */
  predicate ShouldBail(entry: Value, force: Value) {
    && Truthy(entry)
    && (Truthy(Prop(entry, "loading")) || (Truthy(Prop(entry, "payload")) && !Truthy(force)))
  }

  /** For a lower-case identifier the default bailout never throws and follows the policy. */
  lemma DefaultBailoutPolicy(id: string, force: Value, state: map<string, Value>)
    requires IsLowerCase(id)
    ensures DefaultBailout(id, force, state).Ok?
    ensures Truthy(DefaultBailout(id, force, state).value) <==> ShouldBail(Lookup(state, id), force)
  {
    LowerFixedPoint(id);
  }

  /** An entry that is loading makes the bailout answer yes, whatever `force` says. */
  lemma LoadingAlwaysBails(id: string, force: Value, state: map<string, Value>)
    requires IsLowerCase(id)
    requires Truthy(Lookup(state, id)) && Truthy(Prop(Lookup(state, id), "loading"))
    ensures DefaultBailout(id, force, state) == Ok(Prop(Lookup(state, id), "loading"))
  {
    LowerFixedPoint(id);
  }

  /** Without `force`, a cached payload makes the bailout answer yes. */
  lemma CachedPayloadBails(id: string, force: Value, state: map<string, Value>)
    requires IsLowerCase(id) && !Truthy(force)
    requires Truthy(Lookup(state, id)) && Truthy(Prop(Lookup(state, id), "payload"))
    ensures DefaultBailout(id, force, state).Ok?
    ensures Truthy(DefaultBailout(id, force, state).value)
  {
    LowerFixedPoint(id);
  }

  /**
   * With `force`, only `loading` matters: an entry that is not loading never
   * bails, whatever payload it holds.
   */
  lemma ForcedBailsOnlyWhenLoading(id: string, force: Value, state: map<string, Value>)
    requires IsLowerCase(id) && Truthy(force)
    ensures DefaultBailout(id, force, state).Ok?
    ensures Truthy(DefaultBailout(id, force, state).value)
        <==> Truthy(Lookup(state, id)) && Truthy(Prop(Lookup(state, id), "loading"))
  {
    LowerFixedPoint(id);
  }

  /** When `loading` is a boolean or missing, the answer is exactly `true` or `false`. */
  lemma DefaultBailoutIsBoolean(id: string, force: Value, state: map<string, Value>)
    requires IsLowerCase(id)
    requires Truthy(Lookup(state, id)) ==>
      (Prop(Lookup(state, id), "loading").Bool? || Prop(Lookup(state, id), "loading").Undefined?)
    ensures DefaultBailout(id, force, state) == Ok(Bool(ShouldBail(Lookup(state, id), force)))
  {
    LowerFixedPoint(id);
  }

  /**
   * The two keys disagree for an identifier with an upper-case letter: the
   * entry "Data" passes the first test, and reading the payload of the
   * missing entry "data" throws.
   */
  lemma MixedCaseIdThrows()
    ensures DefaultBailout("Data", Bool(false), map["Data" := Obj(map["loading" := Bool(false)])]).Err?
  {
  }

  /**
   * The bailout with a single store key: both the existence test and the
   * reads go to `id.toLowerCase()`, the key the payload read already uses.
   */
  function StoreNodeBailout(id: string, force: Value, state: map<string, Value>): (r: Value)
    ensures Truthy(r) <==> ShouldBail(Lookup(state, Lower(id)), force)
  {
    var entry := Lookup(state, Lower(id));
    if Truthy(entry) then
      var cached := Truthy(Prop(entry, "payload")) && !Truthy(force);
      var loading := Prop(entry, "loading");
      if Truthy(loading) then loading else Bool(cached)
    else
      Bool(false)
  }

  /** On lower-case identifiers the written bailout and the corrected one agree. */
  lemma StoreNodeBailoutAgrees(id: string, force: Value, state: map<string, Value>)
    requires IsLowerCase(id)
    ensures DefaultBailout(id, force, state) == Ok(StoreNodeBailout(id, force, state))
  {
    LowerFixedPoint(id);
  }

  /** The corrected bailout reads the same slice however the identifier is cased. */
  lemma StoreNodeBailoutIgnoresCase(id: string, force: Value, state: map<string, Value>)
    ensures StoreNodeBailout(id, force, state) == StoreNodeBailout(Lower(id), force, state)
  {
    LowerIdempotent(id);
  }

  /* ---------------------------------------------------------------------
   * Lifecycle types
   * ------------------------------------------------------------------- */

  /** The three stages of one request. */
  datatype Kind = Pending | Success | Failure

  function Suffix(k: Kind): (s: string)
    ensures |s| == 14 && s[..7] == "_FETCH_"
  {
    match k
    case Pending => "_FETCH_PENDING"
    case Success => "_FETCH_SUCCESS"
    case Failure => "_FETCH_FAILURE"
  }

  /** The action type string of a stage: `prefix + '_FETCH_' + STAGE`. */
  function TypeName(prefix: string, k: Kind): (t: string)
    ensures |t| == |prefix| + 14
    ensures t[..|prefix|] == prefix && t[|prefix|..] == Suffix(k)
  {
    prefix + Suffix(k)
  }

  /**
   * A type string determines both its prefix and its stage: two prefixes or
   * two stages never produce the same string.
   */
  lemma TypeNameInjective(p: string, k: Kind, q: string, j: Kind)
    ensures TypeName(p, k) == TypeName(q, j) <==> p == q && k == j
  {
  }

  /**
   * The metadata producer attached to a type, with the context it closes
   * over. Each takes `(action, state, response)`.
   */
  datatype MetaFn =
    | PendingMeta(url: string)
    | SuccessMeta(url: string)
    | FailureMeta(url: string)

  /** One entry of the descriptor's `types` array. */
  datatype LifecycleType = LifecycleType(actionType: string, meta: MetaFn)

  /** The success entry: its type string and the producer closed over the url. */
  function CreateSuccessType(prefix: string, url: string): (t: LifecycleType)
    ensures t.actionType == prefix + "_FETCH_SUCCESS"
    ensures t.meta.SuccessMeta? && t.meta.url == url
  {
    LifecycleType(TypeName(prefix, Success), SuccessMeta(url))
  }

  /** The pending entry: its type string and the producer closed over the url. */
  function CreatePendingType(prefix: string, url: string): (t: LifecycleType)
    ensures t.actionType == prefix + "_FETCH_PENDING"
    ensures t.meta.PendingMeta? && t.meta.url == url
  {
    LifecycleType(TypeName(prefix, Pending), PendingMeta(url))
  }

  /** The failure entry: its type string and the producer closed over the url. */
  function CreateFailureType(prefix: string, url: string): (t: LifecycleType)
    ensures t.actionType == prefix + "_FETCH_FAILURE"
    ensures t.meta.FailureMeta? && t.meta.url == url
  {
    LifecycleType(TypeName(prefix, Failure), FailureMeta(url))
  }

  /** `{status: res.status, type: res.type}` for a readable response. */
  function ResponseInfo(res: Value): (r: Value)
    requires Dereferenceable(res)
  {
    Obj(map["status" := Prop(res, "status"), "type" := Prop(res, "type")])
  }

  /**
   * Runs a metadata producer. The success producer reads the response
   * unconditionally and throws without one; the failure producer adds the
   * response only when there is one.
   */
  function ComputeMeta(m: MetaFn, action: Value, state: Value, res: Value): (r: Result<Value>)
    ensures r.Ok? ==> r.value.Obj? && "endpoint" in r.value.fields && r.value.fields["endpoint"] == Str(m.url)
  {
    match m
    case PendingMeta(url) =>
      Ok(Obj(map["endpoint" := Str(url)]))
    case SuccessMeta(url) =>
      if !Dereferenceable(res) then
        Err(TypeError("Cannot read properties of " + (if res.Null? then "null" else "undefined") + " (reading 'status')"))
      else
        Ok(Obj(map["endpoint" := Str(url), "response" := ResponseInfo(res)]))
    case FailureMeta(url) =>
      if Truthy(res) then
        Ok(Obj(map["endpoint" := Str(url), "response" := ResponseInfo(res)]))
      else
        Ok(Obj(map["endpoint" := Str(url)]))
  }

  /** The pending producer yields `{endpoint: url}` and nothing else, whatever it is given. */
  lemma PendingMetaIsEndpointOnly(url: string, action: Value, state: Value, res: Value)
    ensures ComputeMeta(PendingMeta(url), action, state, res).Ok?
    ensures ComputeMeta(PendingMeta(url), action, state, res).value.fields.Keys == {"endpoint"}
    ensures ComputeMeta(PendingMeta(url), action, state, res)
         == ComputeMeta(PendingMeta(url), Undefined, Undefined, Undefined)
  {
  }

  /**
   * The success producer succeeds exactly when the response is readable and
   * then reports the endpoint and the response's status and type.
   */
  lemma SuccessMetaShape(url: string, action: Value, state: Value, res: Value)
    ensures ComputeMeta(SuccessMeta(url), action, state, res).Ok? <==> Dereferenceable(res)
    ensures Dereferenceable(res) ==>
      var fields := ComputeMeta(SuccessMeta(url), action, state, res).value.fields;
      && fields.Keys == {"endpoint", "response"}
      && fields["response"].Obj?
      && fields["response"].fields.Keys == {"status", "type"}
      && fields["response"].fields["status"] == Prop(res, "status")
      && fields["response"].fields["type"] == Prop(res, "type")
  {
  }

  /**
   * The failure producer never throws: with a response it has the success
   * shape, without one it is `{endpoint: url}` with no `response` key.
   */
  lemma FailureMetaShape(url: string, action: Value, state: Value, res: Value)
    ensures ComputeMeta(FailureMeta(url), action, state, res).Ok?
    ensures Truthy(res) ==>
      ComputeMeta(FailureMeta(url), action, state, res) == ComputeMeta(SuccessMeta(url), action, state, res)
    ensures !Truthy(res) ==>
      ComputeMeta(FailureMeta(url), action, state, res).value.fields.Keys == {"endpoint"}
  {
  }

  /* ---------------------------------------------------------------------
   * Request fields
   * ------------------------------------------------------------------- */

  /**
   * The options object after defaulting. Every key is a JavaScript value;
   * a key the caller left out is `Undefined`.
   */
  datatype FetchOptions = FetchOptions(
    force: Value,
    requestMethod: Value,
    body: Value,
    headers: Value,
    credentials: Value,
    bailout: Value)

  /**
   * The object placed under the middleware's marker key. A key that the
   * object lacks is `None`; a key present with value undefined is
   * `Some(Undefined)`.
   */
  datatype Descriptor = Descriptor(
    endpoint: string,
    bailout: Bailout,
    requestMethod: Value,
    types: seq<LifecycleType>,
    headers: Option<Value>,
    credentials: Option<Value>,
    body: Option<Value>)

  /** The method rule: a body goes with every method except GET and HEAD (strict comparison). */
  predicate CarriesBody(m: Value) {
    m != Str("GET") && m != Str("HEAD")
  }

  /**
   * The descriptor with the optional request fields added: every field of
   * the input is kept, `headers` and `credentials` are copied verbatim when
   * the option is truthy, and `body` is copied when the method carries one.
   */
  function Extend(action: Descriptor, options: FetchOptions): (r: Descriptor)
    ensures r.endpoint == action.endpoint && r.bailout == action.bailout
    ensures r.requestMethod == action.requestMethod && r.types == action.types
    ensures r.headers == if Truthy(options.headers) then Some(options.headers) else action.headers
    ensures r.credentials == if Truthy(options.credentials) then Some(options.credentials) else action.credentials
    ensures r.body == if CarriesBody(options.requestMethod) then Some(options.body) else action.body
  {
    action.(
      headers := if Truthy(options.headers) then Some(options.headers) else action.headers,
      credentials := if Truthy(options.credentials) then Some(options.credentials) else action.credentials,
      body := if CarriesBody(options.requestMethod) then Some(options.body) else action.body)
  }

  /**
   * `extendAction` step by step: a copy of the input that then receives each
   * optional field in turn. The input is a value and stays as it was.
   */
  method ExtendAction(action: Descriptor, options: FetchOptions) returns (newAction: Descriptor)
    ensures newAction == Extend(action, options)
  {
    newAction := action;
    if Truthy(options.headers) {
      newAction := newAction.(headers := Some(options.headers));
    }
    if Truthy(options.credentials) {
      newAction := newAction.(credentials := Some(options.credentials));
    }
    if CarriesBody(options.requestMethod) {
      newAction := newAction.(body := Some(options.body));
    }
  }
}
