/**
 * The two entry points: `createFetchAction`, which builds the descriptor the
 * HTTP middleware consumes, and `createFetchReducer`, which builds the
 * reducer that folds the three lifecycle actions into resource state.
 */
module Fetcher {
  import opened Js
  import opened Ascii
  import opened UtilAction
  import opened UtilReducer

  /** `!x` for an identifier or url argument: omitted or empty. */
  predicate MissingOrEmpty(s: Option<string>) {
    s.None? || s.value == ""
  }

  /** The options used when the caller passes none at all. */
  const DefaultOptions := FetchOptions(Bool(false), Str("GET"), Str(""), Undefined, Undefined, Undefined)

  /** The options in force for a call: the caller's object, or the defaults when it is omitted. */
  function EffectiveOptions(options: Option<FetchOptions>): FetchOptions {
    if options.Some? then options.value else DefaultOptions
  }

  /**
   * What the `meta` argument is turned into: the caller's function, or a
   * function returning the given object. No type builder receives it.
   */
  datatype MetaFunction = CallerFunction(fn: Value) | Constant(meta: Value)

  function MetaFunctionOf(meta: Value): (f: MetaFunction)
    ensures f.CallerFunction? <==> meta.Closure?
    ensures f.CallerFunction? ==> f.fn == meta
    ensures f.Constant? ==> f.meta == meta
  {
    if meta.Closure? then CallerFunction(meta) else Constant(meta)
  }

  /**
   * `createFetchAction(id, url, options, meta)`: the descriptor placed under
   * the middleware's marker key, or the error thrown for a missing
   * identifier or url. `None` stands for an omitted argument.
   */
  function CreateFetchAction(id: Option<string>, url: Option<string>, options: Option<FetchOptions>, meta: Value)
    : (r: Result<Descriptor>)
    ensures r.Err? <==> MissingOrEmpty(id) || MissingOrEmpty(url)
    ensures r.Err? ==> r.exception == Error("Must provide action identifier and url")
    ensures r.Ok? ==> r.value.endpoint == url.value
    ensures r.Ok? ==> |r.value.types| == 3
    ensures r.Ok? ==> r.value.types[0].actionType == Upper(id.value) + "_FETCH_PENDING"
    ensures r.Ok? ==> r.value.types[1].actionType == Upper(id.value) + "_FETCH_SUCCESS"
    ensures r.Ok? ==> r.value.types[2].actionType == Upper(id.value) + "_FETCH_FAILURE"
    ensures r.Ok? ==> r.value.types[0].meta == PendingMeta(url.value)
    ensures r.Ok? ==> r.value.types[1].meta == SuccessMeta(url.value)
    ensures r.Ok? ==> r.value.types[2].meta == FailureMeta(url.value)
  {
    if MissingOrEmpty(id) || MissingOrEmpty(url) then
      Err(Error("Must provide action identifier and url"))
    else
      var opts := EffectiveOptions(options);
      // Computed as the source computes it, then dropped: the type builders
      // take only the prefix and the url.
      var metaFunction := MetaFunctionOf(meta);
      var actionPrefix := Upper(id.value);
      var bailout := if Truthy(opts.bailout) then Supplied(opts.bailout) else Default(id.value, opts.force);
      var baseAction := Descriptor(
        url.value,
        bailout,
        opts.requestMethod,
        [ CreatePendingType(actionPrefix, url.value),
          CreateSuccessType(actionPrefix, url.value),
          CreateFailureType(actionPrefix, url.value) ],
        None, None, None);
      Ok(Extend(baseAction, opts))
  }

  /** The caller's `meta` argument never reaches the descriptor. */
  lemma MetaHasNoEffect(id: Option<string>, url: Option<string>, options: Option<FetchOptions>, m1: Value, m2: Value)
    ensures CreateFetchAction(id, url, options, m1) == CreateFetchAction(id, url, options, m2)
  {
  }

  /**
   * Without options, the descriptor requests the url with GET and has no
   * body, headers or credentials, and uses the default bailout without force.
   */
  lemma DefaultDescriptor(id: string, url: string, meta: Value)
    requires id != "" && url != ""
    ensures CreateFetchAction(Some(id), Some(url), None, meta).Ok?
    ensures var d := CreateFetchAction(Some(id), Some(url), None, meta).value;
      && d.endpoint == url && d.requestMethod == Str("GET")
      && d.body == None && d.headers == None && d.credentials == None
      && d.bailout == Default(id, Bool(false))
  {
  }

  /**
   * The descriptor's bailout is the caller's when the option is truthy, and
   * otherwise the default one built from the identifier and `force`.
   */
  lemma BailoutChoice(id: string, url: string, options: Option<FetchOptions>, meta: Value)
    requires id != "" && url != ""
    ensures CreateFetchAction(Some(id), Some(url), options, meta).Ok?
    ensures var opts := EffectiveOptions(options);
      CreateFetchAction(Some(id), Some(url), options, meta).value.bailout
        == if Truthy(opts.bailout) then Supplied(opts.bailout) else Default(id, opts.force)
  {
  }

  /**
   * The optional request fields of the descriptor: each is present exactly
   * when the options call for it, and then holds the option's value.
   */
  lemma RequestFields(id: string, url: string, options: Option<FetchOptions>, meta: Value)
    requires id != "" && url != ""
    ensures CreateFetchAction(Some(id), Some(url), options, meta).Ok?
    ensures var opts := EffectiveOptions(options);
      var d := CreateFetchAction(Some(id), Some(url), options, meta).value;
      && d.requestMethod == opts.requestMethod
      && (d.headers.Some? <==> Truthy(opts.headers))
      && (d.headers.Some? ==> d.headers.value == opts.headers)
      && (d.credentials.Some? <==> Truthy(opts.credentials))
      && (d.credentials.Some? ==> d.credentials.value == opts.credentials)
      && (d.body.Some? <==> CarriesBody(opts.requestMethod))
      && (d.body.Some? ==> d.body.value == opts.body)
  {
  }

  /**
   * An options object without `method` leaves the method undefined, and the
   * descriptor then carries a body (undefined too when `body` is also left out).
   */
  lemma PartialOptionsCarryBody(id: string, url: string, opts: FetchOptions, meta: Value)
    requires id != "" && url != "" && opts.requestMethod == Undefined
    ensures CreateFetchAction(Some(id), Some(url), Some(opts), meta).Ok?
    ensures CreateFetchAction(Some(id), Some(url), Some(opts), meta).value.requestMethod == Undefined
    ensures CreateFetchAction(Some(id), Some(url), Some(opts), meta).value.body == Some(opts.body)
  {
  }

  /* ---------------------------------------------------------------------
   * Reducer
   * ------------------------------------------------------------------- */

  /** The fields the reducer destructures from a dispatched action; missing ones are `Undefined`. */
  datatype Action = Action(actionType: Value, payload: Value, meta: Value, error: Value)

  /**
   * The reducer closure, with the prefix it captured. `Apply` is the
   * closure's call: `state` is `Undefined` when the container has none yet.
   */
  datatype Reducer = Reducer(actionPrefix: string)
  {
    /** The stage an action type names for this reducer, if any. */
    function StageOf(t: Value): (k: Option<Kind>)
      ensures k.Some? <==> t.Str? && t.s in {TypeName(actionPrefix, Pending), TypeName(actionPrefix, Success), TypeName(actionPrefix, Failure)}
      ensures k.Some? ==> t == Str(TypeName(actionPrefix, k.value))
    {
      if t == Str(TypeName(actionPrefix, Success)) then Some(Success)
      else if t == Str(TypeName(actionPrefix, Failure)) then Some(Failure)
      else if t == Str(TypeName(actionPrefix, Pending)) then Some(Pending)
      else None
    }

    /**
     * The reducer closure as written. Success, failure and pending are matched
     * in that order; the failure and pending constructors read properties of
     * the payload, which throws when the action has none.
     */
    function Apply(state: Value, action: Action): (r: Result<Value>)
      ensures r.Err? <==> StageOf(action.actionType) in {Some(Failure), Some(Pending)}
                          && !Dereferenceable(action.payload)
      ensures StageOf(action.actionType).None? ==>
        r == Ok(if state == Undefined then Obj(map[]) else state)
      ensures StageOf(action.actionType) == Some(Success) ==>
        r == Ok(FetchSuccess(action.payload).ToValue())
      ensures StageOf(action.actionType) == Some(Failure) && Dereferenceable(action.payload) ==>
        r == Ok(FetchFailure(action.payload).ToValue())
      ensures StageOf(action.actionType) == Some(Pending) && Dereferenceable(action.payload) ==>
        r == Ok(FetchPending(action.payload).ToValue())
    {
      var state := if state == Undefined then Obj(map[]) else state;
      if action.actionType == Str(actionPrefix + "_FETCH_SUCCESS") then
        Ok(FetchSuccess(action.payload).ToValue())
      else if action.actionType == Str(actionPrefix + "_FETCH_FAILURE") then
        if !Dereferenceable(action.payload) then Err(Unreadable(action.payload, "name"))
        else Ok(FetchFailure(action.payload).ToValue())
      else if action.actionType == Str(actionPrefix + "_FETCH_PENDING") then
        if !Dereferenceable(action.payload) then Err(Unreadable(action.payload, "endpoint"))
        else Ok(FetchPending(action.payload).ToValue())
      else
        Ok(state)
    }

    /**
     * The reducer with the pending state built from the action's meta, where
     * the pending metadata producer puts the endpoint. Every other action is
     * handled as `Apply` handles it.
     */
    function ApplyIntended(state: Value, action: Action): (r: Result<Value>)
      ensures StageOf(action.actionType) != Some(Pending) ==> r == Apply(state, action)
      ensures StageOf(action.actionType) == Some(Pending) ==>
        (r.Err? <==> !Dereferenceable(action.meta))
      ensures StageOf(action.actionType) == Some(Pending) && Dereferenceable(action.meta) ==>
        r == Ok(FetchPendingFromMeta(action.meta).ToValue())
    {
      if action.actionType == Str(actionPrefix + "_FETCH_PENDING") then
        if !Dereferenceable(action.meta) then Err(Unreadable(action.meta, "endpoint"))
        else Ok(FetchPendingFromMeta(action.meta).ToValue())
      else
        Apply(state, action)
    }
  }

  /** The TypeError of reading `key` off undefined or null. */
  function Unreadable(v: Value, key: string): Exception {
    TypeError("Cannot read properties of " + (if v.Null? then "null" else "undefined") + " (reading '" + key + "')")
  }

  /**
   * `createFetchReducer(id)`: the reducer for the identifier, or the error
   * thrown for a missing one.
   */
  function CreateFetchReducer(id: Option<string>): (r: Result<Reducer>)
    ensures r.Err? <==> MissingOrEmpty(id)
    ensures r.Err? ==> r.exception == Error("Must provide action identifier for reducer")
    ensures r.Ok? ==> r.value.actionPrefix == Upper(id.value)
  {
    if MissingOrEmpty(id) then
      Err(Error("Must provide action identifier for reducer"))
    else
      Ok(Reducer(Upper(id.value)))
  }

  /**
   * Type matching is exact on the upper-cased prefix: the reducer for `id`
   * reacts to a stage's type string built from another prefix exactly when
   * that prefix is `id` upper-cased.
   */
  lemma ReducerMatchesExactly(id: string, prefix: string, k: Kind)
    requires id != ""
    ensures CreateFetchReducer(Some(id)).Ok?
    ensures CreateFetchReducer(Some(id)).value.StageOf(Str(TypeName(prefix, k))).Some?
        <==> prefix == Upper(id)
  {
  }

  /** Reducers built from identifiers that differ only in case are the same reducer. */
  lemma ReducerIgnoresCase(id: string)
    requires id != ""
    ensures CreateFetchReducer(Some(Lower(id))) == CreateFetchReducer(Some(id))
    ensures CreateFetchReducer(Some(Upper(id))) == CreateFetchReducer(Some(id))
  {
  }

  /**
   * The descriptor and the reducer built from the same identifier agree: its
   * three types are, in order, the pending, success and failure types the
   * reducer reacts to, each leading to that stage's state.
   */
  lemma DescriptorTypesDriveReducer(id: string, url: string, options: Option<FetchOptions>, meta: Value,
                                    state: Value, payload: Value, actionMeta: Value, error: Value)
    requires id != "" && url != "" && Dereferenceable(payload)
    ensures CreateFetchAction(Some(id), Some(url), options, meta).Ok?
    ensures CreateFetchReducer(Some(id)).Ok?
    ensures var types := CreateFetchAction(Some(id), Some(url), options, meta).value.types;
      var reducer := CreateFetchReducer(Some(id)).value;
      && reducer.Apply(state, Action(Str(types[0].actionType), payload, actionMeta, error))
           == Ok(FetchPending(payload).ToValue())
      && reducer.Apply(state, Action(Str(types[1].actionType), payload, actionMeta, error))
           == Ok(FetchSuccess(payload).ToValue())
      && reducer.Apply(state, Action(Str(types[2].actionType), payload, actionMeta, error))
           == Ok(FetchFailure(payload).ToValue())
  {
  }

  /**
   * The pending action the repository's test dispatches carries the endpoint
   * in its meta and no payload; the reducer as written throws on it.
   */
  lemma PendingWithoutPayloadThrows()
    ensures CreateFetchReducer(Some("data")).Ok?
    ensures CreateFetchReducer(Some("data")).value.Apply(
              Obj(map[]),
              Action(Str("DATA_FETCH_PENDING"), Undefined,
                     Obj(map["endpoint" := Str("http://localhost/awesomeendpoint")]), Undefined)).Err?
  {
    assert Upper("data") == "DATA";
    assert TypeName("DATA", Pending) == "DATA_FETCH_PENDING";
    PendingWithoutPayloadThrowsFor("DATA", Obj(map[]),
      Obj(map["endpoint" := Str("http://localhost/awesomeendpoint")]), Undefined);
  }

  /** A pending action of any reducer throws as written when it carries no payload. */
  lemma PendingWithoutPayloadThrowsFor(prefix: string, state: Value, meta: Value, error: Value)
    ensures Reducer(prefix).Apply(state, Action(Str(TypeName(prefix, Pending)), Undefined, meta, error)).Err?
  {
    TypeNameInjective(prefix, Pending, prefix, Success);
    TypeNameInjective(prefix, Pending, prefix, Failure);
    assert Reducer(prefix).StageOf(Str(TypeName(prefix, Pending))) == Some(Pending);
  }

  /**
   * The pending action as the descriptor produces it, its meta computed by
   * the pending producer and no payload: the corrected reducer records the
   * descriptor's url as the endpoint and is loading, while the reducer as
   * written throws.
   */
  lemma PendingMetaReachesState(id: string, url: string, options: Option<FetchOptions>, meta: Value,
                                state: Value, action: Value, storeState: Value, res: Value)
    requires id != "" && url != ""
    ensures CreateFetchAction(Some(id), Some(url), options, meta).Ok?
    ensures CreateFetchReducer(Some(id)).Ok?
    ensures var pending := CreateFetchAction(Some(id), Some(url), options, meta).value.types[0];
      var produced := ComputeMeta(pending.meta, action, storeState, res);
      var reducer := CreateFetchReducer(Some(id)).value;
      var dispatched := Action(Str(pending.actionType), Undefined, produced.value, Undefined);
      && produced.Ok?
      && reducer.Apply(state, dispatched).Err?
      && reducer.ApplyIntended(state, dispatched).Ok?
      && reducer.ApplyIntended(state, dispatched).value.fields["endpoint"] == Str(url)
      && reducer.ApplyIntended(state, dispatched).value.fields["loading"] == Bool(true)
  {
  }

  /**
   * The lifecycle seen by the bailout, with the resource state the corrected
   * reducer produces stored under the store node: once pending, every
   * request is skipped; once succeeded, requests are skipped when the
   * payload is truthy unless forced; once failed, requests go through.
   */
  lemma LifecycleThenBailout(id: string, force: Value, store: map<string, Value>, reducer: Reducer,
                             state: Value, payload: Value, actionMeta: Value, error: Value)
    ensures var a := Action(Str(TypeName(reducer.actionPrefix, Pending)), payload, actionMeta, error);
      var r := reducer.ApplyIntended(state, a);
      r.Ok? ==> Truthy(StoreNodeBailout(id, force, store[Lower(id) := r.value]))
    ensures var a := Action(Str(TypeName(reducer.actionPrefix, Success)), payload, actionMeta, error);
      var r := reducer.ApplyIntended(state, a);
      && r.Ok?
      && (Truthy(StoreNodeBailout(id, force, store[Lower(id) := r.value])) <==> Truthy(payload) && !Truthy(force))
    ensures var a := Action(Str(TypeName(reducer.actionPrefix, Failure)), payload, actionMeta, error);
      var r := reducer.ApplyIntended(state, a);
      r.Ok? ==> !Truthy(StoreNodeBailout(id, force, store[Lower(id) := r.value]))
  {
    PendingThenBailout(id, force, store, reducer, state, payload, actionMeta, error);
    SuccessThenBailout(id, force, store, reducer, state, payload, actionMeta, error);
    FailureThenBailout(id, force, store, reducer, state, payload, actionMeta, error);
  }

  lemma PendingThenBailout(id: string, force: Value, store: map<string, Value>, reducer: Reducer,
                           state: Value, payload: Value, actionMeta: Value, error: Value)
    ensures var a := Action(Str(TypeName(reducer.actionPrefix, Pending)), payload, actionMeta, error);
      var r := reducer.ApplyIntended(state, a);
      r.Ok? ==> Truthy(StoreNodeBailout(id, force, store[Lower(id) := r.value]))
  {
    var a := Action(Str(TypeName(reducer.actionPrefix, Pending)), payload, actionMeta, error);
    assert reducer.StageOf(a.actionType) == Some(Pending);
    var r := reducer.ApplyIntended(state, a);
    if r.Ok? {
      var v := FetchPendingFromMeta(actionMeta).ToValue();
      assert r.value == v;
      assert Lookup(store[Lower(id) := v], Lower(id)) == v;
      assert Prop(v, "loading") == Bool(true);
    }
  }

  lemma SuccessThenBailout(id: string, force: Value, store: map<string, Value>, reducer: Reducer,
                           state: Value, payload: Value, actionMeta: Value, error: Value)
    ensures var a := Action(Str(TypeName(reducer.actionPrefix, Success)), payload, actionMeta, error);
      var r := reducer.ApplyIntended(state, a);
      && r.Ok?
      && (Truthy(StoreNodeBailout(id, force, store[Lower(id) := r.value])) <==> Truthy(payload) && !Truthy(force))
  {
    var p := reducer.actionPrefix;
    TypeNameInjective(p, Pending, p, Success);
    var a := Action(Str(TypeName(p, Success)), payload, actionMeta, error);
    assert reducer.StageOf(a.actionType) == Some(Success);
    var v := FetchSuccess(payload).ToValue();
    assert reducer.ApplyIntended(state, a) == reducer.Apply(state, a) == Ok(v);
    assert Lookup(store[Lower(id) := v], Lower(id)) == v;
    assert Prop(v, "loading") == Bool(false) && Prop(v, "payload") == payload;
  }

  lemma FailureThenBailout(id: string, force: Value, store: map<string, Value>, reducer: Reducer,
                           state: Value, payload: Value, actionMeta: Value, error: Value)
    ensures var a := Action(Str(TypeName(reducer.actionPrefix, Failure)), payload, actionMeta, error);
      var r := reducer.ApplyIntended(state, a);
      r.Ok? ==> !Truthy(StoreNodeBailout(id, force, store[Lower(id) := r.value]))
  {
    var p := reducer.actionPrefix;
    TypeNameInjective(p, Pending, p, Failure);
    TypeNameInjective(p, Success, p, Failure);
    var a := Action(Str(TypeName(p, Failure)), payload, actionMeta, error);
    assert reducer.StageOf(a.actionType) == Some(Failure);
    var r := reducer.ApplyIntended(state, a);
    if r.Ok? {
      var w := FetchFailure(payload).ToValue();
      assert r.value == w;
      assert Lookup(store[Lower(id) := w], Lower(id)) == w;
      assert Prop(w, "loading") == Bool(false) && Prop(w, "payload") == Undefined;
    }
  }
}
