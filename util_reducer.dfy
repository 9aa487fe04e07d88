/**
 * The per-resource states the reducer produces, one constructor per
 * lifecycle stage. Each reads only the payload of the dispatched action.
 */
module UtilReducer {
  import opened Js

  /** The `error` field: `false`, or a "name: message" string after a failure. */
  datatype ErrorField = NoError | Message(text: string)

  /**
   * A resource state object. `payload` and `endpoint` are `None` when the
   * object lacks the key.
   */
  datatype ResourceState = ResourceState(
    loading: bool,
    error: ErrorField,
    payload: Option<Value>,
    endpoint: Option<Value>)
  {
    /** The plain object the state container stores. */
    function ToValue(): (v: Value)
      ensures v.Obj?
      ensures v.fields.Keys == {"loading", "error"}
                               + (if payload.Some? then {"payload"} else {})
                               + (if endpoint.Some? then {"endpoint"} else {})
      ensures v.fields["loading"] == Bool(loading)
      ensures v.fields["error"] == if error.Message? then Str(error.text) else Bool(false)
      ensures Truthy(v.fields["error"]) <==> error.Message? && error.text != ""
      ensures payload.Some? ==> v.fields["payload"] == payload.value
      ensures endpoint.Some? ==> v.fields["endpoint"] == endpoint.value
    {
      var base := map[
        "loading" := Bool(loading),
        "error" := match error { case NoError => Bool(false) case Message(t) => Str(t) }];
      var withPayload := if payload.Some? then base["payload" := payload.value] else base;
      Obj(if endpoint.Some? then withPayload["endpoint" := endpoint.value] else withPayload)
    }
  }

  /** A settled, successful fetch exposes its payload. */
  function FetchSuccess(payload: Value): (r: ResourceState)
    ensures !r.loading && r.error == NoError
    ensures r.payload == Some(payload) && r.endpoint == None
  {
    ResourceState(false, NoError, Some(payload), None)
  }

  /** `${name}: ${message}` of an error payload. */
  function ErrorText(payload: Value): (t: string)
    requires Dereferenceable(payload)
    ensures |t| >= 2
    ensures t == ToString(Prop(payload, "name")) + ": " + ToString(Prop(payload, "message"))
  {
    ToString(Prop(payload, "name")) + ": " + ToString(Prop(payload, "message"))
  }

  /** A failed fetch stops loading and records the error's name and message; it keeps no payload. */
  function FetchFailure(payload: Value): (r: ResourceState)
    requires Dereferenceable(payload)
    ensures !r.loading && r.error.Message? && r.error.text != ""
    ensures r.error == Message(ToString(Prop(payload, "name")) + ": " + ToString(Prop(payload, "message")))
    ensures r.payload == None && r.endpoint == None
  {
    ResourceState(false, Message(ErrorText(payload)), None, None)
  }

  /** A pending fetch is loading and exposes the endpoint it is fetching. */
  function FetchPending(payload: Value): (r: ResourceState)
    requires Dereferenceable(payload)
    ensures r.loading && r.error == NoError
    ensures r.endpoint == Some(Prop(payload, "endpoint")) && r.payload == None
  {
    ResourceState(true, NoError, None, Some(Prop(payload, "endpoint")))
  }

  /**
   * The pending state with the endpoint read from the action's meta, where
   * the pending metadata producer puts it, instead of from its payload.
   */
  function FetchPendingFromMeta(meta: Value): (r: ResourceState)
    requires Dereferenceable(meta)
    ensures r.loading && r.error == NoError
    ensures r.endpoint == Some(Prop(meta, "endpoint")) && r.payload == None
  {
    ResourceState(true, NoError, None, Some(Prop(meta, "endpoint")))
  }

  /**
   * The error text splits back into the name and the message when the name
   * is a string holding no ':'.
   */
  lemma ErrorTextSplits(payload: Value, i: nat)
    requires Dereferenceable(payload) && payload.Obj?
    requires "name" in payload.fields && payload.fields["name"].Str?
    requires forall k | 0 <= k < |payload.fields["name"].s| :: payload.fields["name"].s[k] != ':'
    requires i == |payload.fields["name"].s|
    ensures i + 2 <= |ErrorText(payload)|
    ensures ErrorText(payload)[..i] == payload.fields["name"].s
    ensures ErrorText(payload)[i..i + 2] == ": "
    ensures ErrorText(payload)[i + 2..] == ToString(Prop(payload, "message"))
    ensures forall k | 0 <= k < i :: ErrorText(payload)[k] != ':'
  {
  }

  /** Of the three states, only the pending one is loading. */
  lemma LoadingOnlyWhilePending(payload: Value)
    requires Dereferenceable(payload)
    ensures FetchPending(payload).ToValue().fields["loading"] == Bool(true)
    ensures FetchSuccess(payload).ToValue().fields["loading"] == Bool(false)
    ensures FetchFailure(payload).ToValue().fields["loading"] == Bool(false)
  {
  }

  /** Of the three states, only the failed one has a truthy `error`. */
  lemma ErrorOnlyOnFailure(payload: Value)
    requires Dereferenceable(payload)
    ensures !Truthy(FetchPending(payload).ToValue().fields["error"])
    ensures !Truthy(FetchSuccess(payload).ToValue().fields["error"])
    ensures Truthy(FetchFailure(payload).ToValue().fields["error"])
  {
  }
}
