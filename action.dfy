/** The request builder: a `FetchAction` names the action family (its prefix), the
    route and fetch options of one request, the statuses it accepts, and up to four
    hooks that may veto the notifications the middleware would dispatch for it. */
module Action {
  import opened Values
  import opened Exchange

  /** Hooks are opaque callbacks; the model keeps what decides the middleware's
      behaviour, the truthiness of what each returns for the arguments it gets. */
  type RequestHook = () -> bool
  type SuccessHook = Value -> bool
  type FailureHook = FetchError -> bool
  type FinishHook = () -> bool

  /** Everything the middleware reads from a `FetchAction`. */
  datatype ActionState = ActionState(
    prefix: string,
    route: string,
    opts: map<string, Value>,
    expected: Option<seq<Value>>,
    onRequest: Option<RequestHook>,
    onSuccess: Option<SuccessHook>,
    onFailure: Option<FailureHook>,
    onFinish: Option<FinishHook>)

  /** No status list and no hook is set. */
  predicate Unconfigured(a: ActionState) {
    a.expected.None? && a.onRequest.None? && a.onSuccess.None? && a.onFailure.None? && a.onFinish.None?
  }

  const PrefixRequired := "prefix is required"

  /** The state `new FetchAction(prefix, route, opts)` builds, or the error it throws. */
  function InitialState(prefix: Option<string>, route: Option<string>, opts: Option<map<string, Value>>)
    : (r: Result<ActionState, string>)
    ensures r.Err? <==> !Given(prefix)
    ensures r.Err? ==> r.error == PrefixRequired
    ensures r.Ok? ==> r.value.prefix == prefix.value && r.value.prefix != ""
    ensures r.Ok? ==> r.value.route != "" && (Given(route) ==> r.value.route == route.value)
    ensures r.Ok? ==> (!Given(route) ==> r.value.route == "/")
    ensures r.Ok? ==> (opts.Some? ==> r.value.opts == opts.value) && (opts.None? ==> r.value.opts == map[])
    ensures r.Ok? ==> Unconfigured(r.value)
  {
    if !Given(prefix) then Err(PrefixRequired)
    else
      var o := if opts.Some? then opts.value else map[];
      Ok(ActionState(prefix.value, OrElse(route, "/"), o, None, None, None, None, None))
  }

  /** The list `expect(values)` stores: an array as it is, any other value wrapped
      in a one-element list. */
  function ExpectList(values: Value): (r: seq<Value>)
  {
    if values.Arr? then values.items else [values]
  }

  /** Storing the list back through `expect` changes nothing. */
  lemma ExpectListIdempotent(values: Value)
    ensures ExpectList(Arr(ExpectList(values))) == ExpectList(values)
  {
  }

  /** A non-array value becomes the only acceptable entry. */
  lemma ExpectScalar(values: Value, x: Value)
    requires !values.Arr?
    ensures x in ExpectList(values) <==> x == values
    ensures |ExpectList(values)| == 1
  {
  }

  class FetchAction {
    var prefix: string
    var route: string
    var opts: map<string, Value>
    var expected: Option<seq<Value>>
    var onRequest: Option<RequestHook>
    var onSuccess: Option<SuccessHook>
    var onFailure: Option<FailureHook>
    var onFinish: Option<FinishHook>

    function State(): ActionState
      reads this
    {
      ActionState(prefix, route, opts, expected, onRequest, onSuccess, onFailure, onFinish)
    }

    /** The part of the constructor that runs once the prefix has been checked;
        `Create` is the constructor with its check. */
    constructor (prefix: string, route: Option<string>, opts: Option<map<string, Value>>)
      requires prefix != ""
      ensures InitialState(Some(prefix), route, opts).Ok?
      ensures State() == InitialState(Some(prefix), route, opts).value
    {
      this.prefix := prefix;
      this.route := OrElse(route, "/");
      this.opts := if opts.Some? then opts.value else map[];
      this.expected := None;
      this.onRequest := None;
      this.onSuccess := None;
      this.onFailure := None;
      this.onFinish := None;
    }

    /** `new FetchAction(prefix, route, opts)`: throws "prefix is required" for a
        falsy prefix, otherwise a fresh action in its initial state. */
    static method Create(prefix: Option<string>, route: Option<string>, opts: Option<map<string, Value>>)
      returns (r: Result<FetchAction, string>)
      ensures r.Err? <==> !Given(prefix)
      ensures r.Err? ==> r.error == PrefixRequired
      ensures r.Ok? ==> fresh(r.value)
      ensures r.Ok? ==> r.value.State() == InitialState(prefix, route, opts).value
    {
      if !Given(prefix) {
        return Err(PrefixRequired);
      }
      var a := new FetchAction(prefix.value, route, opts);
      return Ok(a);
    }

    method Route(route: string) returns (self: FetchAction)
      modifies this
      ensures self == this
      ensures State() == old(State()).(route := route)
    {
      this.route := route;
      return this;
    }

    /** Sets one fetch option; every other option keeps its value. */
    method SetOpt(key: string, value: Value) returns (self: FetchAction)
      modifies this
      ensures self == this
      ensures State() == old(State()).(opts := old(opts)[key := value])
      ensures opts.Keys == old(opts).Keys + {key} && opts[key] == value
      ensures forall k :: k in old(opts) && k != key ==> opts[k] == old(opts)[k]
    {
      opts := opts[key := value];
      return this;
    }

    /** Stores the acceptable statuses; a single value becomes a one-element list. */
    method Expect(values: Value) returns (self: FetchAction)
      modifies this
      ensures self == this
      ensures State() == old(State()).(expected := Some(ExpectList(values)))
      ensures values.Arr? ==> expected == Some(values.items)
      ensures !values.Arr? ==> expected == Some([values])
    {
      var list := values;
      if !list.Arr? {
        list := Arr([list]);
      }
      expected := Some(list.items);
      return this;
    }

    method OnRequest(f: Option<RequestHook>) returns (self: FetchAction)
      modifies this
      ensures self == this
      ensures State() == old(State()).(onRequest := f)
    {
      onRequest := f;
      return this;
    }

    method OnSuccess(f: Option<SuccessHook>) returns (self: FetchAction)
      modifies this
      ensures self == this
      ensures State() == old(State()).(onSuccess := f)
    {
      onSuccess := f;
      return this;
    }

    method OnFailure(f: Option<FailureHook>) returns (self: FetchAction)
      modifies this
      ensures self == this
      ensures State() == old(State()).(onFailure := f)
    {
      onFailure := f;
      return this;
    }

    method OnFinish(f: Option<FinishHook>) returns (self: FetchAction)
      modifies this
      ensures self == this
      ensures State() == old(State()).(onFinish := f)
    {
      onFinish := f;
      return this;
    }
  }
}
