/** `fetchMiddleware`: a Redux-style middleware that passes foreign inputs on to the
    next middleware and turns each `FetchAction` into one transport call framed by
    up to three dispatched notifications: REQUEST, then exactly one of SUCCESS or
    FAILURE, then FINISH.

    The store, the transport and the next middleware are the middleware's
    surroundings. `World` supplies what the transport and the next middleware give
    back; `Host` records, in order, every call the middleware makes to them. The
    promise chain is modelled as straight-line steps. */
module Middleware {
  import opened Values
  import opened Exchange
  import opened Action
  import opened Configuration

  /** A dispatched action. */
  datatype Notification =
    | RequestNote(fields: map<string, Value>)
    | SuccessNote(actionType: string, body: Value)
    | FailureNote(actionType: string, error: FetchError)
    | FinishNote(actionType: string)

  datatype Kind = RequestKind | SuccessKind | FailureKind | FinishKind

  function KindOf(n: Notification): Kind {
    match n
    case RequestNote(_) => RequestKind
    case SuccessNote(_, _) => SuccessKind
    case FailureNote(_, _) => FailureKind
    case FinishNote(_) => FinishKind
  }

  /** One call the middleware makes to its surroundings. */
  datatype Event =
    | Dispatched(note: Notification)
    | Fetched(transport: Transport, url: string, opts: map<string, Value>)
    | Forwarded(input: Value)

  /** An input as the middleware reads it: a `FetchAction`'s state, or anything else. */
  datatype Input = FetchInput(action: ActionState) | Foreign(value: Value)

  /** What the surroundings answer: the result of `next(action)`, and what the
      transport resolves to or rejects with. */
  datatype World = World(next: Value, transport: Result<Response, Thrown>)

  /** How one call of the middleware ends: the next middleware's result passed
      back, the settled `{result, body}`, or a rethrown exception. */
  datatype Outcome =
    | Passed(result: Value)
    | Settled(response: Response, body: Value)
    | Rejected(error: Thrown)

  datatype Trace = Trace(events: seq<Event>, outcome: Outcome)

  /** `action._onX || opts.onX`: the action's own hook, else the configuration's. */
  function Pick<H>(own: Option<H>, fallback: Option<H>): Option<H> {
    if own.Some? then own else fallback
  }

  /** A hook lets its notification through when it is absent or returns truthy. */
  predicate Permits(h: Option<() -> bool>) {
    h.None? || h.value()
  }

  predicate PermitsBody(h: Option<SuccessHook>, body: Value) {
    h.None? || h.value(body)
  }

  predicate PermitsError(h: Option<FailureHook>, e: FetchError) {
    h.None? || h.value(e)
  }

  const JsonType := "application/json"
  const TextType := "text/"

  datatype Decoder = JsonDecoder | TextDecoder | NoDecoder

  /** The decoder the `Content-Type` header selects. The patterns are anchored at the
      start and case-sensitive; a missing header matches neither. */
  function ChooseDecoder(contentType: Option<string>): Decoder {
    if contentType.Some? && JsonType <= contentType.value then JsonDecoder
    else if contentType.Some? && TextType <= contentType.value then TextDecoder
    else NoDecoder
  }

  /** The body the middleware reads from a response, or the decoder's exception. */
  function DecodeBody(res: Response): Result<Value, Thrown> {
    match ChooseDecoder(res.contentType)
    case JsonDecoder => res.json
    case TextDecoder => (match res.text case Ok(s) => Ok(Str(s)) case Err(e) => Err(e))
    case NoDecoder => Ok(Undefined)
  }

  /** Whether a response takes the success branch: with a status list, the status
      must be in it; without one, the transport's `ok` flag decides. */
  predicate Accepted(expected: Option<seq<Value>>, res: Response) {
    if expected.Some? then Num(res.status) in expected.value else res.ok
  }

  /** The REQUEST action: its type and route, then the fetch options spread over them. */
  function RequestFields(a: ActionState, suffixes: SuffixNames): map<string, Value> {
    map["type" := Str(a.prefix + suffixes.request), "route" := Str(a.route)] + a.opts
  }

  /** The REQUEST notification, unless the effective `onRequest` hook vetoes it. */
  function RequestNotes(config: Config, a: ActionState): seq<Notification> {
    if Permits(Pick(a.onRequest, config.onRequest))
    then [RequestNote(RequestFields(a, config.suffixes))] else []
  }

  /** The SUCCESS or the FAILURE notification for a decoded response, unless the
      effective hook of the branch taken vetoes it. */
  function VerdictNotes(config: Config, a: ActionState, res: Response, body: Value): seq<Notification> {
    if Accepted(a.expected, res) then
      if PermitsBody(Pick(a.onSuccess, config.onSuccess), body)
      then [SuccessNote(a.prefix + config.suffixes.success, body)] else []
    else
      var err := FetchError(a.route, res, body);
      if PermitsError(Pick(a.onFailure, config.onFailure), err)
      then [FailureNote(a.prefix + config.suffixes.failure, err)] else []
  }

  /** The FINISH notification, unless the effective `onFinish` hook vetoes it. */
  function FinishNotes(config: Config, a: ActionState): seq<Notification> {
    if Permits(Pick(a.onFinish, config.onFinish))
    then [FinishNote(a.prefix + config.suffixes.finish)] else []
  }

  /** The one transport call: URL `baseUrl + route`, the action's options. */
  function TransportCall(config: Config, a: ActionState): Event {
    Fetched(config.transport, config.baseUrl + a.route, a.opts)
  }

  /** Notifications as dispatch events. */
  function AsEvents(ns: seq<Notification>): (es: seq<Event>)
    ensures |es| == |ns|
  {
    if ns == [] then [] else [Dispatched(ns[0])] + AsEvents(ns[1..])
  }

  lemma {:induction false} AsEventsAppend(a: seq<Notification>, b: seq<Notification>)
    ensures AsEvents(a + b) == AsEvents(a) + AsEvents(b)
  {
    if a == [] {
      assert a + b == b;
    } else {
      assert (a + b)[0] == a[0] && (a + b)[1..] == a[1..] + b;
      AsEventsAppend(a[1..], b);
    }
  }

  lemma AsEventsOfOne(ns: seq<Notification>)
    requires |ns| <= 1
    ensures ns == [] ==> AsEvents(ns) == []
    ensures |ns| == 1 ==> AsEvents(ns) == [Dispatched(ns[0])]
  {
    if |ns| == 1 {
      assert ns[1..] == [];
    }
  }

  /** How the promise chain of a `FetchAction` ends: settled with the response and
      its decoded body, or rejected with the exception of the transport or, after
      it, of the decoder. */
  function Conclude(transport: Result<Response, Thrown>): Outcome {
    match transport
    case Err(e) => Rejected(e)
    case Ok(res) =>
      match DecodeBody(res)
      case Err(e) => Rejected(e)
      case Ok(body) => Settled(res, body)
  }

  /** The notifications after the transport call: none when the chain rejected. */
  function Closing(config: Config, a: ActionState, outcome: Outcome): seq<Notification> {
    if outcome.Settled?
    then VerdictNotes(config, a, outcome.response, outcome.body) + FinishNotes(config, a)
    else []
  }

  /** Everything one call of the middleware does, in order, and how it ends. */
  function Run(config: Config, input: Input, world: World): Trace {
    match input
    case Foreign(v) => Trace([Forwarded(v)], Passed(world.next))
    case FetchInput(a) =>
      var outcome := Conclude(world.transport);
      var opening := AsEvents(RequestNotes(config, a)) + [TransportCall(config, a)];
      Trace(opening + AsEvents(Closing(config, a, outcome)), outcome)
  }

  // ---------------------------------------------------------------------------
  // Views of an event log

  /** The dispatched notifications, in order. */
  function Notes(es: seq<Event>): seq<Notification> {
    if es == [] then []
    else (if es[0].Dispatched? then [es[0].note] else []) + Notes(es[1..])
  }

  /** The transport calls, in order. */
  function Calls(es: seq<Event>): seq<Event> {
    if es == [] then []
    else (if es[0].Fetched? then [es[0]] else []) + Calls(es[1..])
  }

  /** The inputs handed to the next middleware, in order. */
  function Forwards(es: seq<Event>): seq<Value> {
    if es == [] then []
    else (if es[0].Forwarded? then [es[0].input] else []) + Forwards(es[1..])
  }

  /** The notifications of one kind, in order. */
  function OfKind(ns: seq<Notification>, k: Kind): (r: seq<Notification>)
  {
    if ns == [] then []
    else (if KindOf(ns[0]) == k then [ns[0]] else []) + OfKind(ns[1..], k)
  }

  /** The notifications of every other kind, in order. */
  function Without(ns: seq<Notification>, k: Kind): (r: seq<Notification>)
  {
    if ns == [] then []
    else (if KindOf(ns[0]) != k then [ns[0]] else []) + Without(ns[1..], k)
  }

  lemma {:induction false} NotesAppend(a: seq<Event>, b: seq<Event>)
    ensures Notes(a + b) == Notes(a) + Notes(b)
  {
    if a == [] {
      assert a + b == b;
    } else {
      assert (a + b)[0] == a[0] && (a + b)[1..] == a[1..] + b;
      NotesAppend(a[1..], b);
    }
  }

  lemma {:induction false} CallsAppend(a: seq<Event>, b: seq<Event>)
    ensures Calls(a + b) == Calls(a) + Calls(b)
  {
    if a == [] {
      assert a + b == b;
    } else {
      assert (a + b)[0] == a[0] && (a + b)[1..] == a[1..] + b;
      CallsAppend(a[1..], b);
    }
  }

  lemma {:induction false} ForwardsAppend(a: seq<Event>, b: seq<Event>)
    ensures Forwards(a + b) == Forwards(a) + Forwards(b)
  {
    if a == [] {
      assert a + b == b;
    } else {
      assert (a + b)[0] == a[0] && (a + b)[1..] == a[1..] + b;
      ForwardsAppend(a[1..], b);
    }
  }

  lemma {:induction false} OfKindAppend(a: seq<Notification>, b: seq<Notification>, k: Kind)
    ensures OfKind(a + b, k) == OfKind(a, k) + OfKind(b, k)
  {
    if a == [] {
      assert a + b == b;
    } else {
      var head := if KindOf(a[0]) == k then [a[0]] else [];
      OfKindCons(a, b, k);
      OfKindAppend(a[1..], b, k);
      assert head + (OfKind(a[1..], k) + OfKind(b, k)) == (head + OfKind(a[1..], k)) + OfKind(b, k);
    }
  }

  lemma OfKindCons(a: seq<Notification>, b: seq<Notification>, k: Kind)
    requires a != []
    ensures OfKind(a + b, k) == (if KindOf(a[0]) == k then [a[0]] else []) + OfKind(a[1..] + b, k)
  {
    assert (a + b)[0] == a[0] && (a + b)[1..] == a[1..] + b;
  }

  lemma {:induction false} WithoutAppend(a: seq<Notification>, b: seq<Notification>, k: Kind)
    ensures Without(a + b, k) == Without(a, k) + Without(b, k)
  {
    if a == [] {
      assert a + b == b;
    } else {
      var head := if KindOf(a[0]) != k then [a[0]] else [];
      WithoutCons(a, b, k);
      WithoutAppend(a[1..], b, k);
      assert head + (Without(a[1..], k) + Without(b, k)) == (head + Without(a[1..], k)) + Without(b, k);
    }
  }

  lemma WithoutCons(a: seq<Notification>, b: seq<Notification>, k: Kind)
    requires a != []
    ensures Without(a + b, k) == (if KindOf(a[0]) != k then [a[0]] else []) + Without(a[1..] + b, k)
  {
    assert (a + b)[0] == a[0] && (a + b)[1..] == a[1..] + b;
  }

  /** `OfKind` keeps only notifications of kind `k` and `Without` none of them;
      between them they keep every notification. */
  lemma {:induction false} ViewKinds(ns: seq<Notification>, k: Kind)
    ensures forall i :: 0 <= i < |OfKind(ns, k)| ==> KindOf(OfKind(ns, k)[i]) == k
    ensures forall i :: 0 <= i < |Without(ns, k)| ==> KindOf(Without(ns, k)[i]) != k
    ensures |OfKind(ns, k)| + |Without(ns, k)| == |ns|
  {
    if ns != [] {
      ViewKinds(ns[1..], k);
    }
  }

  // ---------------------------------------------------------------------------
  // The middleware as it runs

  /** The middleware's surroundings: the store's `dispatch`, the transport and the
      next middleware. Every call made to them is appended to `calls`. */
  class Host {
    var calls: seq<Event>

    constructor ()
      ensures calls == []
    {
      calls := [];
    }

    method Dispatch(note: Notification)
      modifies this
      ensures calls == old(calls) + [Dispatched(note)]
    {
      calls := calls + [Dispatched(note)];
    }

    /** Calls the transport; what it resolves to or rejects with comes from `world`. */
    method Fetch(transport: Transport, url: string, opts: map<string, Value>, world: World)
      returns (r: Result<Response, Thrown>)
      modifies this
      ensures calls == old(calls) + [Fetched(transport, url, opts)]
      ensures r == world.transport
    {
      calls := calls + [Fetched(transport, url, opts)];
      r := world.transport;
    }

    /** Calls the next middleware; its result comes from `world`. */
    method Next(input: Value, world: World) returns (r: Value)
      modifies this
      ensures calls == old(calls) + [Forwarded(input)]
      ensures r == world.next
    {
      calls := calls + [Forwarded(input)];
      r := world.next;
    }
  }

  /** An input as it reaches the middleware: a `FetchAction` object, or anything else. */
  datatype Incoming = Action(action: FetchAction) | Other(value: Value)

  function ViewOf(input: Incoming): Input
    reads if input.Action? then {input.action} else {}
  {
    match input
    case Action(a) => FetchInput(a.State())
    case Other(v) => Foreign(v)
  }

  /** Reads the body with the decoder the `Content-Type` header selects. */
  method Decode(res: Response) returns (decoded: Result<Value, Thrown>)
    ensures decoded == DecodeBody(res)
    ensures res.contentType.None? ==> decoded == Ok(Undefined)
    ensures decoded.Err? ==> ChooseDecoder(res.contentType) != NoDecoder
  {
    var contentType := res.contentType;
    if contentType.Some? && JsonType <= contentType.value {
      decoded := res.json;
    } else if contentType.Some? && TextType <= contentType.value {
      decoded := if res.text.Ok? then Ok(Str(res.text.value)) else Err(res.text.error);
    } else {
      decoded := Ok(Undefined);
    }
  }

  /** The error the success check throws, or `None` when the response is accepted. */
  method Classify(expected: Option<seq<Value>>, route: string, res: Response, body: Value)
    returns (failure: Option<FetchError>)
    ensures failure.None? <==> Accepted(expected, res)
    ensures failure.Some? ==> failure.value == FetchError(route, res, body)
  {
    failure := None;
    if expected.Some? && Num(res.status) !in expected.value {
      failure := Some(FetchError(route, res, body));
    }
    if expected.None? && !res.ok {
      failure := Some(FetchError(route, res, body));
    }
  }

  /** Dispatches REQUEST unless the effective `onRequest` hook vetoes it. */
  method Announce(config: Config, host: Host, action: FetchAction)
    modifies host
    ensures host.calls == old(host.calls) + AsEvents(RequestNotes(config, action.State()))
  {
    var onRequest := Pick(action.onRequest, config.onRequest);
    if onRequest.None? || onRequest.value() {
      host.Dispatch(RequestNote(map["type" := Str(action.prefix + config.suffixes.request), "route" := Str(action.route)]
                                + action.opts));
    }
    AsEventsOfOne(RequestNotes(config, action.State()));
  }

  /** Classifies a decoded response, dispatches SUCCESS or FAILURE, then FINISH,
      each unless its effective hook vetoes it. */
  method Settle(config: Config, host: Host, action: FetchAction, res: Response, body: Value)
    modifies host
    ensures host.calls == old(host.calls) + AsEvents(Closing(config, action.State(), Settled(res, body)))
  {
    ghost var a := action.State();
    var onSuccess := Pick(action.onSuccess, config.onSuccess);
    var onFailure := Pick(action.onFailure, config.onFailure);
    var onFinish := Pick(action.onFinish, config.onFinish);
    var prefix, suffixes := action.prefix, config.suffixes;

    var failure := Classify(action.expected, action.route, res, body);
    AsEventsOfOne(VerdictNotes(config, a, res, body));
    AsEventsOfOne(FinishNotes(config, a));
    if failure.None? {
      if onSuccess.None? || onSuccess.value(body) {
        host.Dispatch(SuccessNote(prefix + suffixes.success, body));
      }
    } else {
      if onFailure.None? || onFailure.value(failure.value) {
        host.Dispatch(FailureNote(prefix + suffixes.failure, failure.value));
      }
    }
    assert host.calls == old(host.calls) + AsEvents(VerdictNotes(config, a, res, body));
    if onFinish.None? || onFinish.value() {
      host.Dispatch(FinishNote(prefix + suffixes.finish));
    }
    AsEventsAppend(VerdictNotes(config, a, res, body), FinishNotes(config, a));
  }

  /** `fetchMiddleware(config)(store)(next)(input)`: the calls it makes are those
      of `Run`, in `Run`'s order, and it ends as `Run` does. */
  method FetchMiddleware(config: Config, host: Host, input: Incoming, world: World) returns (out: Outcome)
    modifies host
    ensures host.calls == old(host.calls) + Run(config, old(ViewOf(input)), world).events
    ensures out == Run(config, old(ViewOf(input)), world).outcome
  {
    if input.Other? {
      var r := host.Next(input.value, world);
      return Passed(r);
    }
    var action := input.action;
    ghost var a := action.State();
    ghost var opening := AsEvents(RequestNotes(config, a)) + [TransportCall(config, a)];
    assert old(ViewOf(input)) == FetchInput(a);

    Announce(config, host, action);
    var fetched := host.Fetch(config.transport, config.baseUrl + action.route, action.opts, world);
    assert host.calls == old(host.calls) + opening;
    if fetched.Err? {
      return Rejected(fetched.error);
    }
    var res := fetched.value;

    var decoded := Decode(res);
    if decoded.Err? {
      return Rejected(decoded.error);
    }
    var body := decoded.value;

    Settle(config, host, action, res, body);
    out := Settled(res, body);
    ghost var closing := AsEvents(Closing(config, a, out));
    assert host.calls == old(host.calls) + (opening + closing);
    assert Run(config, FetchInput(a), world) == Trace(opening + closing, out);
  }
}
