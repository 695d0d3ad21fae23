/** What one call of the middleware, and a sequence of calls, is proved to do. */
module MiddlewareProperties {
  import opened Values
  import opened Exchange
  import opened Action
  import opened Configuration
  import opened Middleware

  // ---------------------------------------------------------------------------
  // Small facts about the views of a log

  lemma AsEventsViews(ns: seq<Notification>)
    ensures Notes(AsEvents(ns)) == ns
    ensures Calls(AsEvents(ns)) == []
    ensures Forwards(AsEvents(ns)) == []
  {
    if ns != [] {
      assert AsEvents(ns)[1..] == AsEvents(ns[1..]);
      AsEventsViews(ns[1..]);
    }
  }

  lemma SingleEventViews(e: Event)
    ensures Notes([e]) == (if e.Dispatched? then [e.note] else [])
    ensures Calls([e]) == (if e.Fetched? then [e] else [])
    ensures Forwards([e]) == (if e.Forwarded? then [e.input] else [])
  {
    assert [e][1..] == [];
  }

  lemma OfKindOfOne(ns: seq<Notification>, k: Kind)
    requires |ns| <= 1
    ensures OfKind(ns, k) == (if ns != [] && KindOf(ns[0]) == k then ns else [])
    ensures Without(ns, k) == (if ns != [] && KindOf(ns[0]) != k then ns else [])
  {
    if ns != [] {
      assert ns[1..] == [];
    }
  }

  // ---------------------------------------------------------------------------
  // One call

  /** An input that is not a `FetchAction` goes to the next middleware, whose result
      is returned as it is; nothing is dispatched and the transport is not called. */
  lemma ForeignPassesThrough(config: Config, v: Value, world: World)
    ensures var t := Run(config, Foreign(v), world);
      Notes(t.events) == [] && Calls(t.events) == [] && Forwards(t.events) == [v]
      && t.outcome == Passed(world.next)
  {
    SingleEventViews(Forwarded(v));
  }

  /** The views of a log made of dispatches around one transport call. */
  lemma {:induction false} NotesAround(before: seq<Notification>, call: Event, after: seq<Notification>)
    requires call.Fetched?
    ensures Notes(AsEvents(before) + [call] + AsEvents(after)) == before + after
  {
    AsEventsViews(before);
    AsEventsViews(after);
    SingleEventViews(call);
    NotesAppend(AsEvents(before), [call]);
    NotesAppend(AsEvents(before) + [call], AsEvents(after));
  }

  lemma {:induction false} CallsAround(before: seq<Notification>, call: Event, after: seq<Notification>)
    requires call.Fetched?
    ensures Calls(AsEvents(before) + [call] + AsEvents(after)) == [call]
  {
    AsEventsViews(before);
    AsEventsViews(after);
    SingleEventViews(call);
    CallsAppend(AsEvents(before), [call]);
    CallsAppend(AsEvents(before) + [call], AsEvents(after));
  }

  lemma {:induction false} ForwardsAround(before: seq<Notification>, call: Event, after: seq<Notification>)
    requires call.Fetched?
    ensures Forwards(AsEvents(before) + [call] + AsEvents(after)) == []
  {
    AsEventsViews(before);
    AsEventsViews(after);
    SingleEventViews(call);
    ForwardsAppend(AsEvents(before), [call]);
    ForwardsAppend(AsEvents(before) + [call], AsEvents(after));
  }

  /** The notifications one `FetchAction` causes, phase by phase: a rejection from the
      transport or from a decoder stops everything after the transport call. */
  lemma FetchNotes(config: Config, a: ActionState, world: World)
    ensures var t := Run(config, FetchInput(a), world);
      Notes(t.events) == RequestNotes(config, a) + Closing(config, a, t.outcome)
    ensures var t := Run(config, FetchInput(a), world);
      Calls(t.events) == [TransportCall(config, a)] && Forwards(t.events) == []
  {
    var t := Run(config, FetchInput(a), world);
    var closing := Closing(config, a, t.outcome);
    assert t.events == AsEvents(RequestNotes(config, a)) + [TransportCall(config, a)] + AsEvents(closing);
    NotesAround(RequestNotes(config, a), TransportCall(config, a), closing);
    CallsAround(RequestNotes(config, a), TransportCall(config, a), closing);
    ForwardsAround(RequestNotes(config, a), TransportCall(config, a), closing);
  }

  /** A `FetchAction` settles exactly when the transport resolves and the selected
      decoder succeeds; the result is then `{result: res, body}`. Otherwise the
      exception of the transport, or else of the decoder, is rethrown. A response
      that is not accepted still settles. */
  lemma SettlesIff(config: Config, a: ActionState, world: World)
    ensures var t := Run(config, FetchInput(a), world);
      t.outcome.Settled? <==> world.transport.Ok? && DecodeBody(world.transport.value).Ok?
    ensures var t := Run(config, FetchInput(a), world);
      t.outcome.Settled? ==>
        t.outcome == Settled(world.transport.value, DecodeBody(world.transport.value).value)
    ensures var t := Run(config, FetchInput(a), world);
      !t.outcome.Settled? ==>
        t.outcome == Rejected(if world.transport.Err? then world.transport.error
                              else DecodeBody(world.transport.value).error)
  {
  }

  /** The notifications of each kind in one phase's list. */
  lemma StepKinds(config: Config, a: ActionState, res: Response, body: Value, k: Kind)
    ensures OfKind(RequestNotes(config, a), k) == (if k == RequestKind then RequestNotes(config, a) else [])
    ensures OfKind(FinishNotes(config, a), k) == (if k == FinishKind then FinishNotes(config, a) else [])
    ensures OfKind(VerdictNotes(config, a, res, body), k) ==
      (if (k == SuccessKind && Accepted(a.expected, res)) || (k == FailureKind && !Accepted(a.expected, res))
       then VerdictNotes(config, a, res, body) else [])
  {
    OneKind(RequestNotes(config, a), RequestKind, k);
    OneKind(FinishNotes(config, a), FinishKind, k);
    var verdict := VerdictNotes(config, a, res, body);
    OneKind(verdict, if Accepted(a.expected, res) then SuccessKind else FailureKind, k);
  }

  /** A phase's notifications: none, or one of the given kind. */
  predicate AtMostOne(ns: seq<Notification>, kind: Kind) {
    |ns| <= 1 && (ns != [] ==> KindOf(ns[0]) == kind)
  }

  lemma OneKind(ns: seq<Notification>, kind: Kind, k: Kind)
    requires AtMostOne(ns, kind)
    ensures OfKind(ns, k) == (if k == kind then ns else [])
  {
    OfKindOfOne(ns, k);
  }

  lemma LastOfAppend<T>(xs: seq<T>, ys: seq<T>)
    requires ys != []
    ensures (xs + ys)[|xs + ys| - 1] == ys[|ys| - 1]
  {
  }

  lemma Unpad<T>(xs: seq<T>)
    ensures [] + (xs + []) == xs
  {
  }

  /** The notifications of one kind in a whole log, phase by phase. */
  lemma LogKinds(config: Config, a: ActionState, world: World, k: Kind)
    ensures var t := Run(config, FetchInput(a), world);
      OfKind(Notes(t.events), k) ==
        OfKind(RequestNotes(config, a), k) +
        (if t.outcome.Settled?
         then OfKind(VerdictNotes(config, a, t.outcome.response, t.outcome.body), k) + OfKind(FinishNotes(config, a), k)
         else [])
  {
    var t := Run(config, FetchInput(a), world);
    FetchNotes(config, a, world);
    var closing := Closing(config, a, t.outcome);
    OfKindAppend(RequestNotes(config, a), closing, k);
    if t.outcome.Settled? {
      OfKindAppend(VerdictNotes(config, a, t.outcome.response, t.outcome.body), FinishNotes(config, a), k);
    }
  }

  /** REQUEST is dispatched exactly when the effective `onRequest` hook allows it,
      carries the route and the fetch options, and comes before the transport call. */
  lemma RequestDispatchedIff(config: Config, a: ActionState, world: World)
    ensures var t := Run(config, FetchInput(a), world);
      OfKind(Notes(t.events), RequestKind) ==
        (if Permits(Pick(a.onRequest, config.onRequest))
         then [RequestNote(RequestFields(a, config.suffixes))] else [])
    ensures var t := Run(config, FetchInput(a), world);
      Permits(Pick(a.onRequest, config.onRequest)) ==>
        t.events[0] == Dispatched(RequestNote(RequestFields(a, config.suffixes)))
        && t.events[1] == TransportCall(config, a)
  {
    var t := Run(config, FetchInput(a), world);
    LogKinds(config, a, world, RequestKind);
    if t.outcome.Settled? {
      StepKinds(config, a, t.outcome.response, t.outcome.body, RequestKind);
    }
    OneKind(RequestNotes(config, a), RequestKind, RequestKind);
    OneKind(FinishNotes(config, a), FinishKind, RequestKind);
    AsEventsOfOne(RequestNotes(config, a));
  }

  /** SUCCESS is dispatched exactly when the response settles, is accepted, and the
      effective `onSuccess` hook allows it for the body; it carries the body. */
  lemma SuccessDispatchedIff(config: Config, a: ActionState, world: World)
    ensures var t := Run(config, FetchInput(a), world);
      OfKind(Notes(t.events), SuccessKind) ==
        (if t.outcome.Settled? && Accepted(a.expected, t.outcome.response)
            && PermitsBody(Pick(a.onSuccess, config.onSuccess), t.outcome.body)
         then [SuccessNote(a.prefix + config.suffixes.success, t.outcome.body)] else [])
  {
    var t := Run(config, FetchInput(a), world);
    LogKinds(config, a, world, SuccessKind);
    if t.outcome.Settled? {
      StepKinds(config, a, t.outcome.response, t.outcome.body, SuccessKind);
      Unpad(OfKind(VerdictNotes(config, a, t.outcome.response, t.outcome.body), SuccessKind));
    }
    OneKind(RequestNotes(config, a), RequestKind, SuccessKind);
    OneKind(FinishNotes(config, a), FinishKind, SuccessKind);
  }

  /** FAILURE is dispatched exactly when the response settles, is not accepted, and
      the effective `onFailure` hook allows it for the error; the error carries the
      route, the response and the body. */
  lemma FailureDispatchedIff(config: Config, a: ActionState, world: World)
    ensures var t := Run(config, FetchInput(a), world);
      OfKind(Notes(t.events), FailureKind) ==
        (if t.outcome.Settled? && !Accepted(a.expected, t.outcome.response)
            && PermitsError(Pick(a.onFailure, config.onFailure), FetchError(a.route, t.outcome.response, t.outcome.body))
         then [FailureNote(a.prefix + config.suffixes.failure, FetchError(a.route, t.outcome.response, t.outcome.body))]
         else [])
  {
    var t := Run(config, FetchInput(a), world);
    LogKinds(config, a, world, FailureKind);
    if t.outcome.Settled? {
      StepKinds(config, a, t.outcome.response, t.outcome.body, FailureKind);
      Unpad(OfKind(VerdictNotes(config, a, t.outcome.response, t.outcome.body), FailureKind));
    }
    OneKind(RequestNotes(config, a), RequestKind, FailureKind);
    OneKind(FinishNotes(config, a), FinishKind, FailureKind);
  }

  /** FINISH is dispatched exactly when the response settles and the effective
      `onFinish` hook allows it, whichever branch was taken; it is the last call. */
  lemma FinishDispatchedIff(config: Config, a: ActionState, world: World)
    ensures var t := Run(config, FetchInput(a), world);
      OfKind(Notes(t.events), FinishKind) ==
        (if t.outcome.Settled? && Permits(Pick(a.onFinish, config.onFinish))
         then [FinishNote(a.prefix + config.suffixes.finish)] else [])
    ensures var t := Run(config, FetchInput(a), world);
      t.outcome.Settled? && Permits(Pick(a.onFinish, config.onFinish)) ==>
        t.events[|t.events| - 1] == Dispatched(FinishNote(a.prefix + config.suffixes.finish))
  {
    var t := Run(config, FetchInput(a), world);
    LogKinds(config, a, world, FinishKind);
    OneKind(RequestNotes(config, a), RequestKind, FinishKind);
    OneKind(FinishNotes(config, a), FinishKind, FinishKind);
    if t.outcome.Settled? {
      var o := t.outcome;
      StepKinds(config, a, o.response, o.body, FinishKind);
      var v, f := VerdictNotes(config, a, o.response, o.body), FinishNotes(config, a);
      var opening := AsEvents(RequestNotes(config, a)) + [TransportCall(config, a)];
      assert t.events == opening + AsEvents(v + f);
      if f != [] {
        AsEventsAppend(v, f);
        AsEventsOfOne(f);
        LastOfAppend(opening, AsEvents(v + f));
        LastOfAppend(AsEvents(v), AsEvents(f));
      }
    }
  }

  /** The notifications of kind `k` in a log of at most one REQUEST, then at most
      one verdict, then at most one FINISH. */
  lemma {:induction false} OrderedKind(r: seq<Notification>, v: seq<Notification>, f: seq<Notification>, verdict: Kind, k: Kind)
    requires AtMostOne(r, RequestKind) && AtMostOne(v, verdict) && AtMostOne(f, FinishKind)
    requires verdict == SuccessKind || verdict == FailureKind
    ensures k == RequestKind ==> OfKind(r + (v + f), k) == r
    ensures k == verdict ==> OfKind(r + (v + f), k) == v
    ensures k == FinishKind ==> OfKind(r + (v + f), k) == f
    ensures k != RequestKind && k != verdict && k != FinishKind ==> OfKind(r + (v + f), k) == []
  {
    OfKindAppend(r, v + f, k);
    OfKindAppend(v, f, k);
    OneKind(r, RequestKind, k);
    OneKind(v, verdict, k);
    OneKind(f, FinishKind, k);
  }

  /** A log of at most one REQUEST, then at most one SUCCESS or FAILURE, then at most
      one FINISH lists its notifications by kind in that order. */
  lemma {:induction false} OrderedLog(r: seq<Notification>, v: seq<Notification>, f: seq<Notification>, verdict: Kind)
    requires verdict == SuccessKind || verdict == FailureKind
    requires AtMostOne(r, RequestKind) && AtMostOne(v, verdict) && AtMostOne(f, FinishKind)
    ensures var ns := r + (v + f);
      ns == OfKind(ns, RequestKind) + OfKind(ns, SuccessKind) + OfKind(ns, FailureKind) + OfKind(ns, FinishKind)
    ensures var ns := r + (v + f);
      |OfKind(ns, SuccessKind)| + |OfKind(ns, FailureKind)| <= 1
  {
    var ns := r + (v + f);
    OrderedKind(r, v, f, verdict, RequestKind);
    OrderedKind(r, v, f, verdict, SuccessKind);
    OrderedKind(r, v, f, verdict, FailureKind);
    OrderedKind(r, v, f, verdict, FinishKind);
    Regroup(r, v, f);
  }

  lemma Regroup<T>(a: seq<T>, b: seq<T>, c: seq<T>)
    ensures a + (b + c) == a + b + [] + c
    ensures a + (b + c) == a + [] + b + c
  {
  }

  /** The dispatches come in the order REQUEST, SUCCESS or FAILURE, FINISH, and at
      most one of SUCCESS and FAILURE occurs. */
  lemma {:induction false} DispatchOrder(config: Config, a: ActionState, world: World)
    ensures var ns := Notes(Run(config, FetchInput(a), world).events);
      ns == OfKind(ns, RequestKind) + OfKind(ns, SuccessKind) + OfKind(ns, FailureKind) + OfKind(ns, FinishKind)
    ensures var ns := Notes(Run(config, FetchInput(a), world).events);
      |OfKind(ns, SuccessKind)| + |OfKind(ns, FailureKind)| <= 1
  {
    FetchNotes(config, a, world);
    var o := Conclude(world.transport);
    var r := RequestNotes(config, a);
    var v := if o.Settled? then VerdictNotes(config, a, o.response, o.body) else [];
    var f := if o.Settled? then FinishNotes(config, a) else [];
    assert Notes(Run(config, FetchInput(a), world).events) == r + (v + f);
    OrderedLog(r, v, f, if o.Settled? && !Accepted(a.expected, o.response) then FailureKind else SuccessKind);
  }

  // ---------------------------------------------------------------------------
  // Vetoes are independent

  lemma OneKindWithout(ns: seq<Notification>, kind: Kind, k: Kind)
    requires AtMostOne(ns, kind)
    ensures Without(ns, k) == (if k == kind then [] else ns)
  {
    OfKindOfOne(ns, k);
  }

  /** When each phase of one action lists the notifications of another's phase
      except those of kind `k`, so do their logs, and nothing else differs. */
  lemma VetoLog(config: Config, vetoed: ActionState, plain: ActionState, world: World, k: Kind)
    requires RequestNotes(config, vetoed) == Without(RequestNotes(config, plain), k)
    requires FinishNotes(config, vetoed) == Without(FinishNotes(config, plain), k)
    requires var o := Conclude(world.transport);
      o.Settled? ==> VerdictNotes(config, vetoed, o.response, o.body) == Without(VerdictNotes(config, plain, o.response, o.body), k)
    requires vetoed.route == plain.route && vetoed.opts == plain.opts
    ensures var v := Run(config, FetchInput(vetoed), world);
      var p := Run(config, FetchInput(plain), world);
      v.outcome == p.outcome && Calls(v.events) == Calls(p.events)
      && Notes(v.events) == Without(Notes(p.events), k)
  {
    var o := Conclude(world.transport);
    FetchNotes(config, vetoed, world);
    FetchNotes(config, plain, world);
    var r := RequestNotes(config, plain);
    var closing := Closing(config, plain, o);
    WithoutAppend(r, closing, k);
    if o.Settled? {
      WithoutAppend(VerdictNotes(config, plain, o.response, o.body), FinishNotes(config, plain), k);
    }
  }

  /** The verdict phase is the same for two actions that differ only in a hook other
      than `onSuccess` and `onFailure`. */
  lemma SameVerdict(config: Config, a: ActionState, b: ActionState, res: Response, body: Value)
    requires a.prefix == b.prefix && a.route == b.route && a.expected == b.expected
    requires a.onSuccess == b.onSuccess && a.onFailure == b.onFailure
    ensures VerdictNotes(config, a, res, body) == VerdictNotes(config, b, res, body)
  {
  }

  /** An `onRequest` hook that returns falsy removes the REQUEST notification and
      nothing else: the transport call, the later notifications and the result are
      those of the same action without the hook. */
  lemma RequestVetoDropsOnlyRequest(config: Config, a: ActionState, world: World, veto: RequestHook)
    requires config.onRequest.None? && !veto()
    ensures var vetoed := Run(config, FetchInput(a.(onRequest := Some(veto))), world);
      var plain := Run(config, FetchInput(a.(onRequest := None)), world);
      vetoed.outcome == plain.outcome && Calls(vetoed.events) == Calls(plain.events)
      && Notes(vetoed.events) == Without(Notes(plain.events), RequestKind)
  {
    var vetoed, plain := a.(onRequest := Some(veto)), a.(onRequest := None);
    OneKindWithout(RequestNotes(config, plain), RequestKind, RequestKind);
    OneKindWithout(FinishNotes(config, plain), FinishKind, RequestKind);
    var o := Conclude(world.transport);
    if o.Settled? {
      var verdict := VerdictNotes(config, plain, o.response, o.body);
      OneKindWithout(verdict, if Accepted(plain.expected, o.response) then SuccessKind else FailureKind, RequestKind);
      SameVerdict(config, vetoed, plain, o.response, o.body);
    }
    VetoLog(config, vetoed, plain, world, RequestKind);
  }

  /** An `onSuccess` hook that returns falsy removes the SUCCESS notification and
      nothing else. */
  lemma SuccessVetoDropsOnlySuccess(config: Config, a: ActionState, world: World, veto: SuccessHook)
    requires config.onSuccess.None?
    requires var o := Conclude(world.transport); o.Settled? ==> !veto(o.body)
    ensures var vetoed := Run(config, FetchInput(a.(onSuccess := Some(veto))), world);
      var plain := Run(config, FetchInput(a.(onSuccess := None)), world);
      vetoed.outcome == plain.outcome && Calls(vetoed.events) == Calls(plain.events)
      && Notes(vetoed.events) == Without(Notes(plain.events), SuccessKind)
  {
    var vetoed, plain := a.(onSuccess := Some(veto)), a.(onSuccess := None);
    OneKindWithout(RequestNotes(config, plain), RequestKind, SuccessKind);
    OneKindWithout(FinishNotes(config, plain), FinishKind, SuccessKind);
    var o := Conclude(world.transport);
    if o.Settled? {
      var verdict := VerdictNotes(config, plain, o.response, o.body);
      OneKindWithout(verdict, if Accepted(plain.expected, o.response) then SuccessKind else FailureKind, SuccessKind);
    }
    VetoLog(config, vetoed, plain, world, SuccessKind);
  }

  /** An `onFailure` hook that returns falsy removes the FAILURE notification and
      nothing else. */
  lemma FailureVetoDropsOnlyFailure(config: Config, a: ActionState, world: World, veto: FailureHook)
    requires config.onFailure.None?
    requires var o := Conclude(world.transport); o.Settled? ==> !veto(FetchError(a.route, o.response, o.body))
    ensures var vetoed := Run(config, FetchInput(a.(onFailure := Some(veto))), world);
      var plain := Run(config, FetchInput(a.(onFailure := None)), world);
      vetoed.outcome == plain.outcome && Calls(vetoed.events) == Calls(plain.events)
      && Notes(vetoed.events) == Without(Notes(plain.events), FailureKind)
  {
    var vetoed, plain := a.(onFailure := Some(veto)), a.(onFailure := None);
    OneKindWithout(RequestNotes(config, plain), RequestKind, FailureKind);
    OneKindWithout(FinishNotes(config, plain), FinishKind, FailureKind);
    var o := Conclude(world.transport);
    if o.Settled? {
      var verdict := VerdictNotes(config, plain, o.response, o.body);
      OneKindWithout(verdict, if Accepted(plain.expected, o.response) then SuccessKind else FailureKind, FailureKind);
    }
    VetoLog(config, vetoed, plain, world, FailureKind);
  }

  /** An `onFinish` hook that returns falsy removes the FINISH notification and
      nothing else. */
  lemma FinishVetoDropsOnlyFinish(config: Config, a: ActionState, world: World, veto: FinishHook)
    requires config.onFinish.None? && !veto()
    ensures var vetoed := Run(config, FetchInput(a.(onFinish := Some(veto))), world);
      var plain := Run(config, FetchInput(a.(onFinish := None)), world);
      vetoed.outcome == plain.outcome && Calls(vetoed.events) == Calls(plain.events)
      && Notes(vetoed.events) == Without(Notes(plain.events), FinishKind)
  {
    var vetoed, plain := a.(onFinish := Some(veto)), a.(onFinish := None);
    OneKindWithout(RequestNotes(config, plain), RequestKind, FinishKind);
    OneKindWithout(FinishNotes(config, plain), FinishKind, FinishKind);
    var o := Conclude(world.transport);
    if o.Settled? {
      var verdict := VerdictNotes(config, plain, o.response, o.body);
      OneKindWithout(verdict, if Accepted(plain.expected, o.response) then SuccessKind else FailureKind, FinishKind);
      SameVerdict(config, vetoed, plain, o.response, o.body);
    }
    VetoLog(config, vetoed, plain, world, FinishKind);
  }

  // ---------------------------------------------------------------------------
  // Where hooks come from

  /** A hook set on the action wins over the configuration's hook of the same name:
      an action that sets all four behaves the same under any hooks in the
      configuration. */
  lemma ActionHooksOverrideConfig(config: Config, other: Config, a: ActionState, world: World)
    requires other.baseUrl == config.baseUrl && other.suffixes == config.suffixes
    requires other.transport == config.transport
    requires a.onRequest.Some? && a.onSuccess.Some? && a.onFailure.Some? && a.onFinish.Some?
    ensures Run(other, FetchInput(a), world) == Run(config, FetchInput(a), world)
  {
    var o := Conclude(world.transport);
    assert RequestNotes(other, a) == RequestNotes(config, a);
    assert FinishNotes(other, a) == FinishNotes(config, a);
    assert TransportCall(other, a) == TransportCall(config, a);
    assert Closing(other, a, o) == Closing(config, a, o);
  }

  /** A configuration built by `configure` holds no hooks, so only the action's own
      hooks can veto a notification. */
  lemma ConfiguredUsesActionHooks(config: Config, a: ActionState, world: World)
    requires Configured(config)
    ensures var t := Run(config, FetchInput(a), world);
      (OfKind(Notes(t.events), RequestKind) != [] <==> Permits(a.onRequest))
      && (OfKind(Notes(t.events), FinishKind) != [] <==> t.outcome.Settled? && Permits(a.onFinish))
      && (OfKind(Notes(t.events), SuccessKind) != [] <==>
            t.outcome.Settled? && Accepted(a.expected, t.outcome.response) && PermitsBody(a.onSuccess, t.outcome.body))
      && (OfKind(Notes(t.events), FailureKind) != [] <==>
            t.outcome.Settled? && !Accepted(a.expected, t.outcome.response)
            && PermitsError(a.onFailure, FetchError(a.route, t.outcome.response, t.outcome.body)))
  {
    assert Pick(a.onRequest, config.onRequest) == a.onRequest;
    assert Pick(a.onSuccess, config.onSuccess) == a.onSuccess;
    assert Pick(a.onFailure, config.onFailure) == a.onFailure;
    assert Pick(a.onFinish, config.onFinish) == a.onFinish;
    RequestDispatchedIff(config, a, world);
    SuccessDispatchedIff(config, a, world);
    FailureDispatchedIff(config, a, world);
    FinishDispatchedIff(config, a, world);
  }

  // ---------------------------------------------------------------------------
  // The REQUEST action, the decoder choice and the success check

  /** The REQUEST action holds every fetch option as it is, plus `type` and `route`;
      an option of the same name replaces either of those. */
  lemma RequestNoteFields(a: ActionState, suffixes: SuffixNames)
    ensures var f := RequestFields(a, suffixes);
      f.Keys == a.opts.Keys + {"type", "route"}
      && (forall k :: k in a.opts ==> f[k] == a.opts[k])
      && ("type" !in a.opts ==> f["type"] == Str(a.prefix + suffixes.request))
      && ("route" !in a.opts ==> f["route"] == Str(a.route))
  {
  }

  /** JSON is chosen for a `Content-Type` that starts with `application/json`, text for
      one that starts with `text/`, and nothing for any other header or none. */
  lemma DecoderChoice(contentType: Option<string>)
    ensures ChooseDecoder(contentType) == JsonDecoder <==> contentType.Some? && JsonType <= contentType.value
    ensures ChooseDecoder(contentType) == TextDecoder <==> contentType.Some? && TextType <= contentType.value
    ensures ChooseDecoder(contentType) == NoDecoder <==>
      contentType.None? || !(JsonType <= contentType.value || TextType <= contentType.value)
  {
    if contentType.Some? && JsonType <= contentType.value {
      assert contentType.value[0] == 'a';
      assert TextType[0] == 't';
    }
  }

  /** The header is matched case-sensitively and only at its start. */
  lemma DecoderExamples()
    ensures ChooseDecoder(Some("application/json; charset=utf-8")) == JsonDecoder
    ensures ChooseDecoder(Some("text/html")) == TextDecoder
    ensures ChooseDecoder(Some("Application/JSON")) == NoDecoder
    ensures ChooseDecoder(Some("application/problem+json")) == NoDecoder
  {
    assert "Application/JSON"[0] != JsonType[0] && "Application/JSON"[0] != TextType[0];
    assert "application/problem+json"[12] != JsonType[12] && "application/problem+json"[0] != TextType[0];
  }

  /** The success check: a status list decides by membership alone, whatever `ok`
      says; an empty list accepts nothing; a single status accepts exactly that
      status. */
  lemma AcceptedCases(res: Response, list: seq<Value>, n: int)
    ensures Accepted(Some(list), res) == Accepted(Some(list), res.(ok := !res.ok))
    ensures !Accepted(Some([]), res)
    ensures Accepted(Some(ExpectList(Num(n))), res) <==> res.status == n
  {
  }

  // ---------------------------------------------------------------------------
  // A sequence of calls

  /** One input reaching the middleware, with what its surroundings answer. */
  datatype Step = Step(input: Input, world: World)

  /** The calls a sequence of inputs makes, one input after the other. */
  function Replay(config: Config, steps: seq<Step>): seq<Event> {
    if steps == [] then []
    else
      var last := steps[|steps| - 1];
      Replay(config, steps[..|steps| - 1]) + Run(config, last.input, last.world).events
  }

  function FetchCount(steps: seq<Step>): nat {
    if steps == [] then 0
    else FetchCount(steps[..|steps| - 1]) + (if steps[|steps| - 1].input.FetchInput? then 1 else 0)
  }

  function ForeignValues(steps: seq<Step>): seq<Value> {
    if steps == [] then []
    else
      var last := steps[|steps| - 1];
      ForeignValues(steps[..|steps| - 1]) + (if last.input.Foreign? then [last.input.value] else [])
  }

  /** The transport call each `FetchAction` of a sequence makes, in order. */
  function FetchCalls(config: Config, steps: seq<Step>): seq<Event> {
    if steps == [] then []
    else
      var last := steps[|steps| - 1];
      FetchCalls(config, steps[..|steps| - 1]) + (if last.input.FetchInput? then [TransportCall(config, last.input.action)] else [])
  }

  /** The steps of a sequence whose input is a `FetchAction`, in order. */
  function OnlyFetches(steps: seq<Step>): (r: seq<Step>)
    ensures |r| == FetchCount(steps)
  {
    if steps == [] then []
    else
      var last := steps[|steps| - 1];
      OnlyFetches(steps[..|steps| - 1]) + (if last.input.FetchInput? then [last] else [])
  }

  /** Over any sequence of inputs, each `FetchAction` makes its own transport call,
      in order, and no other input makes one; exactly the other inputs reach the
      next middleware, in order. */
  lemma {:induction false} ReplayCalls(config: Config, steps: seq<Step>)
    ensures Calls(Replay(config, steps)) == FetchCalls(config, steps)
    ensures |Calls(Replay(config, steps))| == FetchCount(steps)
    ensures Forwards(Replay(config, steps)) == ForeignValues(steps)
  {
    if steps != [] {
      var init, last := steps[..|steps| - 1], steps[|steps| - 1];
      ReplayCalls(config, init);
      var t := Run(config, last.input, last.world);
      CallsAppend(Replay(config, init), t.events);
      ForwardsAppend(Replay(config, init), t.events);
      match last.input
      case Foreign(v) => ForeignPassesThrough(config, v, last.world);
      case FetchInput(a) => FetchNotes(config, a, last.world);
    }
  }

  /** Over any sequence of inputs, the dispatches are those of its `FetchAction`s
      alone, in order: the other inputs dispatch nothing. */
  lemma {:induction false} ReplayDispatches(config: Config, steps: seq<Step>)
    ensures Notes(Replay(config, steps)) == Notes(Replay(config, OnlyFetches(steps)))
  {
    if steps != [] {
      var init, last := steps[..|steps| - 1], steps[|steps| - 1];
      ReplayDispatches(config, init);
      var events := Run(config, last.input, last.world).events;
      NotesAppend(Replay(config, init), events);
      var fetches := OnlyFetches(init);
      if last.input.Foreign? {
        ForeignPassesThrough(config, last.input.value, last.world);
        assert OnlyFetches(steps) == fetches;
      } else {
        assert OnlyFetches(steps) == fetches + [last];
        assert (fetches + [last])[..|fetches|] == fetches;
        assert Replay(config, OnlyFetches(steps)) == Replay(config, fetches) + events;
        NotesAppend(Replay(config, fetches), events);
      }
    }
  }

  /** Over any sequence of inputs, there are at most three dispatches per
      `FetchAction`. */
  lemma {:induction false} ReplayDispatchBound(config: Config, steps: seq<Step>)
    ensures |Notes(Replay(config, steps))| <= 3 * FetchCount(steps)
  {
    if steps != [] {
      var init, last := steps[..|steps| - 1], steps[|steps| - 1];
      ReplayDispatchBound(config, init);
      var t := Run(config, last.input, last.world);
      NotesAppend(Replay(config, init), t.events);
      match last.input
      case Foreign(v) => ForeignPassesThrough(config, v, last.world);
      case FetchInput(a) => FetchNotes(config, a, last.world);
    }
  }
}
