/** `configure(opts)`: fills in the middleware's defaults. The base URL defaults to
    the empty string, each of the four action-type suffixes to its standard name,
    and the transport to the bundled fetch implementation. The caller's suffix
    object, when there is one, is completed in place. */
module Configuration {
  import opened Values
  import opened Action

  /** The function the middleware calls to perform a request. */
  datatype Transport = IsomorphicFetch | Supplied(name: string)

  /** The four suffixes appended to an action's prefix to form the type of each
      notification. */
  datatype SuffixNames = SuffixNames(request: string, success: string, failure: string, finish: string)

  /** The suffixes as a caller supplies them, any of them possibly missing. */
  datatype SuffixArgs = SuffixArgs(request: Option<string>, success: Option<string>, failure: Option<string>, finish: Option<string>)

  const NoSuffixes := SuffixArgs(None, None, None, None)

  const DefaultRequest := "_REQUEST"
  const DefaultSuccess := "_SUCCESS"
  const DefaultFailure := "_FAILURE"
  const DefaultFinish := "_FINISH"

  /** The caller's `suffixes` object, which `configure` updates in place. */
  class SuffixTable {
    var request: Option<string>
    var success: Option<string>
    var failure: Option<string>
    var finish: Option<string>

    constructor (args: SuffixArgs)
      ensures Args() == args
    {
      request, success, failure, finish := args.request, args.success, args.failure, args.finish;
    }

    function Args(): SuffixArgs
      reads this
    {
      SuffixArgs(request, success, failure, finish)
    }
  }

  /** What may be passed to `configure`. The hook fields are accepted and ignored. */
  datatype ConfigureOptions = ConfigureOptions(
    baseUrl: Option<string>,
    suffixes: Option<SuffixTable>,
    fetch: Option<Transport>,
    onRequest: Option<RequestHook>,
    onSuccess: Option<SuccessHook>,
    onFailure: Option<FailureHook>,
    onFinish: Option<FinishHook>)

  /** What the middleware reads from its options object. */
  datatype Config = Config(
    baseUrl: string,
    suffixes: SuffixNames,
    transport: Transport,
    onRequest: Option<RequestHook>,
    onSuccess: Option<SuccessHook>,
    onFailure: Option<FailureHook>,
    onFinish: Option<FinishHook>)

  predicate NonEmptySuffixes(s: SuffixNames) {
    s.request != "" && s.success != "" && s.failure != "" && s.finish != ""
  }

  /** A suffix table every entry of which is already given. */
  function AsArgs(s: SuffixNames): SuffixArgs {
    SuffixArgs(Some(s.request), Some(s.success), Some(s.failure), Some(s.finish))
  }

  /** The suffixes after defaults are filled in. */
  function Fill(args: SuffixArgs): (s: SuffixNames)
    ensures NonEmptySuffixes(s)
    ensures Given(args.request) ==> s.request == args.request.value
    ensures Given(args.success) ==> s.success == args.success.value
    ensures Given(args.failure) ==> s.failure == args.failure.value
    ensures Given(args.finish) ==> s.finish == args.finish.value
    ensures !Given(args.request) ==> s.request == DefaultRequest
    ensures !Given(args.success) ==> s.success == DefaultSuccess
    ensures !Given(args.failure) ==> s.failure == DefaultFailure
    ensures !Given(args.finish) ==> s.finish == DefaultFinish
  {
    SuffixNames(
      OrElse(args.request, DefaultRequest),
      OrElse(args.success, DefaultSuccess),
      OrElse(args.failure, DefaultFailure),
      OrElse(args.finish, DefaultFinish))
  }

  /** Filling a table that has already been filled changes nothing. */
  lemma FillIdempotent(args: SuffixArgs)
    ensures Fill(AsArgs(Fill(args))) == Fill(args)
  {
  }

  /** Without any suffix given, the four default suffixes apply. */
  lemma DefaultSuffixes()
    ensures Fill(NoSuffixes) == SuffixNames("_REQUEST", "_SUCCESS", "_FAILURE", "_FINISH")
  {
  }

  /** The configuration the middleware is built with. */
  function Resolve(baseUrl: Option<string>, suffixes: SuffixArgs, fetch: Option<Transport>): (c: Config)
    ensures Given(baseUrl) ==> c.baseUrl == baseUrl.value
    ensures !Given(baseUrl) ==> c.baseUrl == ""
    ensures c.suffixes == Fill(suffixes) && NonEmptySuffixes(c.suffixes)
    ensures fetch.Some? ==> c.transport == fetch.value
    ensures fetch.None? ==> c.transport == IsomorphicFetch
    ensures c.onRequest.None? && c.onSuccess.None? && c.onFailure.None? && c.onFinish.None?
  {
    Config(OrElse(baseUrl, ""), Fill(suffixes), if fetch.Some? then fetch.value else IsomorphicFetch,
           None, None, None, None)
  }

  /** The suffix object `configure` completes in place, if the caller gave one. */
  function TableOf(opts: Option<ConfigureOptions>): set<SuffixTable> {
    if opts.Some? && opts.value.suffixes.Some? then {opts.value.suffixes.value} else {}
  }

  /** The suffixes the caller supplied. */
  function SuppliedSuffixes(opts: Option<ConfigureOptions>): SuffixArgs
    reads TableOf(opts)
  {
    if opts.Some? && opts.value.suffixes.Some? then opts.value.suffixes.value.Args() else NoSuffixes
  }

  /** A configuration built by `configure` carries no hooks, whatever hooks the
      options held: the options' hook fields are not forwarded. */
  predicate Configured(c: Config) {
    c.onRequest.None? && c.onSuccess.None? && c.onFailure.None? && c.onFinish.None?
  }

  /** `configure(opts)`. The middleware it returns is modelled as the `Config` it
      closes over. */
  method Configure(opts: Option<ConfigureOptions>) returns (config: Config)
    modifies TableOf(opts)
    ensures config == Resolve(if opts.Some? then opts.value.baseUrl else None,
                              old(SuppliedSuffixes(opts)),
                              if opts.Some? then opts.value.fetch else None)
    ensures Configured(config)
    ensures forall t | t in TableOf(opts) :: t.Args() == AsArgs(config.suffixes)
  {
    var baseUrl, fetch := None, None;
    if opts.Some? {
      baseUrl, fetch := opts.value.baseUrl, opts.value.fetch;
    }
    var base := OrElse(baseUrl, "");
    var names;
    if opts.Some? && opts.value.suffixes.Some? {
      var table := opts.value.suffixes.value;
      table.request := Some(OrElse(table.request, DefaultRequest));
      table.success := Some(OrElse(table.success, DefaultSuccess));
      table.failure := Some(OrElse(table.failure, DefaultFailure));
      table.finish := Some(OrElse(table.finish, DefaultFinish));
      names := SuffixNames(table.request.value, table.success.value, table.failure.value, table.finish.value);
    } else {
      names := Fill(NoSuffixes);
    }
    var transport := if fetch.Some? then fetch.value else IsomorphicFetch;
    config := Config(base, names, transport, None, None, None, None);
  }
}
