/**
  The dynamic client link: a client link that, on every call, asks its resolver
  which concrete link to use for (path, input, context) and then forwards the
  call, unchanged, to that link. Links are named by identifiers of type `L` and
  called through a table; every outcome records the calls it made, in order.
 */
module ClientDynamicLink {
  import opened Wrappers

  /** A procedure's address: its ordered path segments. */
  type Path = seq<string>

  /** A cancellation signal; the dynamic link only passes it on. */
  datatype Signal = Signal(aborted: bool)

  /** Per-call options; `context` is `None` when the caller gave none. */
  datatype ClientOptions<C> = ClientOptions(context: Option<C>, signal: Option<Signal>)

  /** A client link's call: (path, input, options) to the output or the error it throws. */
  type LinkCall<!I, !C, O, E> = (Path, I, ClientOptions<C>) -> Result<O, E>

  /** One observable step of a call: the resolver consulted, or a link invoked. */
  datatype Event<I, C, L> =
    | ResolverCalled(path: Path, input: I, context: Option<C>)
    | LinkCalled(link: L, path: Path, input: I, options: ClientOptions<C>)

  /** What a call returned or threw, with the steps it took. */
  datatype CallOutcome<I, C, L, O, E> = CallOutcome(result: Result<O, E>, trace: seq<Event<I, C, L>>)

  /** One call a caller makes through a link. */
  datatype Request<I, C> = Request(path: Path, input: I, options: ClientOptions<C>)

  /** The number of times the resolver was consulted in `trace`. */
  function ResolverCalls<I, C, L>(trace: seq<Event<I, C, L>>): nat {
    if trace == [] then 0
    else (if trace[0].ResolverCalled? then 1 else 0) + ResolverCalls(trace[1..])
  }

  /** The links invoked in `trace`, in order. */
  function LinksCalled<I, C, L>(trace: seq<Event<I, C, L>>): seq<L> {
    if trace == [] then []
    else (if trace[0].LinkCalled? then [trace[0].link] else []) + LinksCalled(trace[1..])
  }

  /** The traces of consecutive calls, joined in order. */
  function Concat<T>(traces: seq<seq<T>>): seq<T> {
    if traces == [] then [] else traces[0] + Concat(traces[1..])
  }

  /** Resolver calls of two traces in sequence add up. */
  lemma {:induction false} ResolverCallsAppend<I, C, L>(a: seq<Event<I, C, L>>, b: seq<Event<I, C, L>>)
    ensures ResolverCalls(a + b) == ResolverCalls(a) + ResolverCalls(b)
  {
    if a == [] {
      assert a + b == b;
    } else {
      assert (a + b)[1..] == a[1..] + b;
      ResolverCallsAppend(a[1..], b);
    }
  }

  /** A dynamic link; its one, read-only, field is the resolver. */
  datatype DynamicLink<!I, !C, L, E> = DynamicLink(linkResolver: (Path, I, Option<C>) -> Result<L, E>)
  {
    /**
      `call(path, input, options)`: consults the resolver exactly once with the
      call's own path, input and context; if it throws, that error is the result
      and no link is called; otherwise the resolved link, and only it, receives
      the same path, input and options, and its output or error is the result.
     */
    function Call<O>(path: Path, input: I, options: ClientOptions<C>, links: L -> LinkCall<I, C, O, E>)
      : (out: CallOutcome<I, C, L, O, E>)
      ensures |out.trace| > 0 && out.trace[0] == ResolverCalled(path, input, options.context)
      ensures ResolverCalls(out.trace) == 1
      ensures forall k :: 0 <= k < |out.trace| && out.trace[k].LinkCalled? ==>
        out.trace[k] == LinkCalled(out.trace[k].link, path, input, options)
      ensures linkResolver(path, input, options.context).Failure? ==>
        out.result == Failure(linkResolver(path, input, options.context).error)
        && LinksCalled(out.trace) == []
      ensures linkResolver(path, input, options.context).Success? ==>
        var link := linkResolver(path, input, options.context).value;
        out.result == links(link)(path, input, options) && LinksCalled(out.trace) == [link]
    {
      var first := ResolverCalled(path, input, options.context);
      match linkResolver(path, input, options.context)
      case Failure(e) => CallOutcome(Failure(e), [first])
      case Success(link) =>
        var output := links(link)(path, input, options);
        var second := LinkCalled(link, path, input, options);
        assert [first, second][1..] == [second] && [second][1..] == [];
        assert LinksCalled([second]) == [link];
        assert ResolverCalls([second]) == 0;
        CallOutcome(output, [first, second])
    }

    /**
      A sequence of calls through the same link. Nothing is cached: every call
      consults the resolver again, and each result is what that call alone returns.
     */
    function CallEach<O>(requests: seq<Request<I, C>>, links: L -> LinkCall<I, C, O, E>)
      : (out: (seq<Result<O, E>>, seq<Event<I, C, L>>))
      ensures |out.0| == |requests|
      ensures ResolverCalls(out.1) == |requests|
      ensures forall k :: 0 <= k < |requests| ==>
        out.0[k] == Call(requests[k].path, requests[k].input, requests[k].options, links).result
      ensures out.1 == Concat(seq(|requests|, k requires 0 <= k < |requests| =>
        Call(requests[k].path, requests[k].input, requests[k].options, links).trace))
    {
      if requests == [] then ([], [])
      else
        var r := requests[0];
        var first := Call(r.path, r.input, r.options, links);
        var rest := CallEach(requests[1..], links);
        ResolverCallsAppend(first.trace, rest.1);
        var traces := seq(|requests|, k requires 0 <= k < |requests| =>
          Call(requests[k].path, requests[k].input, requests[k].options, links).trace);
        assert traces[1..] == seq(|requests| - 1, k requires 0 <= k < |requests| - 1 =>
          Call(requests[1..][k].path, requests[1..][k].input, requests[1..][k].options, links).trace);
        ([first.result] + rest.0, first.trace + rest.1)
    }
  }

  /** Dispatch follows the resolver: a call resolved to `a` invokes `a` only, and returns its output or error verbatim. */
  lemma DispatchFollowsResolver<I, C, L, O, E>(
    dl: DynamicLink<I, C, L, E>, path: Path, input: I, options: ClientOptions<C>,
    links: L -> LinkCall<I, C, O, E>, a: L, b: L)
    requires dl.linkResolver(path, input, options.context) == Success(a)
    requires b != a
    ensures dl.Call(path, input, options, links).result == links(a)(path, input, options)
    ensures a in LinksCalled(dl.Call(path, input, options, links).trace)
    ensures b !in LinksCalled(dl.Call(path, input, options, links).trace)
  {
  }

  /** A failure of the resolved link reaches the caller unchanged. */
  lemma LinkFailurePropagates<I, C, L, O, E>(
    dl: DynamicLink<I, C, L, E>, path: Path, input: I, options: ClientOptions<C>,
    links: L -> LinkCall<I, C, O, E>, a: L, e: E)
    requires dl.linkResolver(path, input, options.context) == Success(a)
    requires links(a)(path, input, options) == Failure(e)
    ensures dl.Call(path, input, options, links).result == Failure(e)
  {
  }

  /** A failure of the resolver reaches the caller unchanged, and no link is invoked. */
  lemma ResolverFailurePropagates<I, C, L, O, E>(
    dl: DynamicLink<I, C, L, E>, path: Path, input: I, options: ClientOptions<C>,
    links: L -> LinkCall<I, C, O, E>, e: E)
    requires dl.linkResolver(path, input, options.context) == Failure(e)
    ensures dl.Call(path, input, options, links).result == Failure(e)
    ensures LinksCalled(dl.Call(path, input, options, links).trace) == []
  {
  }
}
