/**
 * The client: the verb facade, the request and response factories, the
 * terminal step that hands the request to the adapter, and `send`, which runs
 * the middleware (a stack, or the client itself) and records what it sent and
 * what came back.
 */
module Clients {
  import opened Wrappers
  import opened Http
  import opened Middleware
  import opened Pipeline
  import opened Curl

  /**
   * The request factory: the message library keeps the method upper-cased,
   * and opens a body stream only for a payload that is not falsy, so a null,
   * empty or "0" payload is an empty body.
   */
  function CreateRequest(verb: string, uri: string, payload: Option<string>, headers: Headers): Request {
    Request(Upper(verb), uri, headers, if payload.None? || FalsyString(payload.value) then "" else payload.value)
  }

  /** `createResponse(...)`, with the same defaults; a null reason is an empty one. */
  function CreateResponse(status: int := 200, headers: Headers := [], payload: Option<string> := None, reason: string := ""): Response {
    Response(status, reason, "1.1", headers, payload.GetOr(""))
  }

  /** The prototype response `send` starts from: status 200, protocol version 1.1, nothing else. */
  lemma ResponseDefaults()
    ensures var r := CreateResponse();
      r.status == 200 && r.version == "1.1" && r.headers == [] && r.body == "" && r.reason == ""
  {
  }

  /**
   * `__invoke`, the terminal step: the adapter's falsy result falls back to the
   * prototype, a response is the result, anything else is an error; an
   * exception from the adapter passes through.
   */
  function Terminal(adapter: Adapter, options: Options, req: Request, proto: Response): (r: Result<Response, Error>)
    ensures adapter(req, proto, options).Failure? ==> r == Failure(adapter(req, proto, options).error)
    ensures adapter(req, proto, options) == Success(Falsy) ==> r == Success(proto)
    ensures adapter(req, proto, options) == Success(NotAResponse) ==> r == Failure(RuntimeException("Wrong response", 0))
    ensures r.Success? <==> adapter(req, proto, options).Success? && !adapter(req, proto, options).value.NotAResponse?
  {
    match adapter(req, proto, options)
    case Failure(e) => Failure(e)
    case Success(Falsy) => Success(proto)
    case Success(ResponseValue(x)) => Success(x)
    case Success(NotAResponse) => Failure(RuntimeException("Wrong response", 0))
  }

  /** The client passed as the stack's terminal continuation; it never returns nothing. */
  function AsContinuation(adapter: Adapter, options: Options): Continuation {
    (q: Request, p: Response) => Lift(Terminal(adapter, options, q, p))
  }

  /**
   * As the stack's terminal, the client gives exactly what its own `__invoke`
   * gives: the stack's fallback to the frame's response never applies to it.
   */
  lemma TerminalSettles(adapter: Adapter, options: Options, req: Request, resp: Response)
    ensures Settle(AsContinuation(adapter, options)(req, resp), resp) == Terminal(adapter, options, req, resp)
  {
    var t := Terminal(adapter, options, req, resp);
    assert AsContinuation(adapter, options)(req, resp) == Lift(t);
  }

  /** What one `send` yields: the client alone as middleware, or the stack with the client as terminal. */
  function Delivered(stages: Option<seq<Stage>>, adapter: Adapter, options: Options, req: Request, proto: Response): Result<Response, Error> {
    match stages
    case None => Terminal(adapter, options, req, proto)
    case Some(s) => Run(s, 0, AsContinuation(adapter, options), req, proto).result
  }

  /** A stack that kept no callable stage delivers what the client alone would. */
  lemma EmptyStackIsClient(adapter: Adapter, options: Options, req: Request, proto: Response)
    ensures Delivered(Some([]), adapter, options, req, proto) == Delivered(None, adapter, options, req, proto)
  {
    TerminalSettles(adapter, options, req, proto);
  }

  /**
   * With a stack of stages that all return `next(...)`, the adapter sees the
   * request and prototype as every stage rewrote them in order, and its
   * answer is the result.
   */
  lemma DelegatingStackReachesAdapter(stages: seq<Stage>, adapter: Adapter, options: Options, req: Request, proto: Response)
    requires forall i :: 0 <= i < |stages| ==> stages[i].Delegate?
    ensures var (q, p) := Thread(stages, 0, |stages|, req, proto);
      Delivered(Some(stages), adapter, options, req, proto) == Terminal(adapter, options, q, p)
  {
    DelegatesReachTerminal(stages, 0, AsContinuation(adapter, options), req, proto);
    var (q, p) := Thread(stages, 0, |stages|, req, proto);
    TerminalSettles(adapter, options, q, p);
  }

  /** Where the default adapter runs: the server's user agent, the engine version, the network. */
  datatype Host = Host(serverUserAgent: Option<string>, phpVersion: string, network: Network)

  /**
   * `new CurlAdapter()` as a callable: base options from the defaults only, the
   * request translated, executed and parsed. Its `__invoke` declares two
   * parameters, so the request options the client passes are not read.
   */
  function CurlBehaviour(host: Host): Adapter {
    (q: Request, p: Response, o: Options) =>
      match Exchange(host.network, BaseOptions(DefaultUserAgent(host.serverUserAgent, host.phpVersion), map[]), q, p)
      case Success(x) => Success(ResponseValue(x))
      case Failure(e) => Failure(e)
  }

  /** The default adapter always answers with a response or raises; it never returns a falsy value. */
  lemma CurlAlwaysAnswers(host: Host, options: Options, req: Request, proto: Response)
    ensures var base := BaseOptions(DefaultUserAgent(host.serverUserAgent, host.phpVersion), map[]);
      Terminal(CurlBehaviour(host), options, req, proto) == Exchange(host.network, base, req, proto)
  {
    var base := BaseOptions(DefaultUserAgent(host.serverUserAgent, host.phpVersion), map[]);
    assert CurlBehaviour(host)(req, proto, options) ==
      match Exchange(host.network, base, req, proto)
      case Success(x) => Success(ResponseValue(x))
      case Failure(e) => Failure(e);
  }

  /** An argument of a facade call, as far as `send`'s parameter list tells them apart. */
  datatype Arg = Null | Str(s: string) | Fields(headers: Headers) | Settings(options: Options)

  const ReadOnlyVerbs: set<string> := {"HEAD", "GET", "DELETE"}
  const BodyVerbs: set<string> := {"POST", "PUT"}

  /**
   * `__call`'s switch on the upper-cased name: a verb without a body gets a
   * null payload before the URI, a verb with a body passes its arguments
   * through, and both are prefixed by the name as called. Any other name is
   * refused before anything is sent.
   */
  function Facade(name: string, args: seq<Arg>): (r: Result<seq<Arg>, Error>)
    ensures r.Success? <==> Upper(name) in ReadOnlyVerbs + BodyVerbs
    ensures Upper(name) in ReadOnlyVerbs ==> r == Success([Str(name), Null] + args)
    ensures Upper(name) in BodyVerbs ==> r == Success([Str(name)] + args)
    ensures r.Failure? ==> r.error == BadMethodCallException("Call unknown method Rebilly\\HttpClient\\Client::" + name)
  {
    var verb := Upper(name);
    if verb == "HEAD" || verb == "GET" || verb == "DELETE" then Success([Str(name), Null] + args)
    else if verb == "POST" || verb == "PUT" then Success([Str(name)] + args)
    else Failure(BadMethodCallException("Call unknown method Rebilly\\HttpClient\\Client::" + name))
  }

  /**
   * The facade ignores case: a name is accepted exactly when its upper-cased
   * form is, and both reshape the arguments alike.
   */
  lemma FacadeIgnoresCase(name: string, args: seq<Arg>)
    ensures Facade(name, args).Success? <==> Facade(Upper(name), args).Success?
    ensures Facade(name, args).Success? ==> Facade(name, args).value[1..] == Facade(Upper(name), args).value[1..]
  {
    UpperIdempotent(name);
    if Facade(name, args).Success? {
      assert Facade(name, args).value[1..] == Facade(Upper(name), args).value[1..];
    }
  }

  /** A call of `send` with its parameters bound. */
  datatype SendCall = SendCall(verb: string, payload: Option<string>, uri: string, headers: Headers, options: Options)

  /** An argument an untyped parameter of `send` can use as a string: a string, or null. */
  predicate Scalar(a: Arg) {
    a.Null? || a.Str?
  }

  /** An empty array, whichever slot it is written for. */
  predicate EmptyArray(a: Arg) {
    (a.Fields? && a.headers == []) || (a.Settings? && a.options == map[])
  }

  /** A string argument as itself; null as the empty string. */
  function TextOf(a: Arg): string
    requires Scalar(a)
  {
    if a.Str? then a.s else ""
  }

  /**
   * Binding the arguments to `send`'s parameter list: at least three
   * arguments; the method, the payload and the URI are untyped (null stands
   * for an empty method or URI, and null or an empty array for no payload);
   * the headers and the options, when given, must be arrays, an empty one
   * standing for none; extra arguments are dropped.
   */
  function Bind(args: seq<Arg>): (r: Result<SendCall, Error>)
    ensures r.Success? <==>
              && |args| >= 3 && Scalar(args[0]) && (Scalar(args[1]) || EmptyArray(args[1])) && Scalar(args[2])
              && (|args| > 3 ==> args[3].Fields? || EmptyArray(args[3]))
              && (|args| > 4 ==> args[4].Settings? || EmptyArray(args[4]))
    ensures r.Success? ==>
              && r.value.verb == TextOf(args[0]) && r.value.uri == TextOf(args[2])
              && r.value.payload == (if args[1].Str? then Some(args[1].s) else None)
              && r.value.headers == (if |args| > 3 && args[3].Fields? then args[3].headers else [])
              && r.value.options == (if |args| > 4 && args[4].Settings? then args[4].options else map[])
  {
    if |args| < 3 then Failure(ArgumentError("too few arguments to send"))
    else if !Scalar(args[0]) || !Scalar(args[2]) then Failure(ArgumentError("array given where a string is used"))
    else if !Scalar(args[1]) && !EmptyArray(args[1]) then Failure(ArgumentError("invalid resource type for the body"))
    else if |args| > 3 && !args[3].Fields? && !EmptyArray(args[3]) then Failure(ArgumentError("headers must be an array"))
    else if |args| > 4 && !args[4].Settings? && !EmptyArray(args[4]) then Failure(ArgumentError("options must be an array"))
    else
      Success(SendCall(TextOf(args[0]),
                       if args[1].Str? then Some(args[1].s) else None,
                       TextOf(args[2]),
                       if |args| > 3 && args[3].Fields? then args[3].headers else [],
                       if |args| > 4 && args[4].Settings? then args[4].options else map[]))
  }

  /** A verb without a body called with only a URI sends that verb to the URI with no payload. */
  lemma ReadOnlyCall(name: string, uri: string)
    requires Upper(name) in ReadOnlyVerbs
    ensures Facade(name, [Str(uri)]).Success?
    ensures Bind(Facade(name, [Str(uri)]).value) == Success(SendCall(name, None, uri, [], map[]))
  {
    assert Facade(name, [Str(uri)]).value == [Str(name), Null, Str(uri)];
  }

  /** A verb with a body called with a payload and a URI sends that verb, with the bound payload, to the URI. */
  lemma BodyCall(name: string, payload: Arg, uri: string)
    requires Upper(name) in BodyVerbs && (payload.Str? || EmptyArray(payload))
    ensures Facade(name, [payload, Str(uri)]).Success?
    ensures Bind(Facade(name, [payload, Str(uri)]).value)
              == Success(SendCall(name, if payload.Str? then Some(payload.s) else None, uri, [], map[]))
  {
    assert Facade(name, [payload, Str(uri)]).value == [Str(name), payload, Str(uri)];
  }

  /**
   * The facade calls of the client's tests bind as intended: `get` and
   * `delete` with a URI, and `post` and `put` with an empty array and a URI,
   * all send their verb to that URI with no payload; `post` with a string
   * payload sends that payload; `show` is refused.
   */
  lemma FacadeCalls(uri: string, payload: string)
    ensures Facade("get", [Str(uri)]).Success?
    ensures Bind(Facade("get", [Str(uri)]).value) == Success(SendCall("get", None, uri, [], map[]))
    ensures Facade("post", [Fields([]), Str(uri)]).Success?
    ensures Bind(Facade("post", [Fields([]), Str(uri)]).value) == Success(SendCall("post", None, uri, [], map[]))
    ensures Facade("put", [Fields([]), Str(uri)]).Success?
    ensures Bind(Facade("put", [Fields([]), Str(uri)]).value) == Success(SendCall("put", None, uri, [], map[]))
    ensures Facade("delete", [Str(uri)]).Success?
    ensures Bind(Facade("delete", [Str(uri)]).value) == Success(SendCall("delete", None, uri, [], map[]))
    ensures Facade("post", [Str(payload), Str(uri)]).Success?
    ensures Bind(Facade("post", [Str(payload), Str(uri)]).value) == Success(SendCall("post", Some(payload), uri, [], map[]))
    ensures Facade("show", [Str(uri)]).Failure?
  {
    assert Upper("get") == "GET";
    ReadOnlyCall("get", uri);
    assert Upper("delete") == "DELETE";
    ReadOnlyCall("delete", uri);
    assert Upper("post") == "POST";
    BodyCall("post", Fields([]), uri);
    BodyCall("post", Str(payload), uri);
    assert Upper("put") == "PUT";
    BodyCall("put", Fields([]), uri);
    assert Upper("show") == "SHOW";
  }

  /**
   * A facade call sends a request whose method is the called name upper-cased,
   * so the adapter sees one of the five verbs whatever case was used; a verb
   * without a body sends no payload and takes the URI first.
   */
  lemma FacadeRequest(name: string, args: seq<Arg>)
    requires Facade(name, args).Success? && Bind(Facade(name, args).value).Success?
    ensures var call := Bind(Facade(name, args).value).value;
      && CreateRequest(call.verb, call.uri, call.payload, call.headers).verb == Upper(name)
      && Upper(name) in ReadOnlyVerbs + BodyVerbs
      && (Upper(name) in ReadOnlyVerbs ==> call.payload == None && Scalar(args[0]) && call.uri == TextOf(args[0]))
      && (Upper(name) in BodyVerbs ==> Scalar(args[1]) && call.uri == TextOf(args[1]))
  {
    var shaped := Facade(name, args).value;
    assert shaped[0] == Str(name);
    if Upper(name) in ReadOnlyVerbs {
      assert shaped[1] == Null && shaped[2] == args[0];
    } else {
      assert shaped[2] == args[1];
    }
  }

  /**
   * The client's own tests, with the client as its only middleware: an adapter
   * that returns nothing leaves the default response as the result, and one
   * that returns something other than a response makes the call raise.
   */
  lemma AdapterScenarios(options: Options, req: Request)
    ensures Delivered(None, (q: Request, p: Response, o: Options) => Success(Falsy), options, req, CreateResponse())
              == Success(CreateResponse())
    ensures Delivered(None, (q: Request, p: Response, o: Options) => Success(NotAResponse), options, req, CreateResponse())
              == Failure(RuntimeException("Wrong response", 0))
  {
  }

  /** The client: its middleware and adapter, and what the last `send` stored. */
  class Client {
    /** The stack built from the middleware list; `null` when the client is its own middleware. */
    const stack: Stack?
    const adapter: Adapter
    var requestOptions: Options
    var lastRequest: Option<Request>
    var lastResponse: Option<Response>

    ghost predicate Valid()
      reads this, stack
    {
      stack != null ==> stack.Valid()
    }

    /**
     * An empty middleware list makes the client its own middleware, any other
     * list a stack of its callable items; no adapter means the cURL adapter.
     */
    constructor (given: Option<Adapter>, middleware: seq<Item>, host: Host)
      ensures Valid()
      ensures (stack == null) <==> middleware == []
      ensures stack != null ==> fresh(stack) && stack.stages == Callables(middleware)
      ensures adapter == if given.Some? then given.value else CurlBehaviour(host)
      ensures requestOptions == map[] && lastRequest == None && lastResponse == None
    {
      if middleware == [] {
        stack := null;
      } else {
        stack := new Stack(middleware);
      }
      var chosen: Adapter := if given.Some? then given.value else CurlBehaviour(host);
      adapter := chosen;
      requestOptions := map[];
      lastRequest := None;
      lastResponse := None;
    }

    /**
     * `send`: store the options and the new request, start from the default
     * response, run the middleware with the client as terminal. On success the
     * result is the last response; on an exception it stays the default one.
     */
    method Send(verb: string, payload: Option<string>, uri: string, headers: Headers, options: Options) returns (r: Result<Response, Error>)
      requires Valid()
      modifies this`requestOptions, this`lastRequest, this`lastResponse, stack
      ensures Valid()
      ensures requestOptions == options
      ensures lastRequest == Some(CreateRequest(verb, uri, payload, headers))
      ensures r == Delivered(if stack == null then None else Some(stack.stages), adapter, options,
                             CreateRequest(verb, uri, payload, headers), CreateResponse())
      ensures lastResponse == Some(if r.Success? then r.value else CreateResponse())
      // the stack keeps its stages and runs them once, with the client as terminal
      ensures stack != null ==>
                var run := Run(stack.stages, 0, AsContinuation(adapter, options), CreateRequest(verb, uri, payload, headers), CreateResponse());
                && stack.stages == old(stack.stages)
                && stack.done == Some(AsContinuation(adapter, options))
                && stack.log == old(stack.log) + run.events
                && stack.cursor == Entries(run.events)
    {
      requestOptions := options;
      var request := CreateRequest(verb, uri, payload, headers);
      lastRequest := Some(request);
      var proto := CreateResponse();
      lastResponse := Some(proto);
      if stack == null {
        r := Terminal(adapter, requestOptions, request, proto);
      } else {
        r := stack.Invoke(request, proto, AsContinuation(adapter, requestOptions));
      }
      if r.Success? {
        lastResponse := Some(r.value);
      }
    }

    /** `__call`: the facade, then `send` with the reshaped arguments; a refused name changes nothing. */
    method Call(name: string, args: seq<Arg>) returns (r: Result<Response, Error>)
      requires Valid()
      modifies this`requestOptions, this`lastRequest, this`lastResponse, stack
      ensures Valid()
      ensures stack != null ==> stack.stages == old(stack.stages)
      ensures Facade(name, args).Failure? ==> r == Failure(Facade(name, args).error)
      ensures Facade(name, args).Success? && Bind(Facade(name, args).value).Failure? ==>
                r == Failure(Bind(Facade(name, args).value).error)
      // nothing is sent: no stage runs, the stack is untouched, and the client keeps its state
      ensures Facade(name, args).Failure? || Bind(Facade(name, args).value).Failure? ==>
                && requestOptions == old(requestOptions)
                && lastRequest == old(lastRequest)
                && lastResponse == old(lastResponse)
                && (stack != null ==> unchanged(stack))
      ensures Facade(name, args).Success? && Bind(Facade(name, args).value).Success? ==>
                var call := Bind(Facade(name, args).value).value;
                && requestOptions == call.options
                && lastRequest == Some(CreateRequest(call.verb, call.uri, call.payload, call.headers))
                && r == Delivered(if stack == null then None else Some(stack.stages), adapter, call.options,
                                  CreateRequest(call.verb, call.uri, call.payload, call.headers), CreateResponse())
                && lastResponse == Some(if r.Success? then r.value else CreateResponse())
                && (stack != null ==>
                      var run := Run(stack.stages, 0, AsContinuation(adapter, call.options),
                                     CreateRequest(call.verb, call.uri, call.payload, call.headers), CreateResponse());
                      && stack.done == Some(AsContinuation(adapter, call.options))
                      && stack.log == old(stack.log) + run.events
                      && stack.cursor == Entries(run.events))
    {
      var shaped := Facade(name, args);
      if shaped.Failure? {
        return Failure(shaped.error);
      }
      var bound := Bind(shaped.value);
      if bound.Failure? {
        return Failure(bound.error);
      }
      var call := bound.value;
      r := Send(call.verb, call.payload, call.uri, call.headers, call.options);
    }

    method GetLastRequest() returns (r: Option<Request>)
      ensures r == lastRequest
    {
      r := lastRequest;
    }

    method GetLastResponse() returns (r: Option<Response>)
      ensures r == lastResponse
    {
      r := lastResponse;
    }
  }
}
