/**
 * The gateway's request router (`HystrixHandler.ServeHTTP`): it takes the service name from the
 * second '/'-separated element of the request path, registers one hystrix command per service
 * name, and runs, under that command's circuit breaker, a closure that asks discovery and the
 * load balancer for an instance, rewrites the request towards it and reverse-proxies it. A
 * failure of the whole attempt is answered with status 500 and the text of the error
 * `hystrix.Do` returns, which wraps the fallback's error and its cause.
 *
 * The externals are inputs: the breaker's decision (`Gate`), and what discovery, the load
 * balancer and the reverse proxy answer for this request (`Environment`).
 */
module Gateway {
  import opened Base
  import opened Text

  /** `ErrNoInstances`, what the command's run returns when no instance could be selected. */
  const ErrNoInstances := Error("query service instance error")

  /** The one error the command's fallback ever returns. */
  const FallbackError := Error("fallback excute")

  /** A service instance as discovery reports it (`api.AgentService`: ID, Address, Port). */
  datatype Instance = Instance(id: string, address: string, port: int)

  /** Scheme, host and path of an outbound request URL. */
  datatype Target = Target(scheme: string, host: string, path: string)

  /** What the reverse proxy does with the rewritten request: the downstream response is streamed
      back to the caller, or its ErrorHandler is called with an error. */
  datatype ProxyResult = Delivered | ProxyFailed(err: Error)

  /** The answers of the collaborators for one request: the discovery client's instance list for a
      service name, the load balancer's choice from a list, and the reverse proxy's round trip. */
  datatype Environment = Environment(
    discover: string -> seq<Instance>,
    select: seq<Instance> -> Result<Instance>,
    forward: Target -> ProxyResult)

  /** The circuit breaker's decision inside `hystrix.Do`: run the command, or skip it and hand the
      fallback the breaker's own error (circuit open, too many concurrent requests). */
  datatype Gate = Admit | ShortCircuit(reason: Error)

  /** What reaches the caller's ResponseWriter. */
  datatype Write =
    | WriteHeader(code: int)
    | WriteBody(body: string)
    | Relayed(from: Target)   // the downstream response of `from`, streamed by the reverse proxy

  /** How the handler reads a request path. */
  datatype Route =
    | Ignored                                        // empty path: return at once
    | IndexOutOfRange                                // no '/' at all: `pathArray[1]` panics
    | NotFound                                       // empty service name: 404
    | Service(name: string, pathArray: seq<string>)  // a command to run for `name`

  function ParsePath(path: string): (r: Route)
    ensures r.Ignored? <==> path == ""
    ensures r.IndexOutOfRange? <==> path != "" && '/' !in path
    ensures r.Service? ==> |r.pathArray| >= 2 && r.pathArray[1] == r.name
    ensures r.Service? ==> r.name != "" && '/' !in r.name
  {
    if path == "" then Ignored
    else
      var pathArray := Split(path, '/');
      SplitHasSecondPiece(path, '/');
      if |pathArray| < 2 then IndexOutOfRange
      else if pathArray[1] == "" then NotFound
      else Service(pathArray[1], pathArray)
  }

  /** What the director makes of the outbound request: plain http to the selected instance, and
      the path without its service-name element. The host reads back as the instance's address
      and port, and the path after its leading '/' splits back into the elements that followed
      the service name. */
  function Rewrite(selected: Instance, pathArray: seq<string>): (t: Target)
    requires |pathArray| >= 2
    ensures t.scheme == "http"
    ensures SplitHostPort(t.host) == Some((selected.address, selected.port))
    ensures |t.path| >= 1 && t.path[0] == '/'
    ensures |pathArray| >= 3 && (forall i :: 2 <= i < |pathArray| ==> '/' !in pathArray[i]) ==>
              Split(t.path[1..], '/') == pathArray[2..]
  {
    var rest := pathArray[2..];
    var t := Target("http", HostPort(selected.address, selected.port), "/" + Join(rest, '/'));
    HostPortRoundTrip(selected.address, selected.port);
    assert t.path[1..] == Join(rest, '/');
    if |rest| >= 1 && (forall i :: 0 <= i < |rest| ==> '/' !in rest[i]) then
      SplitJoin(rest, '/');
      t
    else
      t
  }

  /** What one run of the command did: where it forwarded the request (if anywhere), what the
      proxy wrote to the caller, and the error it returned to the breaker. */
  datatype RunTrace = RunTrace(target: Option<Target>, writes: seq<Write>, err: Option<Error>)

  /** The command's run closure as a function of the collaborators' answers: without a selected
      instance it forwards nothing and returns ErrNoInstances; otherwise it forwards the rewritten
      request and returns nil exactly when the downstream response was relayed. */
  function Forwarding(name: string, pathArray: seq<string>, env: Environment): (r: RunTrace)
    requires |pathArray| >= 2
    ensures r.target.None? <==> env.select(env.discover(name)).Failure?
    ensures r.target.None? ==> r.writes == [] && r.err == Some(ErrNoInstances)
    ensures r.target.Some? ==> r.target.value == Rewrite(env.select(env.discover(name)).value, pathArray)
    ensures r.target.Some? ==> (r.err.None? <==> r.writes == [Relayed(r.target.value)])
    ensures r.target.Some? && r.err.Some? ==> r.writes == []
  {
    match env.select(env.discover(name))
    case Failure(_) => RunTrace(None, [], Some(ErrNoInstances))
    case Success(selected) =>
      var target := Rewrite(selected, pathArray);
      match env.forward(target)
      case Delivered => RunTrace(Some(target), [Relayed(target)], None)
      case ProxyFailed(e) => RunTrace(Some(target), [], Some(e))
  }

  /** The command's fallback: whatever error it is given, it never recovers and returns
      "fallback excute". */
  function Fallback(err: Error): (r: Option<Error>)
    ensures r.Some? && r.value.message == "fallback excute"
  {
    Some(FallbackError)
  }

  /** The error the fallback is handed: the breaker's reason to skip the run, or the run's error. */
  function Cause(gate: Gate, ran: Option<Error>): Error
    requires gate.ShortCircuit? || ran.Some?
  {
    if gate.ShortCircuit? then gate.reason else ran.value
  }

  /** The error hystrix-go's `tryFallback` returns when the fallback itself fails: one message
      naming the fallback's error and the error that caused the fallback. */
  function FallbackFailed(fallbackErr: Error, cause: Error): Error
  {
    Error("fallback failed with '" + fallbackErr.message + "'. run error was '" + cause.message + "'")
  }

  /** `hystrix.Do` as a gate: nil when the command ran and succeeded, or when the fallback
      recovered; otherwise the wrapped fallback error. `ran` is the run's result and is not looked
      at when the breaker short-circuits. */
  function Do(gate: Gate, ran: Option<Error>, fallback: Error -> Option<Error>): (r: Option<Error>)
    ensures r.None? <==> (gate.Admit? && ran.None?) || fallback(Cause(gate, ran)).None?
    ensures r.Some? ==> r.value == FallbackFailed(fallback(Cause(gate, ran)).value, Cause(gate, ran))
  {
    if gate.Admit? && ran.None? then None
    else
      var cause := Cause(gate, ran);
      match fallback(cause)
      case None => None
      case Some(fallbackErr) => Some(FallbackFailed(fallbackErr, cause))
  }

  /** What the caller gets when the command failed for `cause`: status 500 and the text of the
      error `hystrix.Do` returned. */
  function FallbackAnswer(cause: Error): seq<Write>
  {
    [WriteHeader(500), WriteBody(FallbackFailed(FallbackError, cause).message)]
  }

  /** What the handler did besides writing: the command it ran `hystrix.Do` for, whether it
      configured that command, what the run did if the breaker let it run, and whether it panicked. */
  datatype Trace = Trace(command: Option<string>, configured: bool, run: Option<RunTrace>, panicked: bool)

  datatype Outcome = Outcome(registry: map<string, bool>, writes: seq<Write>, trace: Trace)

  /** The registry only ever stores `true`. */
  ghost predicate AllTrue(registry: map<string, bool>)
  {
    forall name :: name in registry ==> registry[name]
  }

  /** One request handled against the registry of configured command names: only a request with
      a service name reaches `hystrix.Do` and may add to the registry, which never loses a name;
      the handler writes nothing exactly when the path is empty or the handler panicked. */
  function Handle(registry: map<string, bool>, path: string, gate: Gate, env: Environment): (o: Outcome)
    ensures o.trace.command.Some? <==> ParsePath(path).Service?
    ensures o.trace.panicked <==> ParsePath(path).IndexOutOfRange?
    ensures o.writes == [] <==> ParsePath(path).Ignored? || ParsePath(path).IndexOutOfRange?
    ensures registry.Keys <= o.registry.Keys
    ensures !ParsePath(path).Service? ==> o.registry == registry
  {
    match ParsePath(path)
    case Ignored => Outcome(registry, [], Trace(None, false, None, false))
    case IndexOutOfRange => Outcome(registry, [], Trace(None, false, None, true))
    case NotFound => Outcome(registry, [WriteHeader(404)], Trace(None, false, None, false))
    case Service(name, pathArray) =>
      var configured := name !in registry;
      var registry' := if configured then registry[name := true] else registry;
      var run := if gate.Admit? then Some(Forwarding(name, pathArray, env)) else None;
      var err := Do(gate, if run.Some? then run.value.err else None, Fallback);
      var runWrites := if run.Some? then run.value.writes else [];
      var errorWrites := if err.Some? then [WriteHeader(500), WriteBody(err.value.message)] else [];
      Outcome(registry', runWrites + errorWrites, Trace(Some(name), configured, run, false))
  }

  // ---------------------------------------------------------------------------------------------
  // Reading the path

  /** The service name is the element after the first '/', up to the next '/' or the end. */
  lemma {:induction false} ServiceNameIsSecondElement(prefix: string, name: string, rest: string)
    requires '/' !in prefix && '/' !in name && name != ""
    ensures ParsePath(prefix + "/" + name) == Service(name, [prefix, name])
    ensures ParsePath(prefix + "/" + name + "/" + rest) == Service(name, [prefix, name] + Split(rest, '/'))
  {
    SplitOfServicePath(prefix, name);
    SplitOfLongServicePath(prefix, name, rest);
    assert ParsePath(prefix + "/" + name).Service?;
  }

  /** After the first '/', an end of path or a second '/' means an empty service name, and
      exactly those paths are answered with 404. */
  lemma {:induction false} EmptyServiceName(prefix: string, after: string)
    requires '/' !in prefix
    ensures ParsePath(prefix + "/" + after).NotFound? <==> (after == "" || after[0] == '/')
    ensures ParsePath(prefix + "/" + after).Service? <==> (after != "" && after[0] != '/')
  {
    assert prefix + "/" + after == prefix + ['/'] + after;
    SplitAfterPiece(prefix, after, '/');
    var pieces := Split(after, '/');
    if after != [] && after[0] == '/' {
      assert pieces == [""] + Split(after[1..], '/');
    }
  }

  /** The forwarded path is the request path without its service-name element. */
  lemma RewriteStripsServiceName(selected: Instance, prefix: string, name: string, rest: string)
    requires '/' !in prefix && '/' !in name && name != ""
    ensures ParsePath(prefix + "/" + name + "/" + rest).Service?
    ensures Rewrite(selected, ParsePath(prefix + "/" + name + "/" + rest).pathArray).path == "/" + rest
    ensures ParsePath(prefix + "/" + name).Service?
    ensures Rewrite(selected, ParsePath(prefix + "/" + name).pathArray).path == "/"
  {
    ServiceNameIsSecondElement(prefix, name, rest);
    var pathArray := [prefix, name] + Split(rest, '/');
    assert pathArray[2..] == Split(rest, '/');
    JoinSplit(rest, '/');
  }

  // ---------------------------------------------------------------------------------------------
  // One request

  /** An empty path writes nothing and touches neither the registry nor the breaker; a path
      without '/' panics before it does either. */
  lemma EarlyReturns(registry: map<string, bool>, path: string, gate: Gate, env: Environment)
    requires path == "" || '/' !in path
    ensures var o := Handle(registry, path, gate, env);
      && o.writes == [] && o.registry == registry
      && o.trace.command == None && !o.trace.configured
      && (o.trace.panicked <==> path != "")
  {
  }

  /** Paths such as "/" and "//foo" get 404 and nothing else: no registration, no `hystrix.Do`. */
  lemma NotFoundTouchesNothing(registry: map<string, bool>, prefix: string, rest: string, gate: Gate, env: Environment)
    requires '/' !in prefix
    ensures var o := Handle(registry, prefix + "/", gate, env);
      o.writes == [WriteHeader(404)] && o.registry == registry && o.trace.command == None
    ensures var o := Handle(registry, prefix + "//" + rest, gate, env);
      o.writes == [WriteHeader(404)] && o.registry == registry && o.trace.command == None
  {
    EmptyServiceName(prefix, "");
    assert prefix + "/" + "" == prefix + "/";
    EmptyServiceName(prefix, "/" + rest);
    assert prefix + "/" + ("/" + rest) == prefix + "//" + rest;
  }

  /** After a request for a service, its name is registered; nothing else in the registry
      changes, and the command is configured exactly when the name was new. */
  lemma RegistersServiceName(registry: map<string, bool>, path: string, gate: Gate, env: Environment)
    requires AllTrue(registry)
    ensures var o := Handle(registry, path, gate, env);
      && AllTrue(o.registry)
      && (ParsePath(path).Service? ==>
            var name := ParsePath(path).name;
            o.registry == registry[name := true] && o.trace.configured == (name !in registry))
      && (!ParsePath(path).Service? ==> o.registry == registry && !o.trace.configured)
  {
  }

  /** A second request for the same service configures nothing and leaves the registry as it was. */
  lemma RegistrationIsIdempotent(registry: map<string, bool>, path: string, path': string,
                                 gate: Gate, gate': Gate, env: Environment, env': Environment)
    requires AllTrue(registry)
    requires ParsePath(path).Service? && ParsePath(path').Service?
    requires ParsePath(path').name == ParsePath(path).name
    ensures var o := Handle(registry, path, gate, env);
      var o' := Handle(o.registry, path', gate', env');
      o'.registry == o.registry && !o'.trace.configured
  {
    var o := Handle(registry, path, gate, env);
    var name := ParsePath(path).name;
    RegistersServiceName(registry, path, gate, env);
    RegistersServiceName(o.registry, path', gate', env');
    assert o.registry[name := true] == o.registry;
  }

  /** A failed load-balancer choice makes the run return ErrNoInstances without forwarding, and
      the caller gets 500 with the wrapped fallback error naming ErrNoInstances as the cause. */
  lemma NoInstancesAnswers500(registry: map<string, bool>, path: string, env: Environment)
    requires ParsePath(path).Service?
    requires env.select(env.discover(ParsePath(path).name)).Failure?
    ensures var o := Handle(registry, path, Admit, env);
      && o.trace.run == Some(RunTrace(None, [], Some(ErrNoInstances)))
      && o.writes == [WriteHeader(500),
                      WriteBody("fallback failed with '" + "fallback excute" + "'. run error was '"
                                + "query service instance error" + "'")]
  {
  }

  /** When the breaker admits the command and an instance is selected, the request is forwarded
      to `http://address:port/` followed by what came after the service name. */
  lemma ForwardsToSelectedInstance(registry: map<string, bool>, prefix: string, name: string, rest: string,
                                   env: Environment, selected: Instance)
    requires '/' !in prefix && '/' !in name && name != ""
    requires env.select(env.discover(name)) == Success(selected)
    ensures var o := Handle(registry, prefix + "/" + name + "/" + rest, Admit, env);
      && o.trace.command == Some(name)
      && o.trace.run.Some?
      && o.trace.run.value.target == Some(Target("http", HostPort(selected.address, selected.port), "/" + rest))
  {
    var path := prefix + "/" + name + "/" + rest;
    ServiceNameIsSecondElement(prefix, name, rest);
    RewriteStripsServiceName(selected, prefix, name, rest);
    var pathArray := [prefix, name] + Split(rest, '/');
    assert ParsePath(path) == Service(name, pathArray);
    assert Rewrite(selected, pathArray).path == "/" + rest;
  }

  /** The authority built for the instance at 10.0.0.5:9001. */
  lemma ExampleHost()
    ensures HostPort("10.0.0.5", 9001) == "10.0.0.5:9001"
  {
    assert NatToDecimal(90) == NatToDecimal(9) + [DigitChar(0)] == "90";
    assert NatToDecimal(900) == NatToDecimal(90) + [DigitChar(0)] == "900";
    assert NatToDecimal(9001) == NatToDecimal(900) + [DigitChar(1)] == "9001";
  }

  /** `/orders/123`, admitted, with the instance at 10.0.0.5:9001 selected, is forwarded to
      `http://10.0.0.5:9001/123`. */
  lemma OrdersExample(registry: map<string, bool>, env: Environment)
    requires env.select(env.discover("orders")) == Success(Instance("i1", "10.0.0.5", 9001))
    ensures var o := Handle(registry, "/orders/123", Admit, env);
      && o.trace.command == Some("orders")
      && o.trace.run.Some?
      && o.trace.run.value.target == Some(Target("http", "10.0.0.5:9001", "/123"))
  {
    assert "/orders/123" == "" + "/" + "orders" + "/" + "123";
    ForwardsToSelectedInstance(registry, "", "orders", "123", env, Instance("i1", "10.0.0.5", 9001));
    ExampleHost();
    assert "/" + "123" == "/123";
  }

  /** `/` and `//foo` are answered with 404 alone and leave the registry as it was. */
  lemma EmptyNameExamples(registry: map<string, bool>, gate: Gate, env: Environment)
    ensures var o := Handle(registry, "/", gate, env);
      o.writes == [WriteHeader(404)] && o.registry == registry && o.trace.command == None
    ensures var o := Handle(registry, "//foo", gate, env);
      o.writes == [WriteHeader(404)] && o.registry == registry && o.trace.command == None
  {
    assert "/" == "" + "/";
    assert "//foo" == "" + "//" + "foo";
    NotFoundTouchesNothing(registry, "", "foo", gate, env);
  }

  /** The run hands the breaker exactly the error the proxy reported, and nil when it reported none. */
  lemma RunReportsProxyError(registry: map<string, bool>, path: string, env: Environment, selected: Instance)
    requires ParsePath(path).Service?
    requires env.select(env.discover(ParsePath(path).name)) == Success(selected)
    ensures var o := Handle(registry, path, Admit, env);
      var target := Rewrite(selected, ParsePath(path).pathArray);
      && o.trace.run.Some?
      && o.trace.run.value.target == Some(target)
      && o.trace.run.value.err == (match env.forward(target) case Delivered => None case ProxyFailed(e) => Some(e))
  {
  }

  /** For a request that reaches `hystrix.Do`, the caller gets the downstream response exactly
      when the breaker admitted the run, an instance was selected and the proxy reported no
      error; in every other case it gets 500 and the wrapped fallback error, whose cause is the
      breaker's reason, ErrNoInstances or the proxy's error, and nothing else. */
  lemma CommandOutcome(registry: map<string, bool>, path: string, gate: Gate, env: Environment)
    requires ParsePath(path).Service?
    ensures var o := Handle(registry, path, gate, env);
      var name := ParsePath(path).name;
      var selection := env.select(env.discover(name));
      var succeeded := gate.Admit? && selection.Success?
        && env.forward(Rewrite(selection.value, ParsePath(path).pathArray)).Delivered?;
      && o.trace.command == Some(name)
      && (o.trace.run.Some? <==> gate.Admit?)
      && (succeeded ==> o.writes == [Relayed(Rewrite(selection.value, ParsePath(path).pathArray))])
      && (!succeeded <==> WriteHeader(500) in o.writes)
      && (gate.ShortCircuit? ==> o.writes == FallbackAnswer(gate.reason))
      && (gate.Admit? && selection.Failure? ==> o.writes == FallbackAnswer(ErrNoInstances))
      && (gate.Admit? && selection.Success? ==>
            var result := env.forward(Rewrite(selection.value, ParsePath(path).pathArray));
            result.ProxyFailed? ==> o.writes == FallbackAnswer(result.err))
  {
  }

  // ---------------------------------------------------------------------------------------------
  // A sequence of requests

  datatype Request = Request(path: string, gate: Gate, env: Environment)

  /** Requests handled one after another against one registry: the final registry, which holds
      every name the first one held, and one trace per request. */
  function Serve(registry: map<string, bool>, requests: seq<Request>): (r: (map<string, bool>, seq<Trace>))
    ensures registry.Keys <= r.0.Keys
    ensures |r.1| == |requests|
    decreases |requests|
  {
    if requests == [] then (registry, [])
    else
      var o := Handle(registry, requests[0].path, requests[0].gate, requests[0].env);
      var (final, traces) := Serve(o.registry, requests[1..]);
      (final, [o.trace] + traces)
  }

  /** The service names the requests ask for. */
  function ServiceNames(requests: seq<Request>): set<string>
    decreases |requests|
  {
    if requests == [] then {}
    else
      var route := ParsePath(requests[0].path);
      (if route.Service? then {route.name} else {}) + ServiceNames(requests[1..])
  }

  /** The names passed to `hystrix.ConfigureCommand`, in order. */
  function Configured(traces: seq<Trace>): seq<string>
    decreases |traces|
  {
    if traces == [] then []
    else
      (if traces[0].configured && traces[0].command.Some? then [traces[0].command.value] else [])
      + Configured(traces[1..])
  }

  predicate NoDuplicates(names: seq<string>)
  {
    forall i, j :: 0 <= i < j < |names| ==> names[i] != names[j]
  }

  /** Over any sequence of requests, every service name asked for ends up registered, nothing is
      removed, and each name that was new is configured exactly once. */
  lemma {:induction false} EachCommandConfiguredOnce(registry: map<string, bool>, requests: seq<Request>)
    requires AllTrue(registry)
    ensures var (final, traces) := Serve(registry, requests);
      && AllTrue(final)
      && final.Keys == registry.Keys + ServiceNames(requests)
      && NoDuplicates(Configured(traces))
      && (forall name :: name in Configured(traces) <==> name in ServiceNames(requests) && name !in registry)
    decreases |requests|
  {
    if requests != [] {
      var r := requests[0];
      var o := Handle(registry, r.path, r.gate, r.env);
      RegistersServiceName(registry, r.path, r.gate, r.env);
      EachCommandConfiguredOnce(o.registry, requests[1..]);
      var (final, traces) := Serve(o.registry, requests[1..]);
      var head := if o.trace.configured && o.trace.command.Some? then [o.trace.command.value] else [];
      assert Configured([o.trace] + traces) == head + Configured(traces) by {
        assert ([o.trace] + traces)[1..] == traces;
      }
      NoDuplicatesAfterNew(head, Configured(traces));
    }
  }

  /** A list of at most one name none of whose names occur in a duplicate-free list can be put
      in front of it without creating a duplicate. */
  lemma NoDuplicatesAfterNew(head: seq<string>, rest: seq<string>)
    requires |head| <= 1 && NoDuplicates(rest)
    requires forall k :: 0 <= k < |head| ==> head[k] !in rest
    ensures NoDuplicates(head + rest)
  {
    var all := head + rest;
    forall i, j | 0 <= i < j < |all| ensures all[i] != all[j] {
      if i < |head| {
        assert all[j] == rest[j - |head|];
      }
    }
  }

  // ---------------------------------------------------------------------------------------------
  // The handler and its registry, as the source updates them

  /** The outbound request's URL: the reverse proxy's copy of the inbound one, which the director
      overwrites field by field. */
  class OutboundUrl {
    var scheme: string
    var host: string
    var path: string

    constructor (inbound: Target)
      ensures Value() == inbound
    {
      scheme, host, path := inbound.scheme, inbound.host, inbound.path;
    }

    function Value(): Target
      reads this
    {
      Target(scheme, host, path)
    }
  }

  /** The director closure: scheme, host and path of the outbound URL, one assignment each. */
  method Director(url: OutboundUrl, selected: Instance, pathArray: seq<string>)
    requires |pathArray| >= 2
    modifies url
    ensures url.Value() == Rewrite(selected, pathArray)
  {
    var destPath := Join(pathArray[2..], '/');
    url.scheme := "http";
    url.host := HostPort(selected.address, selected.port);
    url.path := "/" + destPath;
  }

  /** The loop that copies discovery's answer into the list handed to the load balancer. */
  method CollectInstances(instances: seq<Instance>) returns (instanceList: seq<Instance>)
    ensures instanceList == instances
  {
    var list := new Instance[|instances|];
    for i := 0 to |instances|
      invariant forall k :: 0 <= k < i ==> list[k] == instances[k]
    {
      list[i] := instances[i];
    }
    instanceList := list[..];
  }

  class HystrixHandler {
    /** The command names registered so far (`hystrixs`). */
    var hystrixs: map<string, bool>

    ghost predicate Valid()
      reads this
    {
      AllTrue(hystrixs)
    }

    constructor ()
      ensures Valid() && hystrixs == map[]
    {
      hystrixs := map[];
    }

    /** Check, re-check under the mutex, configure and insert. Reports whether
        `hystrix.ConfigureCommand` was called. */
    method Register(name: string) returns (configured: bool)
      requires Valid()
      modifies this
      ensures Valid()
      ensures configured <==> name !in old(hystrixs)
      ensures hystrixs == old(hystrixs)[name := true]
    {
      configured := false;
      if name !in hystrixs {
        if name !in hystrixs {
          configured := true;
          hystrixs := hystrixs[name := true];
        }
      }
      assert hystrixs == old(hystrixs)[name := true];
    }

    /** The command's run closure: discovery, selection, director, proxy, and the error the
        proxy's ErrorHandler captured. */
    method RunCommand(name: string, pathArray: seq<string>, inbound: Target, env: Environment) returns (run: RunTrace)
      requires |pathArray| >= 2
      ensures run == Forwarding(name, pathArray, env)
    {
      var instances := env.discover(name);
      var instanceList := CollectInstances(instances);
      var selection := env.select(instanceList);
      if selection.Failure? {
        return RunTrace(None, [], Some(ErrNoInstances));
      }
      var outbound := new OutboundUrl(inbound);
      Director(outbound, selection.value, pathArray);
      var proxyError: Option<Error> := None;
      var writes: seq<Write> := [];
      match env.forward(outbound.Value()) {
        case Delivered =>
          writes := [Relayed(outbound.Value())];
        case ProxyFailed(e) =>
          proxyError := Some(e);
      }
      run := RunTrace(Some(outbound.Value()), writes, proxyError);
    }

    /** `ServeHTTP` for a request whose URL path is `path`. */
    method ServeHTTP(path: string, gate: Gate, env: Environment) returns (writes: seq<Write>, trace: Trace)
      requires Valid()
      modifies this
      ensures Valid()
      ensures Outcome(hystrixs, writes, trace) == Handle(old(hystrixs), path, gate, env)
    {
      if path == "" {
        return [], Trace(None, false, None, false);
      }
      var pathArray := Split(path, '/');
      if |pathArray| < 2 {
        return [], Trace(None, false, None, true);
      }
      var serviceName := pathArray[1];
      if serviceName == "" {
        return [WriteHeader(404)], Trace(None, false, None, false);
      }
      var configured := Register(serviceName);
      var run: Option<RunTrace> := None;
      var ran: Option<Error> := None;
      writes := [];
      if gate.Admit? {
        var r := RunCommand(serviceName, pathArray, Target("", "", path), env);
        run := Some(r);
        ran := r.err;
        writes := r.writes;
      }
      var err := Do(gate, ran, Fallback);
      assert ParsePath(path) == Service(serviceName, pathArray);
      if err.Some? {
        writes := writes + [WriteHeader(500), WriteBody(err.value.message)];
      }
      trace := Trace(Some(serviceName), configured, run, false);
    }
  }
}
