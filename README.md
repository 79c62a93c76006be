# Hystrix gateway router and use-string endpoints in Dafny

This project models the request router of an API gateway. The router is `HystrixHandler.ServeHTTP`:

- It reads the target service's name from the request path.
- It registers one hystrix command per service name, and only once.
- It runs a closure under that command's circuit breaker. The closure asks service discovery and the load balancer for an instance, rewrites the request to `http://address:port/rest` and reverse-proxies it.
- When the whole attempt fails, it answers 500 with the text of the error `hystrix.Do` returns. The fallback always fails with `fallback excute`, and hystrix-go wraps that error together with its cause: `fallback failed with 'fallback excute'. run error was '<cause>'`.

Two small pure parts of the `use-string-service` are modelled beside it. One decodes route variables into a request. The other shapes the endpoints' response records.

Modules, one per source component:

- `Base`: Go's nil-or-value, `(value, error)` results and error values.
- `Text`: the Go standard-library operations the router depends on, each paired with its inverse. `strings.Split` and `strings.Join` on `/` are inverses. `%d` is paired with a decimal parser. The `"%s:%d"` host form is paired with a host/port splitter that reads it back.
- `Gateway` models `gateway/hystrix_handler.go`. The pure specification `Handle` covers one request and `Serve` a sequence of requests. The class `HystrixHandler` holds the mutable `hystrixs` map. `RunCommand` and `ServeHTTP` are proved equal to the specification functions `Forwarding` and `Handle`. `Register` states its new map directly: the old map with the name set to `true`. `Director` assigns the outbound URL object field by field. `CollectInstances` is the loop that copies discovery's answer.
- `Endpoint` models `use-string-service/endpoint/endpoints.go`.
- `Transport` models `use-string-service/transport/transports.go`.

The collaborators are inputs, not code:

- The circuit breaker's decision is a `Gate`: run the command, or short-circuit with the breaker's own error. What `hystrix.Do` then returns follows hystrix-go's `tryFallback`: nil when the run succeeded or the fallback recovered; otherwise an error whose text names the fallback's error and the cause.
- Discovery's instance list, the load balancer's choice and the reverse proxy's result are functions carried in an `Environment`. The model takes them per request, because their answers change over time.
- The use-string `Service` is a pair of functions.

Two behaviours of the path handling are easy to miss, and the model states them as the code has them:

- The service name is element 1 of `strings.Split(path, "/")`, not the first non-empty segment. So `a/orders/x` routes to `orders`, and `//orders` gets 404.
- The code indexes `pathArray[1]` without a check, so a non-empty path without `/` panics. The model states this as the route `IndexOutOfRange`. The outcome writes nothing, registers nothing and has `panicked` set.

## Model

| member | source | states |
|---|---|---|
| `Text.Split` | gateway/hystrix_handler.go:46 | the split has at least one element, and no element contains `/` |
| `Text.SplitHasSecondPiece` | gateway/hystrix_handler.go:46-48 | the split has an element 1 exactly when the string contains `/` |
| `Text.Join` | gateway/hystrix_handler.go:83 | the first element is a prefix of the join, and `/` follows it when there is a second element; `JoinSplit` and `SplitJoin` show it is the inverse of `Split` |
| `Text.JoinSplit` | gateway/hystrix_handler.go:46 | joining the elements of a split with `/` gives back the original string |
| `Text.SplitJoin` | gateway/hystrix_handler.go:83 | splitting a `/`-join of non-empty-list, `/`-free elements gives back exactly those elements |
| `Text.DecimalRoundTrip` | gateway/hystrix_handler.go:89 | the `%d` text of every integer, negative ones included, parses back to that integer |
| `Text.IntToDecimal` | gateway/hystrix_handler.go:89 | the `%d` text is non-empty, starts with `-` exactly for a negative number, is otherwise digits only, and has no leading zero (the only digit string starting with `0` is `0` itself) |
| `Text.HostPort` | gateway/hystrix_handler.go:89 | the host starts with the address, followed by a `:` that is the last `:` in the host |
| `Text.HostPortRoundTrip` | gateway/hystrix_handler.go:89 | the host `address:port` the director builds splits at its last `:` into exactly the instance's address and port, whatever the address contains |
| `Gateway.ParsePath` | gateway/hystrix_handler.go:41-53 | the route is Ignored iff the path is empty; IndexOutOfRange iff the path is non-empty without `/`; a Service route has at least two elements, its name is element 1, is non-empty and contains no `/` |
| `Gateway.ServiceNameIsSecondElement` | gateway/hystrix_handler.go:46-48 | for `prefix/name` and `prefix/name/rest` with `/`-free prefix and non-empty `/`-free name, the route is Service(name) with elements `[prefix, name]` followed by the split of `rest` |
| `Gateway.EmptyServiceName` | gateway/hystrix_handler.go:46-53 | after the first `/`, the route is NotFound exactly when the path ends there or a second `/` follows, and Service exactly otherwise |
| `Gateway.NotFoundTouchesNothing` | gateway/hystrix_handler.go:49-53 | paths `prefix/` and `prefix//rest` (so `/` and `//foo`) write only status 404; the registry is unchanged and `hystrix.Do` is not reached |
| `Gateway.EarlyReturns` | gateway/hystrix_handler.go:41-48 | an empty path writes nothing, leaves the registry alone and does not reach `hystrix.Do`; a non-empty path without `/` does the same but panics |
| `Gateway.RewriteStripsServiceName` | gateway/hystrix_handler.go:81-91 | the forwarded path of `prefix/name/rest` is `/rest`; that of `prefix/name` is `/` |
| `Gateway.Rewrite` | gateway/hystrix_handler.go:81-91 | the outbound URL has scheme `http`, a host that reads back as the instance's address and port, and a path `/` whose remainder splits back into the elements after the service name |
| `Gateway.Forwarding` | gateway/hystrix_handler.go:67-108 | with no instance selected, the run forwards nothing, writes nothing and returns ErrNoInstances; otherwise it forwards the rewritten request and returns nil exactly when the downstream response was relayed, writing nothing when it returns an error |
| `Gateway.Fallback` | gateway/hystrix_handler.go:109-112 | the fallback never recovers: whatever error it gets, it returns `fallback excute` |
| `Gateway.Do` | gateway/hystrix_handler.go:66-112 | `hystrix.Do` returns nil exactly when the admitted run succeeded or the fallback recovered; otherwise it returns hystrix-go's wrapped error naming the fallback's error and the cause, which is the breaker's reason or the run's error |
| `Gateway.Handle` | gateway/hystrix_handler.go:40-130 | only a request with a service name reaches `hystrix.Do`; only such a request may change the registry, which never loses a name; the handler panics exactly on a non-empty path without `/`; the handler writes nothing exactly when the path is empty or the handler panicked |
| `Gateway.RegistersServiceName` | gateway/hystrix_handler.go:55-65 | after a request with a service name, the registry is the old one with that name added; the command is configured exactly when the name was absent; other requests change nothing; only `true` is stored |
| `Gateway.RegistrationIsIdempotent` | gateway/hystrix_handler.go:55-63 | a second request for the same service name configures nothing and leaves the registry unchanged |
| `Gateway.Serve` | gateway/hystrix_handler.go:40-130 | handling requests one after another gives one trace per request and a final registry holding every name the first one held |
| `Gateway.EachCommandConfiguredOnce` | gateway/hystrix_handler.go:55-65 | over any sequence of requests, the final registry keys are the old keys plus every service name requested, so nothing is removed; the configured names have no duplicates; they are exactly the requested names that were not registered before |
| `Gateway.NoInstancesAnswers500` | gateway/hystrix_handler.go:75-78 | when the load balancer fails, the run returns ErrNoInstances, forwards nothing and writes nothing; the caller gets 500 with body `fallback failed with 'fallback excute'. run error was 'query service instance error'` |
| `Gateway.ForwardsToSelectedInstance` | gateway/hystrix_handler.go:75-91 | with an admitted command and a selected instance, `prefix/name/rest` is forwarded to `http`, `address:port`, `/rest` |
| `Gateway.ExampleHost` | gateway/hystrix_handler.go:89 | the instance at 10.0.0.5:9001 gets the host `10.0.0.5:9001` |
| `Gateway.OrdersExample` | gateway/hystrix_handler.go:46-91 | `/orders/123`, admitted, with the instance at 10.0.0.5:9001 selected, runs the `orders` command and is forwarded to `http`, `10.0.0.5:9001`, `/123` |
| `Gateway.EmptyNameExamples` | gateway/hystrix_handler.go:46-53 | `/` and `//foo` are answered with 404 alone, leave the registry as it was and do not reach `hystrix.Do` |
| `Gateway.RunReportsProxyError` | gateway/hystrix_handler.go:93-108 | the run returns exactly the error the proxy's ErrorHandler received, or nil when none was reported |
| `Gateway.CommandOutcome` | gateway/hystrix_handler.go:66-129 | for a request with a service name: the run happens exactly when the breaker admits it; the caller gets only the relayed downstream response when the run was admitted, selected an instance and the proxy reported nothing; in every other case, and only then, the caller gets status 500; its body is the wrapped fallback error whose cause is the breaker's reason, ErrNoInstances or the proxy's error |
| `Gateway.Director` | gateway/hystrix_handler.go:81-91 | the outbound URL object afterwards holds scheme `http`, host `address:port` and path `/` plus the elements after the service name joined by `/` |
| `Gateway.CollectInstances` | gateway/hystrix_handler.go:69-73 | the array filled by the loop holds discovery's instances, in order |
| `Gateway.HystrixHandler.constructor` | gateway/hystrix_handler.go:29-38 | a new handler has an empty registry |
| `Gateway.HystrixHandler.Register` | gateway/hystrix_handler.go:55-65 | check, re-check and insert: afterwards the name maps to `true`; `ConfigureCommand` is reported as called exactly when the name was absent before |
| `Gateway.HystrixHandler.RunCommand` | gateway/hystrix_handler.go:66-108 | the run closure (copy loop, selection, director, proxy, captured `proxyError`) computes the same as the specification `Forwarding` |
| `Gateway.HystrixHandler.ServeHTTP` | gateway/hystrix_handler.go:40-130 | the new registry, the writes and the trace are those of the specification `Handle` for the old registry; the registry keeps storing only `true` |
| `Endpoint.UseStringEndpoint` | use-string-service/endpoint/endpoints.go:42-49 | the response's result is the service's result and the endpoint error is always nil |
| `Endpoint.PlainEndpointCarriesErrorText` | use-string-service/endpoint/endpoints.go:43-48 | the response's error is the service error's text when the service failed and `""` when it did not; it is empty exactly when the service succeeded or failed with an empty message |
| `Endpoint.UseStringEndpointWithKit` | use-string-service/endpoint/endpoints.go:60-71 | the result is the service's result, the endpoint error is the service's error unchanged, and the response's error text is always `""` |
| `Endpoint.EndpointsAgree` | use-string-service/endpoint/endpoints.go:32-74 | the two use-string endpoints give the same result, and the plain one's error text is the text of the kit one's error |
| `Endpoint.HealthCheckEndpoint` | use-string-service/endpoint/endpoints.go:85-92 | the status is the service's health check and the endpoint error is nil |
| `Transport.DecodeStringRequest` | use-string-service/transport/transports.go:58-81 | decoding fails exactly when `type`, `a` or `b` is missing, and then with ErrorBadRequest; otherwise the request holds those three values |
| `Transport.RouteVars` | use-string-service/transport/transports.go:33 | the variables of `/op/{type}/{a}/{b}` are exactly `type`, `a` and `b`, each bound to the request's field of that name |
| `Transport.DecodeRouteVars` | use-string-service/transport/transports.go:58-81 | decoding the variables of `/op/{type}/{a}/{b}` built from a request gives back that request |
| `Transport.DecodeIgnoresOtherKeys` | use-string-service/transport/transports.go:58-81 | two variable maps that agree on presence and value of `type`, `a` and `b` decode to the same result |
| `Transport.DecodedRequestReachesService` | use-string-service/transport/transports.go:75-80 | a decoded request passes `type`, `a` and `b` to the service unchanged through either endpoint |
| `Transport.DecodeHealthCheckRequest` | use-string-service/transport/transports.go:90-92 | decoding a health-check request always succeeds |
| `Transport.HealthCheckAnswersStatus` | use-string-service/transport/transports.go:90-92 | a decoded health check answers the service's health status with a nil error |
| `Transport.EncodeError` | use-string-service/transport/transports.go:94-104 | every error gets status 500 and a body object whose only key is `error`, holding the error text |
| `Transport.MissingVariableAnswers500` | use-string-service/transport/transports.go:59-73 | a request that lacks a route variable is answered with 500 and `{"error": "invalid request paramter"}` |

## Left out

- The circuit breaker's internals are not modelled: rolling counters, the open, half-open and closed transitions, sleep windows, the concurrency ceiling and the command configuration. They live in the hystrix-go library. `hystrix.Do` is an abstract gate (`Gateway.Do`). Either it runs the command and passes a run error to the fallback, or it short-circuits and passes its own error to the fallback. The wrapping of a failed fallback's error follows hystrix-go's `tryFallback`; hystrix-go's own code is not part of this model.
- Gateway.CommandOutcome: does not model hystrix-go's timeout. On a timeout, `Do` returns the wrapped fallback error while the run may still be proxying. That is a race between two goroutines on one ResponseWriter.
- Concurrency is left out. It covers the unlocked first check of `hystrixs`, the mutex, and interleavings of concurrent requests. The mutex at lines 56 and 64 makes only the re-check and the insert atomic. The unlocked read of `hystrixs` at line 55 races with the locked write at line 62; in Go that is a data race on a map, which the runtime may abort on. This sequential model does not capture it.
- The reverse proxy's forwarding and streaming are an oracle (`Environment.forward`). It streams the downstream response (`Relayed`) or reports an error without writing anything. A failure after part of the response was written is not modelled. Only scheme, host and path of the outbound URL are modelled; query, raw path and headers are not.
- The discovery client and load balancer are oracles. The model does not claim that the chosen instance is in the list. The `.(*api.AgentService)` type assertion in the copy loop is not modelled: the instances already have the instance type.
- Logging (`hy.logger.Println`) is not modelled.
- `net/http`'s implicit `200 OK` with an empty body, sent after a handler that wrote nothing (the empty path), is not modelled. The model records only what the handler itself writes.
- The recovery of a handler panic by `net/http` is not modelled. The model only records that the handler panicked.
- The HTTP method is not modelled: the handler routes every method alike.
- Strings are sequences of characters. Go works on bytes, but splitting on `/` gives the same pieces either way, because UTF-8 never puts the byte `/` inside a multi-byte character.
- The go-kit server pipeline is not modelled. It decodes, calls the endpoint, encodes the response and hands errors to `encodeError`. `Transport.MissingVariableAnswers500` assumes that a decoding error goes to `encodeError`. The JSON text written for responses and errors is not modelled. `EncodeError` gives the object that would be encoded, with its status and its Content-Type `application/json;charset=utf-8`. The header `endcodeStringResponse` sets (`application/json;chartset=utf-8`) is not modelled, because that function only writes JSON.
- The `request.(UseStringRequest)` type assertions in the endpoints are not modelled, because the endpoint functions are typed.
- Each endpoint constructor (`MakeXEndpoint(svc)` returning a closure) is modelled as a two-argument function of the service and the request.
- Not part of this model: `use-string-service/service/service.go` (a remote call wrapped in `hystrix.Do` whose result is discarded), `gateway/gateway.go` and `use-string-service/mian.go` (process start-up), `gateway/hystrix-example.go` (a demo of the hystrix API), and `use-string-service/plugins/logging.go` (a logging decorator).
