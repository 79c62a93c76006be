/**
 * The go-kit endpoints of the use-string service: each one calls the service and shapes what
 * it answers into a response record and an endpoint error. The service itself (a remote call
 * wrapped in a circuit breaker) is a parameter.
 */
module Endpoint {
  import opened Base

  /** `UseStringRequest`: the operation type and its two operands. */
  datatype UseStringRequest = UseStringRequest(requestType: string, a: string, b: string)

  /** `UseStringResponse`: the service's result and, for the plain endpoint, its error text. */
  datatype UseStringResponse = UseStringResponse(result: string, error: string)

  datatype HealthRequest = HealthRequest

  datatype HealthResponse = HealthResponse(status: bool)

  /** What `UseStringService(type, a, b)` returns: a result string and a possibly nil error. */
  datatype ServiceReply = ServiceReply(result: string, err: Option<Error>)

  /** The `Service` interface: the remote string operation and the health check. */
  datatype Service = Service(useString: (string, string, string) -> ServiceReply, healthCheck: () -> bool)

  /** What an endpoint returns: the response and the endpoint error. */
  datatype Reply<R> = Reply(response: R, err: Option<Error>)

  /** `MakeUseStringEndpoint(svc)` applied to a request: the service's error travels inside the
      response, as its text. */
  function UseStringEndpoint(svc: Service, req: UseStringRequest): (r: Reply<UseStringResponse>)
    ensures r.response.result == svc.useString(req.requestType, req.a, req.b).result
    ensures r.err == None
  {
    var reply := svc.useString(req.requestType, req.a, req.b);
    var opErrorString := if reply.err.Some? then reply.err.value.message else "";
    Reply(UseStringResponse(reply.result, opErrorString), None)
  }

  /** `MakeUseStringEndpointWithKit(svc)` applied to a request: the service's error is the
      endpoint error; the response's error text is never filled in. */
  function UseStringEndpointWithKit(svc: Service, req: UseStringRequest): (r: Reply<UseStringResponse>)
    ensures r.response.result == svc.useString(req.requestType, req.a, req.b).result
    ensures r.err == svc.useString(req.requestType, req.a, req.b).err
    ensures r.response.error == ""
  {
    var reply := svc.useString(req.requestType, req.a, req.b);
    var opErrorString := "";
    Reply(UseStringResponse(reply.result, opErrorString), reply.err)
  }

  /** `MakeHealthCheckEndpoint(svc)` applied to a request. */
  function HealthCheckEndpoint(svc: Service, req: HealthRequest): (r: Reply<HealthResponse>)
    ensures r.response.status == svc.healthCheck()
    ensures r.err == None
  {
    Reply(HealthResponse(svc.healthCheck()), None)
  }

  /** The plain endpoint reports an error only in the response: its text is there when the
      service failed, and the text is empty exactly when the service succeeded or failed with
      an empty message. */
  lemma PlainEndpointCarriesErrorText(svc: Service, req: UseStringRequest)
    ensures var reply := svc.useString(req.requestType, req.a, req.b);
      var r := UseStringEndpoint(svc, req);
      && (reply.err.Some? ==> r.response.error == reply.err.value.message)
      && (reply.err.None? ==> r.response.error == "")
      && (r.response.error == "" <==> reply.err.None? || reply.err.value.message == "")
  {
  }

  /** The two use-string endpoints carry the same information: the same result, and the plain
      endpoint's error text is the text of the kit endpoint's error. */
  lemma EndpointsAgree(svc: Service, req: UseStringRequest)
    ensures UseStringEndpoint(svc, req).response.result == UseStringEndpointWithKit(svc, req).response.result
    ensures UseStringEndpoint(svc, req).response.error == ErrorText(UseStringEndpointWithKit(svc, req).err)
  {
  }
}
