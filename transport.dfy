/**
 * The HTTP transport of the use-string service: decoding the route variables of
 * `/op/{type}/{a}/{b}` into a request, decoding a health-check request, and the status and body
 * chosen for an error. Writing headers and JSON to the connection is not modelled.
 */
module Transport {
  import opened Base
  import opened Endpoint

  /** `ErrorBadRequest`. */
  const ErrorBadRequest := Error("invalid request paramter")

  /** `decodeStringRequest` over the route variables `mux.Vars(r)`. */
  function DecodeStringRequest(vars: map<string, string>): (r: Result<UseStringRequest>)
    ensures r.Failure? <==> "type" !in vars || "a" !in vars || "b" !in vars
    ensures r.Failure? ==> r.error == ErrorBadRequest
    ensures r.Success? ==> r.value == UseStringRequest(vars["type"], vars["a"], vars["b"])
  {
    if "type" !in vars then Failure(ErrorBadRequest)
    else
      var requestType := vars["type"];
      if "a" !in vars then Failure(ErrorBadRequest)
      else
        var pa := vars["a"];
        if "b" !in vars then Failure(ErrorBadRequest)
        else
          var pb := vars["b"];
          Success(UseStringRequest(requestType, pa, pb))
  }

  /** The route variables the router extracts for a request to `/op/{type}/{a}/{b}`: exactly the
      three names of the route template, each bound to the request's field of that name. */
  function RouteVars(req: UseStringRequest): (vars: map<string, string>)
    ensures vars.Keys == {"type", "a", "b"}
    ensures vars["type"] == req.requestType && vars["a"] == req.a && vars["b"] == req.b
  {
    map["type" := req.requestType, "a" := req.a, "b" := req.b]
  }

  /** Decoding reads back exactly the request the route variables were made from. */
  lemma DecodeRouteVars(req: UseStringRequest)
    ensures DecodeStringRequest(RouteVars(req)) == Success(req)
  {
  }

  /** Only the three route variables matter: maps that agree on them decode alike. */
  lemma DecodeIgnoresOtherKeys(vars: map<string, string>, vars': map<string, string>)
    requires forall k :: k in {"type", "a", "b"} ==> (k in vars <==> k in vars')
    requires forall k :: k in {"type", "a", "b"} && k in vars && k in vars' ==> vars[k] == vars'[k]
    ensures DecodeStringRequest(vars) == DecodeStringRequest(vars')
  {
    assert "type" in {"type", "a", "b"} && "a" in {"type", "a", "b"} && "b" in {"type", "a", "b"};
  }

  /** `decodeHealthCheckRequest`: whatever the request, an empty health request and no error. */
  function DecodeHealthCheckRequest(): (r: Result<HealthRequest>)
    ensures r.Success?
  {
    Success(HealthRequest)
  }

  /** What `encodeError` sends: its content type, its status and the object it encodes as JSON. */
  datatype ErrorReply = ErrorReply(contentType: string, status: int, body: map<string, string>)

  /** `encodeError`: status 500 for every error, and a one-key object holding the error text. */
  function EncodeError(err: Error): (r: ErrorReply)
    ensures r.status == 500
    ensures r.body.Keys == {"error"} && r.body["error"] == err.message
  {
    ErrorReply("application/json;charset=utf-8", 500, map["error" := err.message])
  }

  /** A decoding failure reaches the client as 500 with the text "invalid request paramter". */
  lemma MissingVariableAnswers500(vars: map<string, string>)
    requires "type" !in vars || "a" !in vars || "b" !in vars
    ensures var r := DecodeStringRequest(vars);
      r.Failure? && EncodeError(r.error) == ErrorReply("application/json;charset=utf-8", 500, map["error" := "invalid request paramter"])
  {
  }

  /** Decoded route variables reach the service unchanged, through either endpoint. */
  lemma DecodedRequestReachesService(req: UseStringRequest, svc: Service)
    ensures var r := DecodeStringRequest(RouteVars(req));
      && r.Success?
      && UseStringEndpoint(svc, r.value).response.result == svc.useString(req.requestType, req.a, req.b).result
      && UseStringEndpointWithKit(svc, r.value).err == svc.useString(req.requestType, req.a, req.b).err
  {
    DecodeRouteVars(req);
  }

  /** A health check, decoded and run, answers the service's health status without error. */
  lemma HealthCheckAnswersStatus(svc: Service)
    ensures var r := DecodeHealthCheckRequest();
      r.Success? && HealthCheckEndpoint(svc, r.value) == Reply(HealthResponse(svc.healthCheck()), None)
  {
  }
}
