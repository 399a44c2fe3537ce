/** The validity-check route: the body is checked against its own `ReqBody`,
    and on success the registry's validity check runs and its `Result` is
    returned unchanged with status 200. The route has no method guard. */
module ValidityHandler {
  import opened Outcomes
  import opened Zod
  import opened Http
  import SR = SchemaRegistry

  /** The accepted formats; the third is spelled "PROTOBUFF". */
  const FormatOptions: seq<string> := ["JSON", "AVRO", "PROTOBUFF"]

  /** `ReqBody`: `{ format: enum, definition: string }`. */
  const ReqBodyShape: Shape := [("format", EnumField(FormatOptions)), ("definition", StringField)]

  const BodyValidationMessage := "Provided an invalid format and/or definition"

  datatype ResBody = Checked(result: Result<SR.Validity, SR.Reason>) | Error(error: ErrorRes)

  datatype ApiResponse = ApiResponse(status: nat, body: ResBody)

  /** The response, and the arguments of every validity check made. */
  datatype HandlerRun = HandlerRun(response: ApiResponse, checkCalls: seq<SR.CheckSchemaVersionValidityArgs>)

  /** `ReqBody.safeParse(body)`: succeeds exactly when the body has the shape,
      and then carries the format string and the definition. */
  function ParseReqBody(v: JsValue): (r: Result<SR.CheckSchemaVersionValidityArgs, seq<Issue>>)
    ensures r.Success? <==> Conforms(ReqBodyShape, v)
    ensures r.Failure? ==> r.reason == ObjectIssues(ReqBodyShape, v)
    ensures r.Success? ==>
      r.data.format in FormatOptions &&
      Property(v.props, "format") == JsString(r.data.format) &&
      Property(v.props, "definition") == JsString(r.data.definition)
  {
    var issues := ObjectIssues(ReqBodyShape, v);
    if issues != [] then Failure(issues)
    else
      assert Accepts(ReqBodyShape[0].1, Property(v.props, ReqBodyShape[0].0));
      assert Accepts(ReqBodyShape[1].1, Property(v.props, ReqBodyShape[1].0));
      Success(SR.CheckSchemaVersionValidityArgs(Property(v.props, "format").s, Property(v.props, "definition").s))
  }

  /** `handler`: an invalid body gets 400 VALIDATION_ERROR with its issues and
      no check is made; a valid one is checked exactly once and the registry's
      result, success or failure, is the 200 response's body. */
  function Handle(req: ApiRequest, outcome: Call<SR.CheckValidityResponse>): (run: HandlerRun)
    ensures !Conforms(ReqBodyShape, req.body) ==>
      run.response == ApiResponse(400, Error(ValidationErrorRes(BodyValidationMessage,
                                                               ObjectIssues(ReqBodyShape, req.body)))) &&
      run.checkCalls == []
    ensures Conforms(ReqBodyShape, req.body) ==>
      run.checkCalls == [ParseReqBody(req.body).data] &&
      run.response == ApiResponse(200, Checked(SR.CheckSchemaVersionValidity(run.checkCalls[0], outcome).result))
  {
    match ParseReqBody(req.body)
    case Failure(issues) =>
      HandlerRun(ApiResponse(400, Error(ValidationErrorRes(BodyValidationMessage, issues))), [])
    case Success(args) =>
      HandlerRun(ApiResponse(200, Checked(SR.CheckSchemaVersionValidity(args, outcome).result)), [args])
  }

  /** A body naming the format "PROTOBUF" is rejected, whatever else it holds. */
  lemma ProtobufRejected(req: ApiRequest, outcome: Call<SR.CheckValidityResponse>)
    requires req.body.JsObject? && Property(req.body.props, "format") == JsString("PROTOBUF")
    ensures Handle(req, outcome).response.status == 400
    ensures Handle(req, outcome).checkCalls == []
  {
    assert !Accepts(ReqBodyShape[0].1, Property(req.body.props, ReqBodyShape[0].0));
  }

  /** "PROTOBUFF" passes the check and is sent to Glue as the data format. */
  lemma ProtobuffForwarded(req: ApiRequest, definition: string, outcome: Call<SR.CheckValidityResponse>)
    requires req.body == JsObject(map["format" := JsString("PROTOBUFF"), "definition" := JsString(definition)])
    ensures Handle(req, outcome).checkCalls == [SR.CheckSchemaVersionValidityArgs("PROTOBUFF", definition)]
    ensures SR.CheckSchemaVersionValidity(Handle(req, outcome).checkCalls[0], outcome).sent
            == [SR.CheckSchemaVersionValidityCommand("PROTOBUFF", definition)]
  {
    assert Conforms(ReqBodyShape, req.body) by {
      forall k | 0 <= k < |ReqBodyShape|
        ensures Accepts(ReqBodyShape[k].1, Property(req.body.props, ReqBodyShape[k].0))
      {
      }
    }
  }

  /** The answer does not depend on the request method. */
  lemma MethodIsIgnored(req: ApiRequest, otherMethod: Option<string>, outcome: Call<SR.CheckValidityResponse>)
    ensures Handle(req.(httpMethod := otherMethod), outcome) == Handle(req, outcome)
  {
  }

  /** A check that threw is still answered with status 200; the body is the UNKNOWN_ERROR failure. */
  lemma FailedCheckAnsweredWith200(req: ApiRequest, e: Fault)
    requires Conforms(ReqBodyShape, req.body)
    ensures Handle(req, Threw(e)).response == ApiResponse(200, Checked(Failure(SR.UnknownError(e))))
  {
  }
}
