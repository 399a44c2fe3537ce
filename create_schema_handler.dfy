/** The create-schema route: an ordered chain of guards with early returns.
    The method must be POST; then the body must match `ReqBody`; then the
    registry's `createSchema` runs; each outcome maps to one response.
    Request logging is not modelled. */
module CreateSchemaHandler {
  import opened Outcomes
  import opened Zod
  import opened Http
  import SR = SchemaRegistry

  const FormatOptions: seq<string> := ["JSON", "AVRO", "PROTOBUF"]

  const CompatibilityOptions: seq<string> :=
    ["NONE", "DISABLED", "BACKWARD", "BACKWARD_ALL", "FORWARD", "FORWARD_ALL", "FULL", "FULL_ALL"]

  /** `ReqBody`: `{ format: enum, definition: string, compatibility: enum }`. */
  const ReqBodyShape: Shape :=
    [("format", EnumField(FormatOptions)), ("definition", StringField), ("compatibility", EnumField(CompatibilityOptions))]

  const SupportedMethods: seq<string> := ["POST"]

  const BodyValidationMessage := "Provided an invalid format, definition and/or compatibility"

  const CreateFailedMessage := "Unable to create schema"

  datatype ResBody = Created(name: string, initialVersionId: string) | Error(error: ErrorRes)

  datatype ApiResponse = ApiResponse(status: nat, body: ResBody)

  /** The response, and the arguments of every `createSchema` call made. */
  datatype HandlerRun = HandlerRun(response: ApiResponse, createCalls: seq<SR.CreateSchemaArgs>)

  /** Every accepted format option names a data format. */
  lemma FormatOptionNamed(s: string)
    requires s in FormatOptions
    ensures SR.DataFormatNamed(s).Some?
  {
  }

  /** Every accepted compatibility option names a compatibility mode. */
  lemma CompatibilityOptionNamed(s: string)
    requires s in CompatibilityOptions
    ensures SR.CompatibilityNamed(s).Some?
  {
  }

  /** `ReqBody.safeParse(body)`: succeeds exactly when the body has the shape,
      and then carries the three fields as the registry's argument type. */
  function ParseReqBody(v: JsValue): (r: Result<SR.CreateSchemaArgs, seq<Issue>>)
    ensures r.Success? <==> Conforms(ReqBodyShape, v)
    ensures r.Failure? ==> r.reason == ObjectIssues(ReqBodyShape, v)
    ensures r.Success? ==>
      Property(v.props, "format") == JsString(SR.DataFormatName(r.data.format)) &&
      Property(v.props, "definition") == JsString(r.data.definition) &&
      Property(v.props, "compatibility") == JsString(SR.CompatibilityName(r.data.compatibility))
  {
    var issues := ObjectIssues(ReqBodyShape, v);
    if issues != [] then Failure(issues)
    else
      assert Accepts(ReqBodyShape[0].1, Property(v.props, ReqBodyShape[0].0));
      assert Accepts(ReqBodyShape[1].1, Property(v.props, ReqBodyShape[1].0));
      assert Accepts(ReqBodyShape[2].1, Property(v.props, ReqBodyShape[2].0));
      FormatOptionNamed(Property(v.props, "format").s);
      CompatibilityOptionNamed(Property(v.props, "compatibility").s);
      var format := SR.DataFormatNamed(Property(v.props, "format").s);
      var compatibility := SR.CompatibilityNamed(Property(v.props, "compatibility").s);
      Success(SR.CreateSchemaArgs(format.value, Property(v.props, "definition").s, compatibility.value))
  }

  /** How a method appears in a template string: `undefined` when absent. */
  function MethodText(httpMethod: Option<string>): string
  {
    if httpMethod.Some? then httpMethod.value else "undefined"
  }

  /** `supportedMethods.includes(method || "")`: an absent or empty method falls
      back to `""`, which is not supported, so only POST passes. */
  predicate MethodSupported(httpMethod: Option<string>): (r: bool)
    ensures r <==> httpMethod == Some("POST")
  {
    (if TruthyString(httpMethod) then httpMethod.value else "") in SupportedMethods
  }

  /** `handler`. The guards run in order and the first that fails answers:
      any method but POST (a missing one included) gets 400 INVALID_REQUEST
      before the body is looked at; a body that does not match gets 400
      VALIDATION_ERROR with its issues; only then is `createSchema` called,
      exactly once, and either failure kind becomes 500 INTERNAL_ERROR with a
      fixed message, while success returns 200 with the name and version id. */
  function Handle(req: ApiRequest, registryName: string, generatedName: string,
                  outcome: Call<SR.CreateSchemaResponse>): (run: HandlerRun)
    ensures run.response.status in {200, 400, 500}
    ensures req.httpMethod != Some("POST") ==>
      run.response == ApiResponse(400, Error(InvalidRequestRes(
        "Request method " + MethodText(req.httpMethod) + " is not supported"))) &&
      run.createCalls == []
    ensures req.httpMethod == Some("POST") && !Conforms(ReqBodyShape, req.body) ==>
      run.response == ApiResponse(400, Error(ValidationErrorRes(BodyValidationMessage,
                                                               ObjectIssues(ReqBodyShape, req.body)))) &&
      run.createCalls == []
    ensures run.createCalls != [] <==> req.httpMethod == Some("POST") && Conforms(ReqBodyShape, req.body)
    ensures run.createCalls != [] ==>
      run.createCalls == [ParseReqBody(req.body).data] &&
      var created := SR.CreateSchema(registryName, generatedName, run.createCalls[0], outcome).result;
      (created.Failure? ==> run.response == ApiResponse(500, Error(InternalErrorRes(CreateFailedMessage)))) &&
      (created.Success? ==>
        run.response == ApiResponse(200, Created(created.data.name, created.data.initialVersionId)))
  {
    if !MethodSupported(req.httpMethod) then
      HandlerRun(ApiResponse(400, Error(InvalidRequestRes(
        "Request method " + MethodText(req.httpMethod) + " is not supported"))), [])
    else
      match ParseReqBody(req.body)
      case Failure(issues) =>
        HandlerRun(ApiResponse(400, Error(ValidationErrorRes(BodyValidationMessage, issues))), [])
      case Success(args) =>
        var result := SR.CreateSchema(registryName, generatedName, args, outcome).result;
        if result.Failure? then
          HandlerRun(ApiResponse(500, Error(InternalErrorRes(CreateFailedMessage))), [args])
        else
          HandlerRun(ApiResponse(200, Created(result.data.name, result.data.initialVersionId)), [args])
  }

  /** The route answers 200 exactly when the request passed both guards and
      Glue returned a response with a non-empty schema name and version id;
      the body then carries those two values. */
  lemma CreatedExactlyOnUsableResponse(req: ApiRequest, registryName: string, generatedName: string,
                                       outcome: Call<SR.CreateSchemaResponse>)
    ensures var run := Handle(req, registryName, generatedName, outcome);
      (run.response.status == 200 <==>
        req.httpMethod == Some("POST") && Conforms(ReqBodyShape, req.body) && outcome.Returned? &&
        TruthyString(outcome.response.schemaName) && TruthyString(outcome.response.schemaVersionId)) &&
      (run.response.status == 200 ==>
        run.response.body == Created(outcome.response.schemaName.value, outcome.response.schemaVersionId.value))
  {
    var run := Handle(req, registryName, generatedName, outcome);
    if req.httpMethod == Some("POST") && Conforms(ReqBodyShape, req.body) {
      var inv := SR.CreateSchema(registryName, generatedName, ParseReqBody(req.body).data, outcome);
      assert run.createCalls != [];
      if outcome.Returned? && TruthyString(outcome.response.schemaName) && TruthyString(outcome.response.schemaVersionId) {
        assert inv.result.Success?;
      }
    }
  }

  /** The generated name is what is sent to Glue: no part of the request body
      can choose the schema name. */
  lemma SchemaNameIsGenerated(req: ApiRequest, registryName: string, generatedName: string,
                              outcome: Call<SR.CreateSchemaResponse>)
    requires req.httpMethod == Some("POST") && Conforms(ReqBodyShape, req.body)
    ensures var run := Handle(req, registryName, generatedName, outcome);
      |run.createCalls| == 1 &&
      SR.CreateSchema(registryName, generatedName, run.createCalls[0], outcome).sent[0].schemaName == generatedName &&
      SR.CreateSchema(registryName, generatedName, run.createCalls[0], outcome).sent[0].registryName == registryName
  {
  }
}
