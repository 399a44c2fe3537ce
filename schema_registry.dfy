/** The registry client: three commands against AWS Glue, each one remote
    `send` whose outcome is normalised into a `Result`. The Glue client, the
    configured registry name and the generated schema name are inputs: the
    client object is never updated, so every method becomes a function from
    its arguments and the outcome of its one call to the command it sent and
    the `Result` it returned. Nothing escapes as an exception. */
module SchemaRegistry {
  import opened Outcomes

  datatype DataFormat = JSON | AVRO | PROTOBUF

  datatype Compatibility =
    NONE | DISABLED | BACKWARD | BACKWARD_ALL | FORWARD | FORWARD_ALL | FULL | FULL_ALL

  /** The wire name of a data format. */
  function DataFormatName(f: DataFormat): string
  {
    match f
    case JSON => "JSON"
    case AVRO => "AVRO"
    case PROTOBUF => "PROTOBUF"
  }

  /** The wire name of a compatibility mode. */
  function CompatibilityName(c: Compatibility): string
  {
    match c
    case NONE => "NONE"
    case DISABLED => "DISABLED"
    case BACKWARD => "BACKWARD"
    case BACKWARD_ALL => "BACKWARD_ALL"
    case FORWARD => "FORWARD"
    case FORWARD_ALL => "FORWARD_ALL"
    case FULL => "FULL"
    case FULL_ALL => "FULL_ALL"
  }

  /** The data format with a given wire name, if any: the inverse of `DataFormatName`. */
  function DataFormatNamed(s: string): (r: Option<DataFormat>)
    ensures r.Some? ==> DataFormatName(r.value) == s
    ensures r.None? ==> forall f: DataFormat :: DataFormatName(f) != s
  {
    if s == "JSON" then Some(JSON)
    else if s == "AVRO" then Some(AVRO)
    else if s == "PROTOBUF" then Some(PROTOBUF)
    else None
  }

  /** The compatibility mode with a given wire name, if any: the inverse of `CompatibilityName`. */
  function CompatibilityNamed(s: string): (r: Option<Compatibility>)
    ensures r.Some? ==> CompatibilityName(r.value) == s
    ensures r.None? ==> forall c: Compatibility :: CompatibilityName(c) != s
  {
    if s == "NONE" then Some(NONE)
    else if s == "DISABLED" then Some(DISABLED)
    else if s == "BACKWARD" then Some(BACKWARD)
    else if s == "BACKWARD_ALL" then Some(BACKWARD_ALL)
    else if s == "FORWARD" then Some(FORWARD)
    else if s == "FORWARD_ALL" then Some(FORWARD_ALL)
    else if s == "FULL" then Some(FULL)
    else if s == "FULL_ALL" then Some(FULL_ALL)
    else None
  }

  /** Arguments of the validity check. The format is declared as a data format,
      but the only caller forwards whatever string its own enum accepted, so the
      model keeps it a string. */
  datatype CheckSchemaVersionValidityArgs = CheckSchemaVersionValidityArgs(format: string, definition: string)

  datatype CreateSchemaArgs = CreateSchemaArgs(format: DataFormat, definition: string, compatibility: Compatibility)

  datatype RegisterSchemaVersionArgs = RegisterSchemaVersionArgs(registryName: string, schemaName: string, definition: string)

  /** The commands sent to Glue, with the fields the client fills in. */
  datatype GlueCommand =
    | CheckSchemaVersionValidityCommand(dataFormat: string, schemaDefinition: string)
    | CreateSchemaCommand(registryName: string, schemaName: string, dataFormat: string,
                          schemaDefinition: string, compatibility: string)
    | RegisterSchemaVersionCommand(registryName: string, schemaName: string, schemaDefinition: string)

  /** The response fields the client reads; each may be absent. */
  datatype CheckValidityResponse = CheckValidityResponse(valid: Option<bool>, error: Option<string>)

  datatype CreateSchemaResponse = CreateSchemaResponse(schemaName: Option<string>, schemaVersionId: Option<string>)

  datatype RegisterSchemaVersionResponse =
    RegisterSchemaVersionResponse(schemaVersionId: Option<string>, versionNumber: Option<int>, status: Option<string>)

  /** Success data of each command. */
  datatype Validity = Validity(isValid: bool, error: Option<string>)

  datatype CreatedSchema = CreatedSchema(name: string, initialVersionId: string)

  /** `status` is any string Glue returns, not only the four documented states. */
  datatype RegisteredVersion = RegisteredVersion(versionId: string, versionNumber: int, status: string)

  /** The failure taxonomy: the call threw, or it returned without the fields required. */
  datatype Reason = UnknownError(error: Fault) | EmptyResponse

  /** What one method call did: the commands it sent, and what it returned. */
  datatype Invocation<+D> = Invocation(sent: seq<GlueCommand>, result: Result<D, Reason>)

  /** `checkSchemaVersionValidity`: one check command; a throw becomes
      UNKNOWN_ERROR; a response is a success whose `isValid` is true exactly when
      `Valid` was true and whose `error` is the response's, unchanged. */
  function CheckSchemaVersionValidity(args: CheckSchemaVersionValidityArgs, outcome: Call<CheckValidityResponse>)
    : (inv: Invocation<Validity>)
    ensures inv.sent == [CheckSchemaVersionValidityCommand(args.format, args.definition)]
    ensures inv.result.Success? <==> outcome.Returned?
    ensures outcome.Threw? ==> inv.result == Failure(UnknownError(outcome.error))
    ensures outcome.Returned? ==>
      inv.result.Success? &&
      (inv.result.data.isValid <==> outcome.response.valid == Some(true)) &&
      inv.result.data.error == outcome.response.error
  {
    var sent := [CheckSchemaVersionValidityCommand(args.format, args.definition)];
    match outcome
    case Threw(e) => Invocation(sent, Failure(UnknownError(e)))
    case Returned(res) => Invocation(sent, Success(Validity(OrFalse(res.valid), res.error)))
  }

  /** `createSchema`: one create command naming the schema with the freshly
      generated name (never one from the caller) in the configured registry.
      A throw becomes UNKNOWN_ERROR; a response missing or with an empty
      `SchemaName` or `SchemaVersionId` becomes EMPTY_RESPONSE; otherwise both
      fields are copied into the success data. */
  function CreateSchema(registryName: string, generatedName: string, args: CreateSchemaArgs,
                        outcome: Call<CreateSchemaResponse>): (inv: Invocation<CreatedSchema>)
    ensures inv.sent == [CreateSchemaCommand(registryName, generatedName, DataFormatName(args.format),
                                             args.definition, CompatibilityName(args.compatibility))]
    ensures outcome.Threw? <==> inv.result.Failure? && inv.result.reason.UnknownError?
    ensures outcome.Threw? ==> inv.result == Failure(UnknownError(outcome.error))
    ensures inv.result == Failure(EmptyResponse) <==>
      outcome.Returned? &&
      !(TruthyString(outcome.response.schemaName) && TruthyString(outcome.response.schemaVersionId))
    ensures inv.result.Success? ==>
      outcome.Returned? &&
      outcome.response.schemaName == Some(inv.result.data.name) && inv.result.data.name != "" &&
      outcome.response.schemaVersionId == Some(inv.result.data.initialVersionId) &&
      inv.result.data.initialVersionId != ""
  {
    var sent := [CreateSchemaCommand(registryName, generatedName, DataFormatName(args.format),
                                     args.definition, CompatibilityName(args.compatibility))];
    match outcome
    case Threw(e) => Invocation(sent, Failure(UnknownError(e)))
    case Returned(res) =>
      if !TruthyString(res.schemaName) || !TruthyString(res.schemaVersionId) then
        Invocation(sent, Failure(EmptyResponse))
      else
        Invocation(sent, Success(CreatedSchema(res.schemaName.value, res.schemaVersionId.value)))
  }

  /** `registerSchemaVersion`: one register command for the given registry and
      schema. A throw becomes UNKNOWN_ERROR; a response whose `VersionNumber` is
      absent or 0, or whose `SchemaVersionId` or `Status` is absent or empty,
      becomes EMPTY_RESPONSE; otherwise the three fields are copied verbatim. */
  function RegisterSchemaVersion(args: RegisterSchemaVersionArgs, outcome: Call<RegisterSchemaVersionResponse>)
    : (inv: Invocation<RegisteredVersion>)
    ensures inv.sent == [RegisterSchemaVersionCommand(args.registryName, args.schemaName, args.definition)]
    ensures outcome.Threw? <==> inv.result.Failure? && inv.result.reason.UnknownError?
    ensures outcome.Threw? ==> inv.result == Failure(UnknownError(outcome.error))
    ensures inv.result == Failure(EmptyResponse) <==>
      outcome.Returned? &&
      !(TruthyNumber(outcome.response.versionNumber) && TruthyString(outcome.response.schemaVersionId) &&
        TruthyString(outcome.response.status))
    ensures inv.result.Success? ==>
      outcome.Returned? &&
      outcome.response.schemaVersionId == Some(inv.result.data.versionId) &&
      outcome.response.versionNumber == Some(inv.result.data.versionNumber) &&
      outcome.response.status == Some(inv.result.data.status) &&
      inv.result.data.versionNumber != 0 && inv.result.data.versionId != "" && inv.result.data.status != ""
  {
    var sent := [RegisterSchemaVersionCommand(args.registryName, args.schemaName, args.definition)];
    match outcome
    case Threw(e) => Invocation(sent, Failure(UnknownError(e)))
    case Returned(res) =>
      if !TruthyNumber(res.versionNumber) || !TruthyString(res.schemaVersionId) || !TruthyString(res.status) then
        Invocation(sent, Failure(EmptyResponse))
      else
        Invocation(sent, Success(RegisteredVersion(res.schemaVersionId.value, res.versionNumber.value,
                                                   res.status.value)))
  }

  /** A version number of 0 signals an empty response even when the other fields are present. */
  lemma ZeroVersionNumberIsEmpty(args: RegisterSchemaVersionArgs, versionId: string, status: string)
    ensures RegisterSchemaVersion(args, Returned(RegisterSchemaVersionResponse(Some(versionId), Some(0), Some(status)))).result
            == Failure(EmptyResponse)
  {
  }
}
