/** The outbound notifier: after a schema version is registered, one message
    describing it is sent to a queue. The SQS client is the outcome of its one
    `send`; the message body is the value that `JSON.stringify` serialises
    (serialisation itself is not modelled). */
module Sqs {
  import opened Outcomes
  import opened Zod

  datatype SendRegisteredSchemaArgs =
    SendRegisteredSchemaArgs(registryName: string, schemaName: string, versionId: string, versionNumber: int)

  /** A `SendMessageCommand`: the queue it targets and the value its body serialises. */
  datatype SendMessageCommand = SendMessageCommand(queueUrl: string, messageBody: JsValue)

  /** The single failure kind of the notifier. */
  datatype SendFailure = UnknownError(error: Fault)

  /** What one call did: the commands sent and the result (`data: {}` on success). */
  datatype SendInvocation = SendInvocation(sent: seq<SendMessageCommand>, result: Result<(), SendFailure>)

  /** The object `args` as a JavaScript value: exactly its four properties. */
  function Payload(args: SendRegisteredSchemaArgs): (v: JsValue)
    ensures v.JsObject?
    ensures v.props.Keys == {"registryName", "schemaName", "versionId", "versionNumber"}
    ensures v.props["registryName"] == JsString(args.registryName)
    ensures v.props["schemaName"] == JsString(args.schemaName)
    ensures v.props["versionId"] == JsString(args.versionId)
    ensures v.props["versionNumber"] == JsNumber(args.versionNumber)
  {
    JsObject(map[
      "registryName" := JsString(args.registryName),
      "schemaName" := JsString(args.schemaName),
      "versionId" := JsString(args.versionId),
      "versionNumber" := JsNumber(args.versionNumber)])
  }

  /** `sendRegisteredSchema`: exactly one message, to the given queue, carrying
      the args; a send that resolves is a success with empty data, a throw is
      UNKNOWN_ERROR carrying the thrown value. */
  function SendRegisteredSchema(queueUrl: string, args: SendRegisteredSchemaArgs, outcome: Call<()>)
    : (inv: SendInvocation)
    ensures inv.sent == [SendMessageCommand(queueUrl, Payload(args))]
    ensures inv.result == Success(()) <==> outcome.Returned?
    ensures outcome.Threw? ==> inv.result == Failure(UnknownError(outcome.error))
  {
    var sent := [SendMessageCommand(queueUrl, Payload(args))];
    match outcome
    case Returned(_) => SendInvocation(sent, Success(()))
    case Threw(e) => SendInvocation(sent, Failure(UnknownError(e)))
  }
}
