/** What the API routes see of a request, and the error bodies they answer with. */
module Http {
  import opened Outcomes
  import opened Zod

  /** The request method (absent when the framework supplies none) and the parsed JSON body. */
  datatype ApiRequest = ApiRequest(httpMethod: Option<string>, body: JsValue)

  datatype ErrorRes =
    | ValidationErrorRes(message: string, errors: seq<Issue>)
    | InvalidRequestRes(message: string)
    | InternalErrorRes(message: string)
}
