/** `options_method`: the handler that answers CORS preflight requests. */
module OptionsMethod {
  import opened Values

  /** A response body: the empty string, a dict holding a message, or a
      JSON text. */
  datatype Body = Empty | Message(message: string) | Json(text: string)

  /** A Lambda proxy response; `headers` is `None` when the dict has no
      `headers` key. */
  datatype Response = Response(statusCode: int, headers: Option<Item>, body: Body)

  /** The headers of the preflight answer. */
  const PreflightHeaders: Item := map[
    "Access-Control-Allow-Methods" := Str("*"),
    "Access-Control-Allow-Origin" := Str("*"),
    "Access-Control-Allow-Credentials" := Bool(true),
    "Access-Control-Allow-Headers" := Str("Content-Type,X-Amz-Date,Authorization, authorization,X-Api-Key,X-Amz-Security-Token")]

  /** The headers of the error answer; the last key is spelled `AllowHeaders`. */
  const ErrorHeaders: Item := map[
    "Access-Control-Allow-Methods" := Str("*"),
    "Access-Control-Allow-Origin" := Str("*"),
    "Access-Control-Allow-Credentials" := Bool(true),
    "AllowHeaders" := Str("Content-Type,X-Amz-Date,authorization,X-Api-Key,X-Amz-Security-Token")]

  const UnsupportedMessage := "this metdho is not supported. check your http method"

  /** `json.dumps({'message': str(e)})` for the `KeyError('httpMethod')` a
      missing method raises. */
  const MissingMethodBody := "{\"message\": \"'httpMethod'\"}"

  /** `lambda_handler(event, context)`. */
  function LambdaHandler(event: Item): (r: Response)
    ensures r.statusCode == 200 <==> "httpMethod" in event && event["httpMethod"] == Str("OPTIONS")
    ensures r.statusCode == 400 <==> "httpMethod" in event && event["httpMethod"] != Str("OPTIONS")
    ensures r.statusCode == 500 <==> "httpMethod" !in event
    ensures r.statusCode == 200 ==> r.headers == Some(PreflightHeaders) && r.body == Empty
    ensures r.statusCode == 400 ==> r.headers == None && r.body == Message(UnsupportedMessage)
    ensures r.statusCode == 500 ==> r.headers == Some(ErrorHeaders) && r.body == Json(MissingMethodBody)
  {
    if "httpMethod" !in event then Response(500, Some(ErrorHeaders), Json(MissingMethodBody))
    else if event["httpMethod"] == Str("OPTIONS") then Response(200, Some(PreflightHeaders), Empty)
    else Response(400, None, Message(UnsupportedMessage))
  }

  /** The answer depends on `event["httpMethod"]` alone: two events that agree
      on it get the same answer, whatever else they carry. */
  lemma DependsOnMethodOnly(e1: Item, e2: Item)
    requires ("httpMethod" in e1 <==> "httpMethod" in e2)
    requires "httpMethod" in e1 ==> e1["httpMethod"] == e2["httpMethod"]
    ensures LambdaHandler(e1) == LambdaHandler(e2)
  {
  }
}
