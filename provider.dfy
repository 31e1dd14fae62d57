/**
 * The completion provider as the handlers see it: the request they build and
 * the outcome they get back. The call itself is not modelled; its outcome is
 * an input of every handler.
 */
module Provider {
  import opened Wrappers
  import opened JsValues

  /** The model named in every completion request. */
  const ModelName: string := "gpt-4o-mini"

  /**
   * What a completion call ends in. `Success` carries
   * `completion.choices?.[0]?.message?.content`, which is missing (`None`)
   * when there is no choice, no message or a null content, and may be the
   * empty string. `Failure` is any exception thrown by the call, with the
   * cause the handler would log.
   */
  datatype Outcome = Success(content: Option<string>) | Failure(cause: string)

  /** A completion request: model, message list and output-length bound. */
  datatype Request = Request(model: string, messages: seq<Json>, maxTokens: nat)

  /** A chat message `{ role, content }` as an object literal. */
  function Message(role: string, content: string): Json {
    JObj(map["role" := JStr(role), "content" := JStr(content)])
  }
}

/** What a handler hands back to Express. */
module Wire {
  import opened JsValues

  /** `res.json(body)`, preceded by `res.status(status)` when it is not 200. */
  datatype JsonReply = JsonReply(status: nat, body: Json)

  /** `res.set('Content-Type', contentType)` followed by `res.send(body)`. */
  datatype TextReply = TextReply(status: nat, contentType: string, body: string)
}
