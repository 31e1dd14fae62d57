/**
 * The `/api/chat` handler of server.js: the business-specific system prompt,
 * the message list sent to the provider, the `??` reply fallback, and the
 * 200 / 500 JSON replies.
 */
module WebChat {
  import opened Wrappers
  import opened JsValues
  import Provider
  import opened Wire

  const DefaultBusinessName: string := "Mi Negocio"
  const PromptHead: string := "Eres un asistente de ventas para la empresa "
  const PromptTail: string :=
    ".\nRespondes claro y breve, captas datos (nombre, teléfono, email) y ofreces agendar una llamada."
    + "\nSi la pregunta no es del negocio, pides reformular."
  const MaxTokens: nat := 300
  /** The reply used when the provider's content is missing: one U+2026 character. */
  const Ellipsis: string := "…"
  const FailureText: string := "Fallo en el chat"

  /** The one reply the handler gives on every failure. */
  const FailureReply: JsonReply := JsonReply(500, JObj(map["error" := JStr(FailureText)]))

  /** The two fields destructured from the request body; `None` when a field is absent. */
  datatype ChatRequest = ChatRequest(messages: Option<Json>, business: Option<Json>)

  /** What the handler sends to the provider (`None`: it throws before calling) and what it replies. */
  datatype ChatExchange = ChatExchange(sent: Option<Provider.Request>, reply: JsonReply)

  /** `business?.name`: only an object has a `name` property; anything else reads as undefined. */
  function NameProperty(business: Option<Json>): (r: Option<Json>)
    ensures r.Some? <==> business.Some? && business.value.JObj? && "name" in business.value.fields
    ensures r.Some? ==> r.value == business.value.fields["name"]
  {
    match business
    case Some(JObj(fields)) => if "name" in fields then Some(fields["name"]) else None
    case _ => None
  }

  /**
   * `${business?.name ?? 'Mi Negocio'}`: the default replaces a missing or
   * null name only (an empty name stays empty); any other value goes through
   * the template string conversion, which may throw (`None`).
   */
  function BusinessName(business: Option<Json>): (r: Option<string>)
    ensures NameProperty(business).None? || NameProperty(business) == Some(JNull) ==> r == Some(DefaultBusinessName)
    ensures business.Some? && business.value.JObj? ==>
      var fields := business.value.fields;
      && ("name" !in fields || fields["name"] == JNull ==> r == Some(DefaultBusinessName))
      && ("name" in fields && fields["name"].JStr? ==> r == Some(fields["name"].s))
    ensures forall v :: NameProperty(business) == Some(v) && v != JNull ==> r == TemplateString(v)
    ensures r.None? <==> exists v :: NameProperty(business) == Some(v) && v != JNull && TemplateString(v).None?
  {
    var v := NameProperty(business);
    if v.None? || v.value == JNull then Some(DefaultBusinessName) else TemplateString(v.value)
  }

  /** The web system prompt for a business name. */
  function SystemPrompt(name: string): (r: string)
    ensures PromptName(r) == Some(name)
  {
    var r := PromptHead + name + PromptTail;
    assert r[..|PromptHead|] == PromptHead;
    assert r[|r| - |PromptTail|..] == PromptTail;
    assert r[|PromptHead|..|r| - |PromptTail|] == name;
    r
  }

  /** Reads the business name back out of a web system prompt; `None` if `prompt` is not one. */
  function PromptName(prompt: string): Option<string> {
    if |prompt| >= |PromptHead| + |PromptTail|
      && prompt[..|PromptHead|] == PromptHead
      && prompt[|prompt| - |PromptTail|..] == PromptTail
    then Some(prompt[|PromptHead|..|prompt| - |PromptTail|])
    else None
  }

  /** Different business names give different prompts. */
  lemma SystemPromptInjective(a: string, b: string)
    requires SystemPrompt(a) == SystemPrompt(b)
    ensures a == b
  {
    assert Some(a) == PromptName(SystemPrompt(a)) == PromptName(SystemPrompt(b)) == Some(b);
  }

  /**
   * `...(messages ?? [])` inside an array literal: an absent or null field
   * contributes nothing, an array its elements unchanged, a string one
   * one-character string per code point; any other value is not iterable and
   * the spread throws a TypeError (`None`).
   */
  function CallerMessages(messages: Option<Json>): (r: Option<seq<Json>>)
    ensures messages.None? || messages == Some(JNull) ==> r == Some([])
    ensures messages.Some? && messages.value.JArr? ==> r == Some(messages.value.items)
    ensures messages.Some? && messages.value.JStr? ==>
      r.Some? && |r.value| == |messages.value.s|
      && forall i :: 0 <= i < |r.value| ==> r.value[i] == JStr([messages.value.s[i]])
    ensures r.None? <==> messages.Some? && (messages.value.JBool? || messages.value.JNum? || messages.value.JObj?)
  {
    match messages
    case None => Some([])
    case Some(JNull) => Some([])
    case Some(JArr(items)) => Some(items)
    case Some(JStr(s)) => Some(seq(|s|, i requires 0 <= i < |s| => JStr([s[i]])))
    case Some(_) => None
  }

  /** `completion.choices?.[0]?.message?.content ?? '…'`: only a missing content is replaced. */
  function Reply(content: Option<string>): (r: string)
    ensures content.Some? ==> r == content.value
    ensures content.None? ==> r == Ellipsis
    ensures r == "" <==> content == Some("")
  {
    content.GetOr(Ellipsis)
  }

  /** The reply for the provider's outcome once the call has been made. */
  function Render(outcome: Provider.Outcome): (r: JsonReply)
    ensures r.status == 200 <==> outcome.Success?
    ensures outcome.Failure? ==> r == FailureReply
  {
    match outcome
    case Success(content) => JsonReply(200, JObj(map["reply" := JStr(Reply(content))]))
    case Failure(_) => FailureReply
  }

  /**
   * The whole handler. It builds the prompt and the message list, calls the
   * provider once (whose answer is `outcome`) and renders the result; any
   * exception on the way, thrown before or by the call, becomes the fixed 500
   * reply.
   */
  function HandleChat(req: ChatRequest, outcome: Provider.Outcome): (x: ChatExchange)
    ensures x.sent.Some? <==> BusinessName(req.business).Some? && CallerMessages(req.messages).Some?
    ensures x.reply.status == 200 <==> x.sent.Some? && outcome.Success?
    ensures x.reply.status != 200 ==> x.reply == FailureReply
    ensures x.sent.Some? ==> x.sent.value.model == Provider.ModelName && x.sent.value.maxTokens == MaxTokens
    ensures x.sent.Some? ==>
      x.sent.value.messages
        == [Provider.Message("system", SystemPrompt(BusinessName(req.business).value))] + CallerMessages(req.messages).value
  {
    match BusinessName(req.business)
    case None => ChatExchange(None, FailureReply)
    case Some(name) =>
      match CallerMessages(req.messages)
      case None => ChatExchange(None, FailureReply)
      case Some(caller) =>
        var messages := [Provider.Message("system", SystemPrompt(name))] + caller;
        ChatExchange(Some(Provider.Request(Provider.ModelName, messages, MaxTokens)), Render(outcome))
  }

  /**
   * The provider receives one system message and then the caller's messages
   * in their original order, unchanged.
   */
  lemma SentMessages(req: ChatRequest, outcome: Provider.Outcome)
    requires BusinessName(req.business).Some?
    requires req.messages.Some? && req.messages.value.JArr?
    ensures
      var sent := HandleChat(req, outcome).sent;
      && sent.Some?
      && |sent.value.messages| == 1 + |req.messages.value.items|
      && sent.value.messages[0] == Provider.Message("system", SystemPrompt(BusinessName(req.business).value))
      && sent.value.messages[1..] == req.messages.value.items
  {
  }

  /** With no `messages` field, or a null one, the provider receives only the system message. */
  lemma SentSystemOnly(req: ChatRequest, outcome: Provider.Outcome)
    requires BusinessName(req.business).Some?
    requires req.messages.None? || req.messages == Some(JNull)
    ensures HandleChat(req, outcome).sent
      == Some(Provider.Request(Provider.ModelName,
           [Provider.Message("system", SystemPrompt(BusinessName(req.business).value))], MaxTokens))
  {
    var system := Provider.Message("system", SystemPrompt(BusinessName(req.business).value));
    assert [system] + [] == [system];
  }

  /** A string `messages` reaches the provider as one one-character string per code point, after the system message. */
  lemma SentCodePoints(req: ChatRequest, outcome: Provider.Outcome)
    requires BusinessName(req.business).Some?
    requires req.messages.Some? && req.messages.value.JStr?
    ensures
      var text := req.messages.value.s;
      var sent := HandleChat(req, outcome).sent;
      && sent.Some?
      && |sent.value.messages| == 1 + |text|
      && sent.value.messages[0] == Provider.Message("system", SystemPrompt(BusinessName(req.business).value))
      && forall i :: 0 <= i < |text| ==> sent.value.messages[i + 1] == JStr([text[i]])
  {
    var system := Provider.Message("system", SystemPrompt(BusinessName(req.business).value));
    var caller := CallerMessages(req.messages).value;
    var messages := HandleChat(req, outcome).sent.value.messages;
    assert messages == [system] + caller;
    forall i | 0 <= i < |caller|
      ensures messages[i + 1] == caller[i]
    {
    }
  }

  /** The system prompt names the business: its name when given, otherwise "Mi Negocio". */
  lemma PromptNamesBusiness(req: ChatRequest, outcome: Provider.Outcome)
    requires HandleChat(req, outcome).sent.Some?
    ensures
      var first := HandleChat(req, outcome).sent.value.messages[0];
      && first.JObj? && "content" in first.fields && first.fields["content"].JStr?
      && PromptName(first.fields["content"].s) == BusinessName(req.business)
    ensures req.business.None? ==>
      HandleChat(req, outcome).sent.value.messages[0] == Provider.Message("system", SystemPrompt(DefaultBusinessName))
  {
  }

  /**
   * A successful call is answered with `{reply}` and status 200, the reply
   * being the content whenever it is present, even when empty; only a
   * missing content becomes "…".
   */
  lemma SuccessReply(req: ChatRequest, content: Option<string>)
    requires HandleChat(req, Provider.Success(content)).sent.Some?
    ensures HandleChat(req, Provider.Success(content)).reply
      == JsonReply(200, JObj(map["reply" := JStr(if content.Some? then content.value else Ellipsis)]))
  {
  }

  /**
   * Every failure gives the same reply whatever its cause: status 500 and
   * `{error: 'Fallo en el chat'}`; the cause never reaches the client.
   */
  lemma FailureHidesCause(req: ChatRequest, cause1: string, cause2: string)
    ensures HandleChat(req, Provider.Failure(cause1)).reply == HandleChat(req, Provider.Failure(cause2)).reply
    ensures HandleChat(req, Provider.Failure(cause1)).reply == FailureReply
  {
  }

  /** An empty content from the provider is answered with an empty reply, not "…". */
  lemma EmptyContentGivesEmptyReply()
    ensures HandleChat(ChatRequest(None, None), Provider.Success(Some(""))).reply
      == JsonReply(200, JObj(map["reply" := JStr("")]))
  {
  }

  /** The example exchange: one user turn to "Acme", answered by the provider. */
  lemma AcmeExample()
    ensures
      var req := ChatRequest(Some(JArr([Provider.Message("user", "Hi")])), Some(JObj(map["name" := JStr("Acme")])));
      var x := HandleChat(req, Provider.Success(Some("Hello, welcome to Acme!")));
      && x.reply == JsonReply(200, JObj(map["reply" := JStr("Hello, welcome to Acme!")]))
      && x.sent == Some(Provider.Request(Provider.ModelName,
           [Provider.Message("system", SystemPrompt("Acme")), Provider.Message("user", "Hi")], MaxTokens))
  {
    var business := Some(JObj(map["name" := JStr("Acme")]));
    assert BusinessName(business) == Some("Acme");
    var system := Provider.Message("system", SystemPrompt("Acme"));
    assert [system] + [Provider.Message("user", "Hi")] == [system, Provider.Message("user", "Hi")];
  }
}
