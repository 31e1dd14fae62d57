/**
 * The `/webhooks/whatsapp` handler of server.js: the trimmed user text, the
 * fixed two-message list, the `||` reply fallback, and the TwiML-style reply
 * sent as `text/xml` on success and on failure alike.
 */
module WhatsApp {
  import opened Wrappers
  import opened JsValues
  import opened JsText
  import Provider
  import opened Wire

  const SystemPrompt: string :=
    "Eres un agente de WhatsApp amable. Pide nombre y teléfono si falta, y ofrece agendar."
  /** The reply used when the provider's content is missing or empty. */
  const Intro: string := "Soy tu asistente virtual. " + "Puedo ayudarte 24/7. " + "¿Cómo te llamas?"
  /** The reply used when the provider call throws. */
  const Apology: string := "Ahora mismo no puedo responder, lo siento."
  const MaxTokens: nat := 250
  const ContentType: string := "text/xml"

  const XmlDeclaration: string := "<?xml version=\"1.0\" encoding=\"UTF-8\"?>"
  const ResponseOpen: string := "<Response>"
  const ResponseClose: string := "</Response>"
  const MessageOpen: string := "<Message>"
  const MessageClose: string := "</Message>"
  /** Everything the envelope puts before the reply text. */
  const EnvelopeHead: string := XmlDeclaration + "\n" + ResponseOpen + "\n" + MessageOpen
  /** Everything the envelope puts after the reply text. */
  const EnvelopeTail: string := MessageClose + "\n" + ResponseClose

  /** The form fields of the webhook; `From` is read by the handler but never used. */
  datatype Inbound = Inbound(body: Option<string>, from: Option<string>)

  /** What the handler sends to the provider and what it replies. */
  datatype WhatsAppExchange = WhatsAppExchange(sent: Provider.Request, reply: TextReply)

  /** `req.body.Body?.trim() || ''`: the trimmed text, or "" when `Body` is absent. */
  function UserText(body: Option<string>): (r: string)
    ensures body.None? ==> r == ""
    ensures body.Some? ==> IsTrimOf(r, body.value)
  {
    match body
    case None => ""
    case Some(text) => Trim(text)
  }

  /** `[system, user]`: always exactly these two messages, system first. */
  function Messages(body: Option<string>): (r: seq<Json>)
    ensures |r| == 2
    ensures r[0] == Provider.Message("system", SystemPrompt)
    ensures r[1] == Provider.Message("user", UserText(body))
  {
    [Provider.Message("system", SystemPrompt), Provider.Message("user", UserText(body))]
  }

  /** `completion.choices?.[0]?.message?.content || intro`: an empty content is replaced too. */
  function Reply(content: Option<string>): (r: string)
    ensures r != ""
    ensures content.Some? && content.value != "" ==> r == content.value
    ensures r != Intro ==> content == Some(r)
  {
    if content.Some? && content.value != "" then content.value else Intro
  }

  /** The reply text placed between the fixed head and tail, by plain concatenation. */
  function Envelope(text: string): (r: string)
    ensures EnvelopeText(r) == Some(text)
  {
    var r := EnvelopeHead + text + EnvelopeTail;
    assert r[..|EnvelopeHead|] == EnvelopeHead;
    assert r[|r| - |EnvelopeTail|..] == EnvelopeTail;
    assert r[|EnvelopeHead|..|r| - |EnvelopeTail|] == text;
    r
  }

  /** Reads the text back out of an envelope; `None` if `body` is not one. */
  function EnvelopeText(body: string): Option<string> {
    if |body| >= |EnvelopeHead| + |EnvelopeTail|
      && body[..|EnvelopeHead|] == EnvelopeHead
      && body[|body| - |EnvelopeTail|..] == EnvelopeTail
    then Some(body[|EnvelopeHead|..|body| - |EnvelopeTail|])
    else None
  }

  /**
   * The whole handler. It calls the provider once with the two-message list
   * (whose answer is `outcome`); success and failure alike are answered with
   * status 200, type `text/xml` and an envelope.
   */
  function HandleWhatsApp(msg: Inbound, outcome: Provider.Outcome): (x: WhatsAppExchange)
    ensures x.sent == Provider.Request(Provider.ModelName, Messages(msg.body), MaxTokens)
    ensures x.reply.status == 200 && x.reply.contentType == ContentType
    ensures outcome.Success? ==> EnvelopeText(x.reply.body) == Some(Reply(outcome.content))
    ensures outcome.Failure? ==> EnvelopeText(x.reply.body) == Some(Apology)
  {
    var sent := Provider.Request(Provider.ModelName, Messages(msg.body), MaxTokens);
    match outcome
    case Success(content) => WhatsAppExchange(sent, TextReply(200, ContentType, Envelope(Reply(content))))
    case Failure(_) => WhatsAppExchange(sent, TextReply(200, ContentType, Envelope(Apology)))
  }

  /** `tag` occurs in `s` starting at position `i`. */
  predicate TagAt(s: string, tag: string, i: int) {
    0 <= i <= |s| - |tag| && s[i..i + |tag|] == tag
  }

  predicate NoLt(s: string) {
    forall i :: 0 <= i < |s| ==> s[i] != '<'
  }

  /** `s` holds '<' at position 0 and nowhere else. */
  predicate LtOnlyFirst(s: string) {
    |s| > 1 && s[0] == '<' && forall i :: 0 < i < |s| ==> s[i] != '<'
  }

  /** The second and third characters of each tag of the envelope, and where each holds '<'. */
  lemma TagsLt()
    ensures LtOnlyFirst(XmlDeclaration) && XmlDeclaration[1] == '?'
    ensures LtOnlyFirst(ResponseOpen) && ResponseOpen[1] == 'R'
    ensures LtOnlyFirst(ResponseClose) && ResponseClose[1] == '/' && ResponseClose[2] == 'R'
    ensures LtOnlyFirst(MessageOpen) && MessageOpen[1] == 'M'
    ensures LtOnlyFirst(MessageClose) && MessageClose[1] == '/' && MessageClose[2] == 'M'
  {
  }

  /** The envelope as its nine pieces, in order. */
  lemma EnvelopePieces(text: string)
    ensures Envelope(text) == XmlDeclaration + "\n" + ResponseOpen + "\n" + MessageOpen
      + text + MessageClose + "\n" + ResponseClose
  {
  }

  /** A '<' inside a piece `p` of `s` that holds '<' only first stands where `p` begins. */
  lemma LtInPiece(s: string, a: string, p: string, b: string, i: int)
    requires s == a + p + b && LtOnlyFirst(p)
    requires |a| <= i < |a| + |p| && s[i] == '<'
    ensures i == |a| && s[i + 1] == p[1]
  {
    assert s[i] == p[i - |a|];
    assert s[|a| + 1] == p[1];
  }

  /**
   * When the text holds no '<', the envelope opens exactly one `<Message>`
   * element and closes exactly one, around the text.
   */
  lemma SingleMessageElement(text: string)
    requires NoLt(text)
    ensures forall i :: TagAt(Envelope(text), MessageOpen, i) <==> i == |EnvelopeHead| - |MessageOpen|
    ensures forall i :: TagAt(Envelope(text), MessageClose, i) <==> i == |EnvelopeHead| + |text|
  {
    var s := Envelope(text);
    TagsLt();
    forall i | TagAt(s, MessageOpen, i)
      ensures i == |EnvelopeHead| - |MessageOpen|
    {
      assert s[i] == '<' && s[i + 1] == 'M' by {
        assert s[i..i + |MessageOpen|][0] == s[i];
        assert s[i..i + |MessageOpen|][1] == s[i + 1];
      }
      LtPosition(text, i);
    }
    forall i | TagAt(s, MessageClose, i)
      ensures i == |EnvelopeHead| + |text|
    {
      assert s[i] == '<' && s[i + 1] == '/' && s[i + 2] == 'M' by {
        assert s[i..i + |MessageClose|][0] == s[i];
        assert s[i..i + |MessageClose|][1] == s[i + 1];
        assert s[i..i + |MessageClose|][2] == s[i + 2];
      }
      LtPosition(text, i);
    }
    assert s[|EnvelopeHead| - |MessageOpen|..|EnvelopeHead|] == MessageOpen;
    assert s[|EnvelopeHead| + |text|..|EnvelopeHead| + |text| + |MessageClose|] == MessageClose;
  }

  /** Where a '<' can stand in an envelope whose text holds none, and what follows it there. */
  lemma LtPosition(text: string, i: int)
    requires NoLt(text)
    requires 0 <= i < |Envelope(text)| - 2 && Envelope(text)[i] == '<'
    ensures Envelope(text)[i + 1] == 'M' ==> i == |EnvelopeHead| - |MessageOpen|
    ensures Envelope(text)[i + 1] == '/' && Envelope(text)[i + 2] == 'M' ==> i == |EnvelopeHead| + |text|
  {
    TagsLt();
    EnvelopePieces(text);
    var s := Envelope(text);
    var nl := "\n";
    var p1 := XmlDeclaration + nl;
    var p2 := p1 + ResponseOpen + nl;
    var p3 := p2 + MessageOpen;
    var p4 := p3 + text;
    var p5 := p4 + MessageClose + nl;
    assert s == p5 + ResponseClose;
    // The newlines and the text hold no '<', so only the five tags remain.
    if i < |XmlDeclaration| {
      LtInPiece(s, [], XmlDeclaration, s[|XmlDeclaration|..], i);
    } else if |p1| <= i < |p1| + |ResponseOpen| {
      LtInPiece(s, p1, ResponseOpen, s[|p1| + |ResponseOpen|..], i);
    } else if |p2| <= i < |p3| {
      LtInPiece(s, p2, MessageOpen, s[|p3|..], i);
    } else if |p4| <= i < |p4| + |MessageClose| {
      LtInPiece(s, p4, MessageClose, s[|p4| + |MessageClose|..], i);
    } else if |p5| <= i {
      LtInPiece(s, p5, ResponseClose, [], i);
    }
  }

  /**
   * Every outcome is answered with status 200, type `text/xml` and an
   * envelope; its one `<Message>` element holds the apology on failure, and on
   * success the reply, provided the reply holds no '<' (it is not escaped).
   */
  lemma AlwaysOneMessage(msg: Inbound, outcome: Provider.Outcome)
    requires outcome.Success? ==> NoLt(Reply(outcome.content))
    ensures
      var r := HandleWhatsApp(msg, outcome).reply;
      var text := if outcome.Success? then Reply(outcome.content) else Apology;
      && r == TextReply(200, ContentType, Envelope(text))
      && (forall i :: TagAt(r.body, MessageOpen, i) <==> i == |EnvelopeHead| - |MessageOpen|)
      && (forall i :: TagAt(r.body, MessageClose, i) <==> i == |EnvelopeHead| + |text|)
  {
    var text := if outcome.Success? then Reply(outcome.content) else Apology;
    assert NoLt(Apology);
    SingleMessageElement(text);
  }

  /** A provider content with no '<' gives a reply with none: the intro holds none either. */
  lemma ReplyKeepsNoLt(content: Option<string>)
    requires content.Some? ==> NoLt(content.value)
    ensures NoLt(Reply(content))
  {
    IntroNoLt();
  }

  lemma IntroNoLt()
    ensures NoLt(Intro)
  {
    var a, b, c := "Soy tu asistente virtual. ", "Puedo ayudarte 24/7. ", "¿Cómo te llamas?";
    IntroPiecesNoLt();
    NoLtConcat(a, b);
    NoLtConcat(a + b, c);
  }

  lemma IntroPiecesNoLt()
    ensures NoLt("Soy tu asistente virtual. ")
    ensures NoLt("Puedo ayudarte 24/7. ")
    ensures NoLt("¿Cómo te llamas?")
  {
  }

  lemma NoLtConcat(a: string, b: string)
    requires NoLt(a) && NoLt(b)
    ensures NoLt(a + b)
  {
  }

  /** A failure is answered with the apology envelope, whatever its cause. */
  lemma FailureApologizes(msg: Inbound, cause: string)
    ensures HandleWhatsApp(msg, Provider.Failure(cause)).reply == TextReply(200, ContentType, Envelope(Apology))
  {
  }

  /**
   * The reply is interpolated without escaping, so a reply that itself holds
   * `<Message>` yields an envelope that opens two such elements: the body is
   * not well-formed XML for every reply text.
   */
  lemma ReplyIsNotEscaped()
    ensures
      var body := HandleWhatsApp(Inbound(None, None), Provider.Success(Some(MessageOpen))).reply.body;
      TagAt(body, MessageOpen, |EnvelopeHead| - |MessageOpen|) && TagAt(body, MessageOpen, |EnvelopeHead|)
  {
    var body := Envelope(MessageOpen);
    assert body[|EnvelopeHead| - |MessageOpen|..|EnvelopeHead|] == MessageOpen;
    assert body[|EnvelopeHead|..|EnvelopeHead| + |MessageOpen|] == MessageOpen;
  }

  /** An empty `Body` answered with an empty content: the provider sees "" and the client gets the intro. */
  lemma EmptyBodyGetsIntro()
    ensures
      var x := HandleWhatsApp(Inbound(Some(""), None), Provider.Success(Some("")));
      && x.sent.messages[1] == Provider.Message("user", "")
      && x.reply == TextReply(200, ContentType, Envelope(Intro))
  {
    assert TrimStart("") == "" && TrimEnd("") == "";
  }
}
