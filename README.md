# Channel adaptation of a multi-channel chat relay, in Dafny

The relay (`server.js`) answers three kinds of request. A web chat widget posts
a conversation to `/api/chat`. A landing-page form posts a lead to `/api/lead`.
A WhatsApp messaging provider posts an incoming message to `/webhooks/whatsapp`.
The two chat routes forward the conversation to a hosted completion provider.
They then turn its answer, or its failure, into the channel's format: JSON for
the widget, a TwiML-style XML envelope for WhatsApp. The lead route forwards the
form to an e-mail webhook and acknowledges once the forwarding request settles.

This project models the part of each handler that decides what is sent and
what is answered. Each handler is a pure function. The completion call becomes
an input `Provider.Outcome`: either `Success(content)`, where the content may be
missing or empty, or `Failure(cause)`. The lead delivery becomes an input
`Lead.Delivery`. The `ADMIN_EMAIL` setting becomes an optional-string input of
the lead handler. Request bodies are JSON values (`JsValues.Json`). This makes
the JavaScript behaviour explicit:

- `??` replaces only null or undefined.
- `business?.name` reads a `name` key, which only a parsed object can have; a
  missing, null, string, number or array `business` gives no name.
- Spreading a string yields its code points.
- Spreading a number, boolean or object throws a TypeError.
- The template-literal conversion of a name can throw.

Modules:

- `Wrappers`: `Option`.
- `JsValues`: the JSON datatype, template string conversion, integer rendering.
- `JsText`: `String.prototype.trim` and what it means.
- `Provider`, `Wire`: the provider request and outcome; the HTTP replies.
- `WebChat`: the `/api/chat` handler.
- `WhatsApp`: the `/webhooks/whatsapp` handler.
- `Channels`: how the two chat channels' reply fallbacks differ.
- `Lead`: the `/api/lead` handler and the `ADMIN_EMAIL` gate.

Where a caller might expect more than the code gives, the model follows the
code:

- A web reply can be empty: an empty provider content is passed through as
  `{reply: ""}` (`WebChat.EmptyContentGivesEmptyReply`).
- A WhatsApp body is not always well-formed XML with one message element: the
  reply is interpolated without escaping. The envelope has exactly one
  `<Message>` element whenever the reply holds no `<`
  (`WhatsApp.AlwaysOneMessage`); a reply holding `<Message>` opens a second
  (`WhatsApp.ReplyIsNotEscaped`).
- A WhatsApp request does not always get an XML reply: a `Body` that is not a
  string (a repeated form field, which arrives as an array, or a non-string
  value in a JSON body, since the JSON body parser of server.js:11 runs on
  every route) has no callable `Body?.trim`, and calling it throws a TypeError
  before the handler's `try` (server.js:73). No XML reply is sent (see "Left
  out"). A `null` JSON `Body` is treated like an absent one and gives `''`.
- The lead acknowledgement is not immediate: the handler awaits the forwarding
  request before it replies (server.js:65-66; see "Left out").

## Model

| member | source | states |
|---|---|---|
| `JsValues.NatToDecimal` | server.js:40 | A number's rendering in a template is a non-empty string of digits with no leading zero |
| `JsValues.NatToDecimalRoundTrip` | server.js:40 | Reading that rendering back gives the number |
| `JsValues.IntToDecimal` | server.js:40 | A non-negative number renders as digits with no leading zero that read back as the number; a negative one as a minus sign followed by such digits for its absolute value |
| `JsValues.TemplateString` | server.js:40 | A string substitutes as itself; a boolean as "true"/"false"; null as "null"; a number as its decimal rendering; an array as the join of its elements; an object throws exactly when it has an own `toString` key, and otherwise gives "[object Object]" |
| `JsValues.JoinItems` | server.js:40 | Joining an array's elements throws exactly when some non-null element's conversion throws; no elements give ""; one element gives its conversion, "" for null |
| `JsValues.JoinAppend` | server.js:40 | Two non-empty runs of elements join as the first run's text, ",", then the second's: each element contributes its own text, in order, one comma apart |
| `JsText.TrimStart` | server.js:73 | The result is a suffix of the input, everything dropped is white space, and it does not start with white space |
| `JsText.TrimEnd` | server.js:73 | The result is a prefix of the input, everything dropped is white space, and it does not end with white space |
| `JsText.Trim` | server.js:73 | The result is a slice of the input with only white space around it and none at either end |
| `JsText.TrimOfUnique` | server.js:73 | A string has exactly one trimmed form |
| `JsText.TrimAtUnique` | server.js:73 | Two trims of one string, wherever they start, are the same string |
| `JsText.TrimCharacterized` | server.js:73 | Any trimmed form of a string is what `Trim` returns |
| `JsText.TrimIdempotent` | server.js:73 | Trimming twice is trimming once |
| `WebChat.NameProperty` | server.js:40 | `business?.name` is present exactly when `business` is an object with a `name` key, and is then that key's value |
| `WebChat.BusinessName` | server.js:40 | When `business?.name` is undefined (no business, or a business that is not an object with a `name` key) or null, the name is "Mi Negocio"; any other name value gives its template conversion (a string as given, even when empty); the conversion throws exactly when the name value's conversion throws |
| `WebChat.SystemPrompt` | server.js:40-42 | The business name can be read back out of the prompt |
| `WebChat.SystemPromptInjective` | server.js:40-42 | Different business names give different prompts |
| `WebChat.CallerMessages` | server.js:48 | An absent or null `messages` gives no messages; an array gives its elements unchanged; a string gives one string per code point; any other value throws |
| `WebChat.Reply` | server.js:54 | A present content is the reply, even an empty one; a missing content gives "…"; the reply is empty exactly when the content is the empty string |
| `WebChat.Render` | server.js:54-58 | Status 200 exactly on success; every failure gives the fixed 500 reply |
| `WebChat.HandleChat` | server.js:36-59 | The provider is called exactly when the prompt and list can be built, with the system prompt followed by the spread caller messages; status 200 exactly when it is called and succeeds; any other reply is 500 `{error: 'Fallo en el chat'}`; requests name gpt-4o-mini with 300 tokens |
| `WebChat.SentMessages` | server.js:44-49 | The provider gets one system message, then the caller's array unchanged and in order |
| `WebChat.SentSystemOnly` | server.js:46-49 | With an absent or null `messages`, the provider gets only the system message |
| `WebChat.SentCodePoints` | server.js:46-49 | A string `messages` reaches the provider as one one-character string per code point, after the system message |
| `WebChat.PromptNamesBusiness` | server.js:40-49 | The first message sent is the system prompt, which names the business, or "Mi Negocio" when there is no business |
| `WebChat.SuccessReply` | server.js:54-55 | Success answers 200 `{reply}` with the content when present, "…" when missing |
| `WebChat.FailureHidesCause` | server.js:56-58 | Every failure gives the same 500 `{error: 'Fallo en el chat'}`, whatever its cause |
| `WebChat.EmptyContentGivesEmptyReply` | server.js:54-55 | An empty content is answered `{reply: ""}`, not "…" |
| `WebChat.AcmeExample` | server.js:36-59 | The "Acme" exchange sends `[system, user "Hi"]` and replies with the provider's text |
| `WhatsApp.UserText` | server.js:73 | The user text is the trimmed `Body`, or "" when `Body` is absent |
| `WhatsApp.Messages` | server.js:77-80 | The list always has two messages: the fixed system prompt, then the user text |
| `WhatsApp.Reply` | server.js:89 | The reply is never empty; a non-empty content is the reply; otherwise the reply is the intro |
| `WhatsApp.Envelope` | server.js:91-94 | The text can be read back out of the envelope, which is plain concatenation |
| `WhatsApp.HandleWhatsApp` | server.js:72-106 | One request with the two-message list and 250 tokens; every outcome gets status 200, `text/xml`, and an envelope around the reply or the apology |
| `WhatsApp.SingleMessageElement` | server.js:91-94 | For a text with no `<`, the envelope opens and closes exactly one `<Message>` element, around the text |
| `WhatsApp.ReplyKeepsNoLt` | server.js:76-89 | A content with no `<` gives a reply with no `<`; so does a missing or empty one |
| `WhatsApp.AlwaysOneMessage` | server.js:89-104 | On failure, and on success with a `<`-free reply, the response is 200 `text/xml` with exactly one `<Message>` element holding the reply or the apology |
| `WhatsApp.FailureApologizes` | server.js:97-104 | A failure of any cause gives the apology envelope with `text/xml` |
| `WhatsApp.ReplyIsNotEscaped` | server.js:93 | A reply holding `<Message>` gives an envelope that opens two such elements |
| `WhatsApp.EmptyBodyGetsIntro` | server.js:73-96 | An empty `Body` answered with an empty content sends "" and replies with the intro envelope |
| `Channels.FallbackAsymmetry` | server.js:89 | The web reply (line 54, nullish fallback) and the WhatsApp reply (falsy fallback) agree exactly when the content is present and non-empty |
| `Lead.Tagged` | server.js:65 | Every field is kept, and `origen` is added as "Landing" or overrides the client's |
| `Lead.Notify` | server.js:21-33 | Nothing is sent unless `ADMIN_EMAIL` is set and non-empty; otherwise one request carries the lead to that address |
| `Lead.HandleLead` | server.js:63-67 | The reply is always 200 `{ok: true}`; the forwarded payload is the tagged form, sent to the configured address, with the given delivery outcome |
| `Lead.ReplyIndependent` | server.js:63-67 | The reply does not depend on the fields, the configuration or the delivery outcome |
| `Lead.OriginOverridden` | server.js:65 | A client `origen` is replaced and the other fields are forwarded unchanged |
| `Lead.EmptyFormForwarded` | server.js:63-67 | An empty form is forwarded with only its tag and acknowledged |

## Left out

- Express, CORS, body parsing, static files and `app.listen` (server.js:9-12, 110-111). This is transport plumbing.
- The OpenAI client, its startup warning and the `chat.completions.create` calls (server.js:15-18, 44-52, 83-88). Each call is replaced by its outcome, an input of the handler. The model name and `max_tokens` (300 and 250) are kept. The float `temperature: 0.6` is omitted.
- The formsubmit.co request (server.js:24-31). This includes the URL, `encodeURIComponent`, `JSON.stringify` and reading the response. The model keeps only the configured address, the payload and how delivery ended. Any failure there is caught and never reaches the caller.
- The Twilio client and the rule that registers the WhatsApp route only when credentials are set (server.js:70-71). This depends on the environment, and the client is never used.
- Logging with `console.warn` and `console.error` (server.js:16, 32, 57, 98).
- The `From` field of the webhook. It is read (server.js:74) but never used.
- The `Content-Type` header. Express's `res.send` adds `; charset=utf-8` to the type the handler sets. The model records `text/xml`, the value the handler sets.
- Numbers are integers. How a fractional or very large business name number is rendered is not modelled.
- JSON objects are maps. Key order is not modelled, including where `origen` appears in the forwarded JSON.
- Strings are sequences of code points, not UTF-16 code units. `trim` removes only characters from the Basic Multilingual Plane, and string spread iterates code points, so neither is affected.
- A `Body` that is not a string: a repeated form field, which arrives as an array, or a number, boolean, array or object in a JSON body. `Body?.trim` is then undefined, and calling it throws a TypeError outside the handler's `try`, so the request gets no XML reply. What happens next depends on the Express version: Express 4 leaves an unhandled promise rejection, which by Node's default ends the process and with it every channel; Express 5 passes the error to its default handler, which answers 500. The model takes `Body` as an optional string.
- Lead.HandleLead: the acknowledgement is sent only after the forwarding request settles (server.js:65-66), and the fetch has no time-out. A forwarding request that never settles leaves the client unanswered; the model's `Delivery` input assumes it settles.
- A lead body that is a JSON array. The model takes the form fields as an object.
- Whether each caller message is well-formed. The messages go to the provider unchecked. A message the provider rejects ends as a `Failure` outcome.
- Concurrency and isolation between channels. Every handler is a function of its own request and outcome, with no shared state.
- WhatsApp.AlwaysOneMessage: weaker than a promise of well-formed XML with one message element for every outcome. The reply is not escaped, so this holds only for replies without `<`.
