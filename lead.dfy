/**
 * The `/api/lead` handler of server.js and the `ADMIN_EMAIL` gate of
 * `enviarLeadEmail`: the form fields are forwarded with an `origen` tag, and
 * the client is always told `{ok: true}`.
 */
module Lead {
  import opened Wrappers
  import opened JsValues
  import opened Wire

  const OriginKey: string := "origen"
  const OriginTag: string := "Landing"

  /** The one reply of the handler. */
  const Acknowledgement: JsonReply := JsonReply(200, JObj(map["ok" := JBool(true)]))

  /** How the forwarding request ended; a failure is caught inside the notifier. */
  datatype Delivery = Delivered | Undelivered(cause: string)

  /** The forwarding request: the configured address and the JSON payload. */
  datatype Post = Post(recipient: string, payload: map<string, Json>)

  /** What the notifier did: nothing, or one forwarding request and how it ended. */
  datatype Notice = Skipped | Attempted(post: Post, delivery: Delivery)

  datatype LeadExchange = LeadExchange(notice: Notice, reply: JsonReply)

  /** `{ ...lead, origen: 'Landing' }`: every field kept, `origen` added or overridden. */
  function Tagged(fields: map<string, Json>): (r: map<string, Json>)
    ensures r.Keys == fields.Keys + {OriginKey}
    ensures r[OriginKey] == JStr(OriginTag)
    ensures forall k :: k in fields && k != OriginKey ==> r[k] == fields[k]
  {
    fields[OriginKey := JStr(OriginTag)]
  }

  /** `process.env.ADMIN_EMAIL` is truthy: set and not empty. */
  predicate Configured(adminEmail: Option<string>) {
    adminEmail.Some? && adminEmail.value != ""
  }

  /**
   * `enviarLeadEmail(lead)`: without a configured address, nothing is sent;
   * otherwise one request carries the lead to that address, and however it
   * ends (`delivery`) nothing is thrown.
   */
  function Notify(adminEmail: Option<string>, lead: map<string, Json>, delivery: Delivery): (n: Notice)
    ensures n.Skipped? <==> !Configured(adminEmail)
    ensures n.Attempted? ==> n.post == Post(adminEmail.value, lead) && n.delivery == delivery
  {
    if Configured(adminEmail) then Attempted(Post(adminEmail.value, lead), delivery) else Skipped
  }

  /** The whole handler: tag the form fields, notify, and acknowledge. */
  function HandleLead(fields: map<string, Json>, adminEmail: Option<string>, delivery: Delivery): (x: LeadExchange)
    ensures x.reply == Acknowledgement
    ensures x.notice.Skipped? <==> !Configured(adminEmail)
    ensures x.notice.Attempted? ==>
      && x.notice.post.payload.Keys == fields.Keys + {OriginKey}
      && x.notice.post.payload[OriginKey] == JStr(OriginTag)
      && forall k :: k in fields && k != OriginKey ==> x.notice.post.payload[k] == fields[k]
    ensures x.notice.Attempted? ==> x.notice.post.recipient == adminEmail.value && x.notice.delivery == delivery
  {
    LeadExchange(Notify(adminEmail, Tagged(fields), delivery), Acknowledgement)
  }

  /**
   * The client's reply depends on nothing: not the fields, not the
   * configuration, not how the forwarding ended.
   */
  lemma ReplyIndependent(
    fields1: map<string, Json>, adminEmail1: Option<string>, delivery1: Delivery,
    fields2: map<string, Json>, adminEmail2: Option<string>, delivery2: Delivery)
    ensures HandleLead(fields1, adminEmail1, delivery1).reply == HandleLead(fields2, adminEmail2, delivery2).reply
  {
  }

  /** A client-supplied `origen` is overridden; the other fields are forwarded unchanged. */
  lemma OriginOverridden(fields: map<string, Json>, adminEmail: string, delivery: Delivery)
    requires adminEmail != "" && OriginKey in fields
    ensures HandleLead(fields, Some(adminEmail), delivery).notice
      == Attempted(Post(adminEmail, fields[OriginKey := JStr(OriginTag)]), delivery)
    ensures (fields - {OriginKey}) == (Tagged(fields) - {OriginKey})
  {
  }

  /** An empty form is still forwarded (with only its tag) and acknowledged. */
  lemma EmptyFormForwarded(adminEmail: string)
    requires adminEmail != ""
    ensures HandleLead(map[], Some(adminEmail), Delivered)
      == LeadExchange(Attempted(Post(adminEmail, map[OriginKey := JStr(OriginTag)]), Delivered), Acknowledgement)
  {
  }
}
