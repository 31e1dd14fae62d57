/**
 * How the two chat channels of server.js differ when the provider succeeds:
 * the web handler falls back with `??`, the WhatsApp handler with `||`.
 */
module Channels {
  import opened Wrappers
  import WebChat
  import WhatsApp

  /**
   * The two channels give the same reply exactly when the provider's content
   * is present and non-empty. A missing content gives "…" on the web and the
   * intro on WhatsApp; an empty content is passed through on the web and
   * replaced by the intro on WhatsApp.
   */
  lemma FallbackAsymmetry(content: Option<string>)
    ensures WebChat.Reply(content) == WhatsApp.Reply(content) <==> content.Some? && content.value != ""
    ensures content == Some("") ==> WebChat.Reply(content) == "" && WhatsApp.Reply(content) == WhatsApp.Intro
    ensures content.None? ==> WebChat.Reply(content) == WebChat.Ellipsis && WhatsApp.Reply(content) == WhatsApp.Intro
  {
    if content.None? {
      assert |WebChat.Ellipsis| == 1 && |WhatsApp.Intro| > 1;
    }
  }
}
