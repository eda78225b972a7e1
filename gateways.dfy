/** The three implementations of the WhatsApp webhook compared: the
    controller's handshake against the adapter's and the legacy processor's,
    and the gateways' replies against the adapter's `send_message!`. */
module Gateways {
  import opened Ruby
  import Adapters
  import Webhooks
  import LegacyProcessor
  import Envelopes
  import WhatsappNormalizer

  /** Query parameters as the adapter and the processor see them: a hash of strings. */
  function AsJson(q: map<string, string>): (p: map<string, Json>)
    ensures p.Keys == q.Keys
    ensures forall k :: k in q ==> p[k] == Str(q[k])
  {
    map k | k in q :: Str(q[k])
  }

  /** With no token configured anywhere, a "subscribe" request without a token
      is accepted by the adapter and by the processor, and refused by the
      controller. */
  lemma HandshakesDisagreeOnMissingToken(q: map<string, string>, env: map<string, string>, config: Adapters.WhatsappConfig)
    requires Webhooks.Param(q, "provider") == "whatsapp" && Webhooks.Param(q, "hub.mode") == "subscribe"
    requires "hub.verify_token" !in q && "WHATSAPP_VERIFY_TOKEN" !in env
    requires config.verifyToken == Null
    ensures Webhooks.VerifyResponse(q, env) == Webhooks.Forbidden
    ensures Adapters.Verify(Adapters.WhatsappProvider, AsJson(q), config).Accepted?
    ensures LegacyProcessor.Verify(AsJson(q), Null).Accepted?
  {
  }

  /** With a present token configured the same way for all three, they accept
      the same requests, and the controller's body is the adapter's challenge
      as text. */
  lemma HandshakesAgreeOnPresentToken(q: map<string, string>, env: map<string, string>, config: Adapters.WhatsappConfig)
    requires Webhooks.Param(q, "provider") == "whatsapp"
    requires !BlankString(Webhooks.Param(env, "WHATSAPP_VERIFY_TOKEN"))
    requires config.verifyToken == Str(Webhooks.Param(env, "WHATSAPP_VERIFY_TOKEN"))
    ensures var c := Webhooks.VerifyResponse(q, env);
            var a := Adapters.Verify(Adapters.WhatsappProvider, AsJson(q), config);
            && (c.status == 200 <==> a.Accepted?)
            && (a.Accepted? <==> LegacyProcessor.Verify(AsJson(q), config.verifyToken).Accepted?)
            && (a.Accepted? ==> c.body == ToS(a.challenge))
  {
    var p := AsJson(q);
    var t := Webhooks.Param(env, "WHATSAPP_VERIFY_TOKEN");
    assert Envelopes.Get(p, "hub.verify_token") == config.verifyToken <==> Webhooks.Param(q, "hub.verify_token") == t;
    assert Envelopes.Get(p, "hub.mode") == Str("subscribe") <==> Webhooks.Param(q, "hub.mode") == "subscribe";
  }

  /** On a text message without a contact `wa_id` whose reply guards pass, each
      gateway's reply is exactly the request the WhatsApp adapter's
      `send_message!` posts for the same payload and access token: the
      processor's for any configured `graph_api_url`, the controller's for the
      default one. */
  lemma RepliesAreAdapterSendMessage(payload: Json, accessToken: string, config: Adapters.WhatsappConfig)
    requires Webhooks.ReplyComputable(payload, accessToken) && WhatsappNormalizer.Constructible(payload)
    requires Webhooks.ReplyGuardsPass(payload, accessToken)
    requires !Truthy(Dig(Dig(payload, WhatsappNormalizer.ValuePath), WhatsappNormalizer.WaIdPath))
    requires Dig(Dig(payload, WhatsappNormalizer.ValuePath), WhatsappNormalizer.MessageTypePath) != Str("interactive")
    requires config.accessToken == Str(accessToken)
    ensures var n := WhatsappNormalizer.Normalize(payload);
            var sent := [Envelopes.Delivery(Adapters.SendUrl(config, n.phoneNumberId),
                                            Envelopes.TextBody(n.from, map["body" := Str("received: " + ToS(n.body))]))];
            && Webhooks.Reply(payload, accessToken, ToS(config.graphApiUrl)) == sent
            && (config.graphApiUrl == Str(Adapters.DefaultGraphApiUrl) ==>
                  Webhooks.Reply(payload, accessToken, Webhooks.ControllerGraphApiUrl) == sent)
  {
    WhatsappNormalizer.SenderFallback(payload);
    WhatsappNormalizer.ButtonIdOnlyWhenInteractive(payload);
  }
}
