/** The legacy `Whatsapp::Processor`: the older gateway object, with the same
    guard chain as the controller but the plain `==` handshake of the adapter
    and the configured `graph_api_url` as reply endpoint. */
module LegacyProcessor {
  import opened Ruby
  import opened Envelopes
  import WhatsappNormalizer
  import Adapters
  import Webhooks

  /** `verify`: a "subscribe" request whose token `==` the expected token is
      answered with its challenge; anything else is forbidden. The shown source
      reads the expected token from `Decidim::Chatbot.config.whatsapp_verify_token`,
      which is not a declared setting and so reads nil. */
  function Verify(params: map<string, Json>, expectedToken: Json): (r: Adapters.Handshake)
    ensures r != Adapters.NotImplemented
    ensures r.Accepted? <==>
              Get(params, "hub.mode") == Str("subscribe") && Get(params, "hub.verify_token") == expectedToken
    ensures r.Accepted? ==> r.challenge == Get(params, "hub.challenge")
  {
    if Get(params, "hub.mode") == Str("subscribe") && Get(params, "hub.verify_token") == expectedToken
    then Adapters.Accepted(Get(params, "hub.challenge"))
    else Adapters.Forbidden
  }

  /** With the expected token nil, as in the shown source, exactly the
      "subscribe" requests carrying no token (or a nil one) are accepted. */
  lemma UnsetTokenAcceptsOnlyMissingToken(params: map<string, Json>)
    ensures Verify(params, Null).Accepted? <==>
              Get(params, "hub.mode") == Str("subscribe") && Get(params, "hub.verify_token") == Null
    ensures "hub.verify_token" in params && params["hub.verify_token"].Str? ==> !Verify(params, Null).Accepted?
  {
  }

  /** `{status: :ok}`, the answer of `receive`. */
  const StatusOk: Json := Obj(map["status" := Str("ok")])

  class Processor {
    const params: map<string, Json>
    /** `@json`, the last parsed payload. */
    var json: Json
    /** Every request posted so far, oldest first. */
    var posts: seq<Delivery>

    constructor (params: map<string, Json>)
      ensures this.params == params && json == Null && posts == []
    {
      this.params := params;
      json := Null;
      posts := [];
    }

    /** `send_whatsapp_message(payload)`, posting to the configured endpoint. */
    method SendWhatsappMessage(payload: Json, env: map<string, string>, config: Adapters.WhatsappConfig)
      requires Webhooks.ReplyComputable(payload, Webhooks.Param(env, "WHATSAPP_ACCESS_TOKEN"))
      modifies this
      ensures json == old(json)
      ensures posts == old(posts) + Webhooks.Reply(payload, Webhooks.Param(env, "WHATSAPP_ACCESS_TOKEN"), ToS(config.graphApiUrl))
    {
      var messageData := Dig(payload, WhatsappNormalizer.ValuePath);
      if !Truthy(messageData) {
        return;
      }
      var senderPhone := Dig(messageData, WhatsappNormalizer.MessageFromPath);
      if !Truthy(senderPhone) {
        return;
      }
      var accessToken := Webhooks.Param(env, "WHATSAPP_ACCESS_TOKEN");
      var phoneNumberId := Dig(messageData, WhatsappNormalizer.PhoneNumberIdPath);
      if !(!BlankString(accessToken) && Present(phoneNumberId)) {
        return;
      }
      var url := ToS(config.graphApiUrl) + ToS(phoneNumberId) + "/messages";
      var body := Webhooks.ReplyBody(senderPhone, Dig(messageData, WhatsappNormalizer.TextBodyPath));
      posts := posts + [Delivery(url + "?access_token=" + accessToken, body)];
    }

    /** `receive(raw_post)` with an already parsed body: the payload is kept, the
        reply chain runs, and the answer is always `{status: :ok}`. */
    method Receive(payload: Json, env: map<string, string>, config: Adapters.WhatsappConfig) returns (r: Json)
      requires Webhooks.ReplyComputable(payload, Webhooks.Param(env, "WHATSAPP_ACCESS_TOKEN"))
      modifies this
      ensures r == StatusOk && json == payload
      ensures posts == old(posts) + Webhooks.Reply(payload, Webhooks.Param(env, "WHATSAPP_ACCESS_TOKEN"), ToS(config.graphApiUrl))
    {
      json := payload;
      SendWhatsappMessage(json, env, config);
      r := StatusOk;
    }
  }
}
