/** `WebhooksController`: the HTTP gateway. `verify` answers the WhatsApp
    subscription handshake; `receive` acknowledges every payload and, through
    `send_whatsapp_message`, may post one "received: ..." text reply. */
module Webhooks {
  import opened Ruby
  import opened Envelopes
  import WhatsappNormalizer

  /** `params[key].to_s` (and `ENV[key].to_s`): a missing value reads as "". */
  function Param(params: map<string, string>, key: string): string
  {
    if key in params then params[key] else ""
  }

  /** An HTTP answer; `head status` has an empty body. */
  datatype Response = Response(status: nat, body: string)

  const BadRequest := Response(400, "")
  const Forbidden := Response(403, "")
  const NotImplemented := Response(501, "")
  const Acknowledged := Response(200, "")

  /** The reply endpoint is hard-coded in the controller. */
  const ControllerGraphApiUrl: string := "https://graph.facebook.com/v24.0/"

  /** `supported_provider?`: `%w[whatsapp].include?(provider)`. */
  predicate SupportedProvider(provider: string)
  {
    provider in ["whatsapp"]
  }

  /** `GET /chatbot/webhooks/:provider`. `secure_compare` is string equality. */
  function VerifyResponse(params: map<string, string>, env: map<string, string>): (r: Response)
    ensures !SupportedProvider(Param(params, "provider")) ==> r == BadRequest
    ensures SupportedProvider(Param(params, "provider")) ==>
              ((r.status == 200) <==>
                 Param(params, "hub.mode") == "subscribe" &&
                 !BlankString(Param(params, "hub.verify_token")) &&
                 Param(params, "hub.verify_token") == Param(env, "WHATSAPP_VERIFY_TOKEN"))
    ensures SupportedProvider(Param(params, "provider")) && r.status != 200 ==> r == Forbidden
    ensures r.status == 200 ==> r.body == Param(params, "hub.challenge")
    ensures r.status != 200 ==> r.body == ""
    ensures r.status in {200, 400, 403}
  {
    var provider := Param(params, "provider");
    if !SupportedProvider(provider) then BadRequest
    else if provider == "whatsapp" then
      var verifyToken := Param(env, "WHATSAPP_VERIFY_TOKEN");
      var mode := Param(params, "hub.mode");
      var token := Param(params, "hub.verify_token");
      var challenge := Param(params, "hub.challenge");
      if mode == "subscribe" && !BlankString(token) && token == verifyToken then Response(200, challenge)
      else Forbidden
    else NotImplemented
  }

  /** A blank token is never accepted, even when the configured token is blank. */
  lemma BlankTokenRejected(params: map<string, string>, env: map<string, string>)
    requires SupportedProvider(Param(params, "provider"))
    requires BlankString(Param(params, "hub.verify_token"))
    ensures VerifyResponse(params, env) == Forbidden
  {
  }

  /** Every provider `supported_provider?` admits is "whatsapp", so the
      `:not_implemented` branch of `verify` is never taken. */
  lemma NotImplementedUnreachable(params: map<string, string>, env: map<string, string>)
    ensures VerifyResponse(params, env) != NotImplemented
    ensures SupportedProvider(Param(params, "provider")) <==> Param(params, "provider") == "whatsapp"
  {
  }

  /** `send_whatsapp_message` does not raise: the payload and the value object
      respond to `dig` along the paths read, each read only once the guards
      before it have passed. */
  predicate ReplyComputable(payload: Json, accessToken: string)
  {
    Diggable(payload, WhatsappNormalizer.ValuePath) &&
    var messageData := Dig(payload, WhatsappNormalizer.ValuePath);
    Truthy(messageData) ==>
      Diggable(messageData, WhatsappNormalizer.MessageFromPath) &&
      (Truthy(Dig(messageData, WhatsappNormalizer.MessageFromPath)) ==>
         Diggable(messageData, WhatsappNormalizer.PhoneNumberIdPath) &&
         (!BlankString(accessToken) && Present(Dig(messageData, WhatsappNormalizer.PhoneNumberIdPath)) ==>
            Diggable(messageData, WhatsappNormalizer.TextBodyPath)))
  }

  /** The guards of `send_whatsapp_message` pass: a value object and a sender
      (both only truthy), and a present access token and phone number id. */
  predicate ReplyGuardsPass(payload: Json, accessToken: string)
  {
    var messageData := Dig(payload, WhatsappNormalizer.ValuePath);
    Truthy(messageData) &&
    Truthy(Dig(messageData, WhatsappNormalizer.MessageFromPath)) &&
    !BlankString(accessToken) &&
    Present(Dig(messageData, WhatsappNormalizer.PhoneNumberIdPath))
  }

  /** `"#{url}?access_token=#{access_token}"` with
      `url = "#{base}#{phone_number_id}/messages"`. */
  function ReplyUrl(baseUrl: string, phoneNumberId: Json, accessToken: string): string
  {
    baseUrl + ToS(phoneNumberId) + "/messages" + "?access_token=" + accessToken
  }

  /** The hand-built reply hash of `send_whatsapp_message`. */
  function ReplyBody(senderPhone: Json, textBody: Json): Json
  {
    Obj(map["messaging_product" := Str("whatsapp"),
            "recipient_type" := Str("individual"),
            "to" := senderPhone,
            "type" := Str("text"),
            "text" := Obj(map["body" := Str("received: " + ToS(textBody))])])
  }

  /** The requests `send_whatsapp_message` posts for a payload: none when a
      guard fails, otherwise one text message to the sender echoing the text body. */
  function Reply(payload: Json, accessToken: string, baseUrl: string): (r: seq<Delivery>)
    requires ReplyComputable(payload, accessToken)
    ensures |r| <= 1
    ensures |r| == 1 <==> ReplyGuardsPass(payload, accessToken)
    ensures |r| == 1 ==>
              var messageData := Dig(payload, WhatsappNormalizer.ValuePath);
              && r[0].body == TextBody(Dig(messageData, WhatsappNormalizer.MessageFromPath),
                                       map["body" := Str("received: " + ToS(Dig(messageData, WhatsappNormalizer.TextBodyPath)))])
              && r[0].url == ReplyUrl(baseUrl, Dig(messageData, WhatsappNormalizer.PhoneNumberIdPath), accessToken)
  {
    var messageData := Dig(payload, WhatsappNormalizer.ValuePath);
    if !Truthy(messageData) then []
    else
      var senderPhone := Dig(messageData, WhatsappNormalizer.MessageFromPath);
      if !Truthy(senderPhone) then []
      else
        var phoneNumberId := Dig(messageData, WhatsappNormalizer.PhoneNumberIdPath);
        if !(!BlankString(accessToken) && Present(phoneNumberId)) then []
        else
          var body := ReplyBody(senderPhone, Dig(messageData, WhatsappNormalizer.TextBodyPath));
          assert body == TextBody(senderPhone, map["body" := Str("received: " + ToS(Dig(messageData, WhatsappNormalizer.TextBodyPath)))]);
          [Delivery(ReplyUrl(baseUrl, phoneNumberId, accessToken), body)]
  }

  /** A payload without a value object (such as `{"entry": []}`) is acknowledged
      without any reply. */
  lemma NoValueNoReply(payload: Json, accessToken: string, baseUrl: string)
    requires ReplyComputable(payload, accessToken)
    requires Dig(payload, WhatsappNormalizer.ValuePath) == Null
    ensures Reply(payload, accessToken, baseUrl) == []
  {
  }

  /** The guards on the sender are truthiness, not presence: an empty sender
      string still gets a reply. */
  lemma EmptySenderStillReplied(payload: Json, accessToken: string, baseUrl: string)
    requires ReplyComputable(payload, accessToken)
    requires Truthy(Dig(payload, WhatsappNormalizer.ValuePath))
    requires Dig(Dig(payload, WhatsappNormalizer.ValuePath), WhatsappNormalizer.MessageFromPath) == Str("")
    requires !BlankString(accessToken)
    requires Present(Dig(Dig(payload, WhatsappNormalizer.ValuePath), WhatsappNormalizer.PhoneNumberIdPath))
    ensures |Reply(payload, accessToken, baseUrl)| == 1
    ensures Field(Reply(payload, accessToken, baseUrl)[0].body, "to") == Str("")
  {
    var messageData := Dig(payload, WhatsappNormalizer.ValuePath);
    var text := Obj(map["body" := Str("received: " + ToS(Dig(messageData, WhatsappNormalizer.TextBodyPath)))]);
    assert ReplyGuardsPass(payload, accessToken);
    var r := Reply(payload, accessToken, baseUrl);
    assert r[0].body == WithPart(Str(""), "text", "text", text);
    WithPartShape(Str(""), "text", "text", text);
  }

  /** The controller as a request handler; its outbound POSTs are recorded. */
  class WebhooksController {
    /** Every request posted so far, oldest first. */
    var posts: seq<Delivery>

    constructor ()
      ensures posts == []
    {
      posts := [];
    }

    /** `send_whatsapp_message(payload)`: the early-return guard chain. */
    method SendWhatsappMessage(payload: Json, env: map<string, string>)
      requires ReplyComputable(payload, Param(env, "WHATSAPP_ACCESS_TOKEN"))
      modifies this
      ensures posts == old(posts) + Reply(payload, Param(env, "WHATSAPP_ACCESS_TOKEN"), ControllerGraphApiUrl)
    {
      var messageData := Dig(payload, WhatsappNormalizer.ValuePath);
      if !Truthy(messageData) {
        return;
      }
      var senderPhone := Dig(messageData, WhatsappNormalizer.MessageFromPath);
      if !Truthy(senderPhone) {
        return;
      }
      var accessToken := Param(env, "WHATSAPP_ACCESS_TOKEN");
      var phoneNumberId := Dig(messageData, WhatsappNormalizer.PhoneNumberIdPath);
      if !(!BlankString(accessToken) && Present(phoneNumberId)) {
        return;
      }
      var url := ControllerGraphApiUrl + ToS(phoneNumberId) + "/messages";
      var body := ReplyBody(senderPhone, Dig(messageData, WhatsappNormalizer.TextBodyPath));
      posts := posts + [Delivery(url + "?access_token=" + accessToken, body)];
    }

    /** `POST /chatbot/webhooks/:provider` with an already parsed body: 400 for an
        unsupported provider (and nothing posted), otherwise 200 after the reply
        chain has run. */
    method Receive(params: map<string, string>, payload: Json, env: map<string, string>) returns (r: Response)
      requires SupportedProvider(Param(params, "provider")) ==>
                 ReplyComputable(payload, Param(env, "WHATSAPP_ACCESS_TOKEN"))
      modifies this
      ensures !SupportedProvider(Param(params, "provider")) ==> r == BadRequest && posts == old(posts)
      ensures SupportedProvider(Param(params, "provider")) ==>
                r == Acknowledged &&
                posts == old(posts) + Reply(payload, Param(env, "WHATSAPP_ACCESS_TOKEN"), ControllerGraphApiUrl)
    {
      var provider := Param(params, "provider");
      if !SupportedProvider(provider) {
        return BadRequest;
      }
      if provider == "whatsapp" {
        SendWhatsappMessage(payload, env);
      }
      r := Acknowledged;
    }
  }
}
