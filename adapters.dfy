/** `Providers::BaseAdapter` and its WhatsApp subclass `Providers::Whatsapp::Adapter`:
    the provider boundary. Both classes are one `Adapter` class here whose `provider`
    says which of the two it is; where the base class raises `NotImplementedError`,
    the WhatsApp adapter overrides. `Faraday.post` is an append to `outbox`. */
module Adapters {
  import opened Ruby
  import opened Envelopes
  import WhatsappNormalizer

  datatype Provider = BaseProvider | WhatsappProvider

  /** `Decidim::Chatbot.whatsapp_config`. */
  datatype WhatsappConfig = WhatsappConfig(verifyToken: Json, accessToken: Json, graphApiUrl: Json)

  /** The `graph_api_url` used when `WHATSAPP_GRAPH_API_URL` is not set. */
  const DefaultGraphApiUrl: string := "https://graph.facebook.com/v24.0/"

  /** The hash `verify!` returns: `{status: :ok, response: challenge}`,
      `{status: :forbidden}` or `{status: :not_implemented}`. */
  datatype Handshake = Accepted(challenge: Json) | Forbidden | NotImplemented

  /** How `mark_as_read!` is called: the base method takes no argument and the
      WhatsApp override takes the message whose id it acknowledges. */
  datatype MarkArgs = NoArgument | WithMessage(messageId: Json)

  /** `Envelopes.const_get(type.to_s.camelize)` for the snake_case type names
      of the envelope classes. */
  function EnvelopeKind(typeName: string): (r: Option<Kind>)
    ensures r.Some? <==> typeName in {"base", "text", "interactive_buttons", "interactive_carousel", "read_receipt", "interactive"}
  {
    match typeName
    case "base" => Some(Base)
    case "text" => Some(Text)
    case "interactive_buttons" => Some(InteractiveButtons)
    case "interactive_carousel" => Some(InteractiveCarousel)
    case "read_receipt" => Some(ReadReceipt)
    case "interactive" => Some(Interactive)
    case _ => None
  }

  /** `build_message(data:, to: nil, type: :text)`: the base class raises; the
      WhatsApp adapter instantiates the named envelope with `to` and `data`
      unchanged, and an unknown type name raises `NameError`. */
  function BuildMessage(provider: Provider, data: map<string, Json>, to: Json := Null,
                        typeName: string := "text"): (r: Result<Envelope>)
    ensures provider == BaseProvider ==> r == Raised(NotImplementedError)
    ensures provider == WhatsappProvider ==>
              (r.Ok? <==> EnvelopeKind(typeName).Some?) &&
              (r.Ok? ==> r.value == Envelope(EnvelopeKind(typeName).value, to, data)) &&
              (r.Raised? ==> r.error == NameError(typeName))
  {
    if provider == BaseProvider then Raised(NotImplementedError)
    else match EnvelopeKind(typeName)
      case Some(k) => Ok(Envelope(k, to, data))
      case None => Raised(NameError(typeName))
  }

  /** `verify!` over the adapter's params: the base class answers
      `:not_implemented`; the WhatsApp adapter accepts a "subscribe" request whose
      token `==` the configured one, nil included, and forbids anything else. */
  function Verify(provider: Provider, params: map<string, Json>, config: WhatsappConfig): (r: Handshake)
    ensures provider == BaseProvider <==> r == NotImplemented
    ensures provider == WhatsappProvider ==>
              (r.Accepted? <==> Get(params, "hub.mode") == Str("subscribe") &&
                                Get(params, "hub.verify_token") == config.verifyToken)
    ensures r.Accepted? ==> r.challenge == Get(params, "hub.challenge")
  {
    if provider == BaseProvider then NotImplemented
    else if Get(params, "hub.mode") == Str("subscribe") && Get(params, "hub.verify_token") == config.verifyToken
    then Accepted(Get(params, "hub.challenge"))
    else Forbidden
  }

  /** The WhatsApp handshake accepts a "subscribe" request with no token at all
      when no token is configured. */
  lemma MissingTokenAcceptedWhenUnconfigured(params: map<string, Json>, config: WhatsappConfig)
    requires config.verifyToken == Null
    requires Get(params, "hub.mode") == Str("subscribe") && "hub.verify_token" !in params
    ensures Verify(WhatsappProvider, params, config) == Accepted(Get(params, "hub.challenge"))
  {
  }

  /** A URL built by interpolating a base, an id, a fixed path and a token
      splits back into exactly those four parts. */
  lemma UrlParts(base: string, id: string, path: string, token: string)
    ensures var r := base + id + path + token;
            && |r| == |base| + |id| + |path| + |token|
            && r[..|base|] == base
            && r[|base|..|base| + |id|] == id
            && r[|base| + |id|..|base| + |id| + |path|] == path
            && r[|base| + |id| + |path|..] == token
  {
    var r := base + id + path + token;
    assert r == base + (id + (path + token));
  }

  /** The messages endpoint `send!` posts to:
      `"#{graph_api_url}#{phone_number_id}/messages?access_token=#{access_token}"`. */
  function SendUrl(config: WhatsappConfig, phoneNumberId: Json): string
  {
    ToS(config.graphApiUrl) + ToS(phoneNumberId) + "/messages" + "?access_token=" + ToS(config.accessToken)
  }

  /** The endpoint is the configured API URL, then the phone number id, then
      the messages path with the access token as its only query parameter. */
  lemma SendUrlParts(config: WhatsappConfig, phoneNumberId: Json)
    ensures var r := SendUrl(config, phoneNumberId);
            var g, p, t := ToS(config.graphApiUrl), ToS(phoneNumberId), ToS(config.accessToken);
            && |r| == |g| + |p| + |"/messages?access_token="| + |t|
            && r[..|g|] == g
            && r[|g|..|g| + |p|] == p
            && r[|g| + |p|..|r| - |t|] == "/messages?access_token="
            && r[|r| - |t|..] == t
  {
    var g, p, t := ToS(config.graphApiUrl), ToS(phoneNumberId), ToS(config.accessToken);
    assert g + p + "/messages" + "?access_token=" + t == g + p + "/messages?access_token=" + t;
    UrlParts(g, p, "/messages?access_token=", t);
  }

  class Adapter {
    const provider: Provider
    /** The engine-wide WhatsApp configuration, fixed for the adapter's lifetime. */
    const config: WhatsappConfig
    /** `@params`, the adapter's own copy of the inbound payload. */
    var params: map<string, Json>
    /** `@received_message`. */
    var memo: Option<WhatsappNormalizer.Normalized>
    /** Every request posted so far, oldest first. */
    var outbox: seq<Delivery>

    /** `initialize(params:)` stores `params.dup`; maps are values, so later
        changes to `params` never reach the caller's map. */
    constructor (provider: Provider, config: WhatsappConfig, params: map<string, Json>)
      ensures this.provider == provider && this.config == config
      ensures this.params == params && memo == None && outbox == []
    {
      this.provider := provider;
      this.config := config;
      this.params := params;
      memo := None;
      outbox := [];
    }

    /** `received_message` can be computed: it is memoised already, or the
        current params are a payload the normalizer can read. */
    predicate MessageReadable()
      reads this
    {
      memo.Some? || WhatsappNormalizer.Constructible(Obj(params))
    }

    /** The value `received_message` yields now. */
    function Received(): WhatsappNormalizer.Normalized
      reads this
      requires MessageReadable()
    {
      if memo.Some? then memo.value else WhatsappNormalizer.Normalize(Obj(params))
    }

    /** `received_message`: the base class raises; the WhatsApp adapter normalizes
        its params once and returns the memoised record from then on. */
    method ReceivedMessage() returns (r: Result<WhatsappNormalizer.Normalized>)
      requires provider == WhatsappProvider ==> MessageReadable()
      modifies this
      ensures params == old(params) && outbox == old(outbox)
      ensures provider == BaseProvider ==> r == Raised(NotImplementedError) && memo == old(memo)
      ensures provider == WhatsappProvider ==> r == Ok(old(Received())) && memo == Some(r.value)
    {
      if provider == BaseProvider {
        return Raised(NotImplementedError);
      }
      if memo.None? {
        memo := Some(WhatsappNormalizer.Normalize(Obj(params)));
      }
      r := Ok(memo.value);
    }

    /** `consume_message`: the base class raises; the WhatsApp adapter deletes
        "entry" and "object" from its params and returns the deleted "object". */
    method ConsumeMessage() returns (r: Result<Json>)
      modifies this
      ensures memo == old(memo) && outbox == old(outbox)
      ensures provider == BaseProvider ==> r == Raised(NotImplementedError) && params == old(params)
      ensures provider == WhatsappProvider ==>
                params == old(params) - {"entry", "object"} && r == Ok(Get(old(params), "object"))
    {
      if provider == BaseProvider {
        return Raised(NotImplementedError);
      }
      var deleted := Get(params, "object");
      params := params - {"entry", "object"};
      r := Ok(deleted);
    }

    /** `send!(message)`: the base class raises; the WhatsApp adapter posts the
        envelope's body to the messages endpoint of the received message's phone
        number (computing `received_message` if needed). */
    method Send(message: Envelope) returns (r: Result<Delivery>)
      requires Renderable(message)
      requires provider == WhatsappProvider ==> MessageReadable()
      modifies this
      ensures params == old(params)
      ensures provider == BaseProvider ==>
                r == Raised(NotImplementedError) && memo == old(memo) && outbox == old(outbox)
      ensures provider == WhatsappProvider ==>
                && r == Ok(Delivery(SendUrl(config, old(Received()).phoneNumberId), Body(message)))
                && memo == Some(old(Received()))
                && outbox == old(outbox) + [r.value]
    {
      if provider == BaseProvider {
        return Raised(NotImplementedError);
      }
      var m := ReceivedMessage();
      var d := Delivery(SendUrl(config, m.value.phoneNumberId), Body(message));
      outbox := outbox + [d];
      r := Ok(d);
    }

    /** `mark_as_read!`: the base method takes no argument, returns nil and sends
        nothing; the WhatsApp override takes a message and posts one read receipt
        for its id. Calling either with the other arity raises `ArgumentError`. */
    method MarkAsRead(args: MarkArgs) returns (r: Result<Option<Delivery>>)
      requires provider == WhatsappProvider && args.WithMessage? ==> MessageReadable()
      modifies this
      ensures params == old(params)
      ensures provider == BaseProvider ==>
                memo == old(memo) && outbox == old(outbox) &&
                r == (if args.NoArgument? then Ok(None) else Raised(ArgumentError))
      ensures provider == WhatsappProvider && args.NoArgument? ==>
                r == Raised(ArgumentError) && memo == old(memo) && outbox == old(outbox)
      ensures provider == WhatsappProvider && args.WithMessage? ==>
                && r.Ok? && r.value.Some?
                && r.value.value.body == ReadReceiptBody(map["message_id" := args.messageId])
                && r.value.value.url == SendUrl(config, old(Received()).phoneNumberId)
                && outbox == old(outbox) + [r.value.value]
                && memo == Some(old(Received()))
    {
      if provider == BaseProvider {
        return if args.NoArgument? then Ok(None) else Raised(ArgumentError);
      }
      if args.NoArgument? {
        return Raised(ArgumentError);
      }
      var receipt := BuildMessage(provider, map["message_id" := args.messageId], typeName := "read_receipt");
      var sent := Send(receipt.value);
      r := Ok(Some(sent.value));
    }

    /** `mark_as_writing!`: no provider shows a typing indicator; nil, and nothing
        is sent. */
    method MarkAsWriting() returns (r: Json)
      ensures r == Null
    {
      r := Null;
    }

    /** `send_message!(text)`: one text envelope to the received message's sender,
        with data `{body: text}`, handed to `send!` once. The base class raises
        from `received_message` before anything is built. */
    method SendMessage(text: Json) returns (r: Result<Delivery>)
      requires provider == WhatsappProvider ==> MessageReadable()
      modifies this
      ensures params == old(params)
      ensures provider == BaseProvider ==>
                r == Raised(NotImplementedError) && memo == old(memo) && outbox == old(outbox)
      ensures provider == WhatsappProvider ==>
                && r.Ok?
                && r.value.body == TextBody(old(Received()).from, map["body" := text])
                && r.value.url == SendUrl(config, old(Received()).phoneNumberId)
                && outbox == old(outbox) + [r.value]
                && memo == Some(old(Received()))
    {
      var m := ReceivedMessage();
      if m.Raised? {
        return Raised(m.error);
      }
      var message := BuildMessage(provider, map["body" := text], m.value.from, "text");
      r := Send(message.value);
    }
  }

  /** `received_message` is computed once: a second call returns the first
      record even after `consume_message` has emptied the payload. */
  method ReceivedMessageIsMemoised(a: Adapter) returns (first: WhatsappNormalizer.Normalized, second: WhatsappNormalizer.Normalized)
    requires a.provider == WhatsappProvider && a.MessageReadable()
    modifies a
    ensures first == second
    ensures "entry" !in a.params && "object" !in a.params
  {
    var r1 := a.ReceivedMessage();
    var _ := a.ConsumeMessage();
    var r2 := a.ReceivedMessage();
    first, second := r1.value, r2.value;
  }

  /** `send_message!` sends exactly one envelope: the outbox grows by one. */
  method SendMessageSendsOnce(a: Adapter, text: Json) returns (d: Delivery)
    requires a.provider == WhatsappProvider && a.MessageReadable()
    modifies a
    ensures |a.outbox| == |old(a.outbox)| + 1 && a.outbox[|a.outbox| - 1] == d
    ensures Field(Field(d.body, "text"), "body") == text
  {
    var r := a.SendMessage(text);
    d := r.value;
    TextBodyShape(old(a.Received()).from, map["body" := text]);
  }
}
