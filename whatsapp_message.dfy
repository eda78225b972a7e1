/** The legacy `Whatsapp::Message`: an older, simpler extraction that reads the
    sender, body and message id from `messages[0]` only. */
module LegacyMessage {
  import opened Ruby
  import WhatsappNormalizer

  datatype Message = Message(
    json: Json,
    messageData: Json,
    from: Json,
    messageId: Json,
    id: Json,
    body: Json,
    phoneNumberId: Json)

  /** The constructor does not raise: the value object is a hash (line 11 digs
      into it before the `if @message_data` check) and each later `dig` succeeds. */
  predicate Constructible(json: Json)
  {
    Diggable(json, WhatsappNormalizer.ValuePath) &&
    var v := Dig(json, WhatsappNormalizer.ValuePath);
    v.Obj? &&
    Diggable(v, WhatsappNormalizer.PhoneNumberIdPath) &&
    Diggable(json, WhatsappNormalizer.ChatIdPath) &&
    Diggable(v, WhatsappNormalizer.MessageFromPath) &&
    Diggable(v, WhatsappNormalizer.TextBodyPath) &&
    Diggable(v, WhatsappNormalizer.MessageIdPath)
  }

  /** `Whatsapp::Message.new(json)`. */
  function Parse(json: Json): Message
    requires Constructible(json)
  {
    var v := Dig(json, WhatsappNormalizer.ValuePath);
    Message(json, v,
            Dig(v, WhatsappNormalizer.MessageFromPath),
            Dig(v, WhatsappNormalizer.MessageIdPath),
            Dig(json, WhatsappNormalizer.ChatIdPath),
            Dig(v, WhatsappNormalizer.TextBodyPath),
            Dig(v, WhatsappNormalizer.PhoneNumberIdPath))
  }

  predicate FromUser(m: Message)
  {
    Present(m.from)
  }

  /** `id` is `entry[0].id`; the phone number id, sender, body and message id are
      read under the value object, the sender from `messages[0].from` only. */
  lemma ParsedFields(json: Json)
    requires Constructible(json)
    ensures var m := Parse(json);
            && m.id == Dig(json, WhatsappNormalizer.ChatIdPath)
            && m.phoneNumberId == Dig(json, WhatsappNormalizer.ValuePath + WhatsappNormalizer.PhoneNumberIdPath)
            && m.from == Dig(json, WhatsappNormalizer.ValuePath + WhatsappNormalizer.MessageFromPath)
            && m.body == Dig(json, WhatsappNormalizer.ValuePath + WhatsappNormalizer.TextBodyPath)
            && m.messageId == Dig(json, WhatsappNormalizer.ValuePath + WhatsappNormalizer.MessageIdPath)
  {
    DigAppend(json, WhatsappNormalizer.ValuePath, WhatsappNormalizer.PhoneNumberIdPath);
    DigAppend(json, WhatsappNormalizer.ValuePath, WhatsappNormalizer.MessageFromPath);
    DigAppend(json, WhatsappNormalizer.ValuePath, WhatsappNormalizer.TextBodyPath);
    DigAppend(json, WhatsappNormalizer.ValuePath, WhatsappNormalizer.MessageIdPath);
  }

  /** A value without `messages` gives no sender, so the message is not from a user,
      even when `contacts` names one. */
  lemma NoMessagesNotFromUser(json: Json)
    requires Constructible(json)
    requires At(Dig(json, WhatsappNormalizer.ValuePath), K("messages")) == Null
    ensures Parse(json).from == Null && !FromUser(Parse(json))
  {
    DigNull(WhatsappNormalizer.MessageFromPath[1..]);
  }

  /** Where both constructors succeed, the legacy sender agrees with the
      normalizer's whenever the normalizer finds no `contacts[0].wa_id`. */
  lemma SenderAgreesWithoutContacts(json: Json)
    requires Constructible(json) && WhatsappNormalizer.Constructible(json)
    requires !Truthy(Dig(Dig(json, WhatsappNormalizer.ValuePath), WhatsappNormalizer.WaIdPath))
    ensures Parse(json).from == WhatsappNormalizer.Normalize(json).from
  {
    WhatsappNormalizer.SenderFallback(json);
  }
}
