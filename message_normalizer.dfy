/** `Providers::Whatsapp::MessageNormalizer`: a WhatsApp Cloud API webhook
    payload becomes a flat record, read from the first entry's first change. */
module WhatsappNormalizer {
  import opened Ruby
  import BaseNormalizer

  /** `entry[0].changes[0].value`, the part of the payload describing one change. */
  const ValuePath: seq<Step> := [K("entry"), I(0), K("changes"), I(0), K("value")]
  const ChatIdPath: seq<Step> := [K("entry"), I(0), K("id")]

  // Paths below are relative to the value object.
  const PhoneNumberIdPath: seq<Step> := [K("metadata"), K("phone_number_id")]
  const DisplayPhonePath: seq<Step> := [K("metadata"), K("display_phone_number")]
  const WaIdPath: seq<Step> := [K("contacts"), I(0), K("wa_id")]
  const ProfileNamePath: seq<Step> := [K("contacts"), I(0), K("profile"), K("name")]
  const MessageFromPath: seq<Step> := [K("messages"), I(0), K("from")]
  const TextBodyPath: seq<Step> := [K("messages"), I(0), K("text"), K("body")]
  const MessageIdPath: seq<Step> := [K("messages"), I(0), K("id")]
  const MessageTypePath: seq<Step> := [K("messages"), I(0), K("type")]
  const InteractivePath: seq<Step> := [K("messages"), I(0), K("interactive")]

  /** The readers of a constructed normalizer. */
  datatype Normalized = Normalized(
    json: Json,
    messageData: Json,
    from: Json,
    fromName: Json,
    fromMetadata: Json,
    messageId: Json,
    chatId: Json,
    body: Json,
    phoneNumberId: Json,
    to: Json,
    msgType: Json,
    buttonId: Json)

  /** `interactive["type"]`: the sub-kind of an interactive reply. On a string
      receiver Ruby's `String#[]` yields a substring that is never
      "button_reply" or "list_reply", which this nil stands for. */
  function SubType(interactive: Json): Json
  {
    if interactive.Obj? && "type" in interactive.fields then interactive.fields["type"] else Null
  }

  /** The interactive block can be read: it is a hash (or a string, whose
      `["type"]` matches no branch), and the reply branch taken can be dug. */
  predicate InteractiveReadable(interactive: Json)
  {
    (interactive.Obj? || interactive.Str?) &&
    (SubType(interactive) == Str("button_reply") ==>
       Diggable(interactive, [K("button_reply"), K("title")]) &&
       Diggable(interactive, [K("button_reply"), K("id")])) &&
    (SubType(interactive) == Str("list_reply") ==>
       Diggable(interactive, [K("list_reply"), K("title")]) &&
       Diggable(interactive, [K("list_reply"), K("id")]))
  }

  /** The constructor does not raise: the value object exists and is a hash
      (it is dug into before the `return unless @message_data` guard), every
      later `dig` succeeds, and an "interactive" message carries a readable
      interactive block. */
  predicate Constructible(json: Json)
  {
    Diggable(json, ValuePath) &&
    var v := Dig(json, ValuePath);
    v.Obj? &&
    Diggable(v, PhoneNumberIdPath) && Diggable(v, DisplayPhonePath) &&
    Diggable(v, WaIdPath) && Diggable(v, ProfileNamePath) &&
    Diggable(json, ChatIdPath) &&
    (!Truthy(Dig(v, WaIdPath)) ==> Diggable(v, MessageFromPath)) &&
    Diggable(v, TextBodyPath) && Diggable(v, MessageIdPath) && Diggable(v, MessageTypePath) &&
    (Dig(v, MessageTypePath) == Str("interactive") ==>
       Diggable(v, InteractivePath) && InteractiveReadable(Dig(v, InteractivePath)))
  }

  /** The readers fixed by the constructor before the interactive block is
      looked at. */
  function Extract(json: Json): Normalized
    requires Constructible(json)
  {
    var v := Dig(json, ValuePath);
    var waId := Dig(v, WaIdPath);
    // `@from ||= messages[0].from`: the fallback fires for nil and false
    var from := if Truthy(waId) then waId else Dig(v, MessageFromPath);
    Normalized(json, v, from, Dig(v, ProfileNamePath), Null, Dig(v, MessageIdPath),
               Dig(json, ChatIdPath), Dig(v, TextBodyPath), Dig(v, PhoneNumberIdPath),
               Dig(v, DisplayPhonePath), Dig(v, MessageTypePath), Null)
  }

  /** `extract_interactive_reply`: a button or list reply overrides the body
      and sets the button id; nothing else changes. */
  function WithReply(base: Normalized, interactive: Json): (n: Normalized)
    ensures n.(body := base.body, buttonId := base.buttonId) == base
  {
    if SubType(interactive) == Str("button_reply") then
      base.(body := Dig(interactive, [K("button_reply"), K("title")]),
            buttonId := Dig(interactive, [K("button_reply"), K("id")]))
    else if SubType(interactive) == Str("list_reply") then
      base.(body := Dig(interactive, [K("list_reply"), K("title")]),
            buttonId := Dig(interactive, [K("list_reply"), K("id")]))
    else base
  }

  /** `MessageNormalizer.new(json)`. */
  function Normalize(json: Json): Normalized
    requires Constructible(json)
  {
    var base := Extract(json);
    if base.msgType != Str("interactive") then base
    else WithReply(base, Dig(base.messageData, InteractivePath))
  }

  predicate Acknowledgeable(n: Normalized)
  {
    Present(n.from) && Present(n.messageId)
  }

  /** Unlike the provider-agnostic predicate, the body is not consulted. */
  predicate UserText(n: Normalized)
  {
    Present(n.from) && n.msgType == Str("text")
  }

  predicate Actionable(n: Normalized)
  {
    Present(n.from) && n.msgType == Str("interactive") && Present(n.buttonId)
  }

  /** The fixed-path fields, stated against paths from the payload root: the chat
      id is `entry[0].id`, the phone number id and the display number come from
      `value.metadata`, the sender name from `contacts[0].profile.name`, and the
      original payload and value object are kept. */
  lemma FixedPathFields(json: Json)
    requires Constructible(json)
    ensures Normalize(json).json == json
    ensures Normalize(json).messageData == Dig(json, ValuePath)
    ensures Normalize(json).chatId == Dig(json, ChatIdPath)
    ensures Normalize(json).phoneNumberId == Dig(json, ValuePath + PhoneNumberIdPath)
    ensures Normalize(json).to == Dig(json, ValuePath + DisplayPhonePath)
    ensures Normalize(json).fromName == Dig(json, ValuePath + ProfileNamePath)
    ensures Normalize(json).fromMetadata == Null
  {
    DigAppend(json, ValuePath, PhoneNumberIdPath);
    DigAppend(json, ValuePath, DisplayPhonePath);
    DigAppend(json, ValuePath, ProfileNamePath);
  }

  /** The sender is `contacts[0].wa_id`, and `messages[0].from` only when that is
      nil or false. */
  lemma SenderFallback(json: Json)
    requires Constructible(json)
    ensures var v := Dig(json, ValuePath);
            Normalize(json).from ==
              if Truthy(Dig(v, WaIdPath)) then Dig(v, WaIdPath) else Dig(v, MessageFromPath)
  {
  }

  /** A payload whose value has neither `messages` nor `contacts` (a status
      callback, an empty change) yields no sender, no message id and no body, and
      none of the three predicates holds. */
  lemma NoMessagesClassifiesNothing(json: Json)
    requires Constructible(json)
    requires At(Dig(json, ValuePath), K("messages")) == Null
    requires At(Dig(json, ValuePath), K("contacts")) == Null
    ensures Normalize(json).from == Null
    ensures Normalize(json).messageId == Null
    ensures Normalize(json).body == Null
    ensures Normalize(json).buttonId == Null
    ensures var n := Normalize(json); !Acknowledgeable(n) && !UserText(n) && !Actionable(n)
  {
    DigNull(WaIdPath[1..]);
    DigNull(MessageFromPath[1..]);
    DigNull(TextBodyPath[1..]);
    DigNull(MessageIdPath[1..]);
    DigNull(MessageTypePath[1..]);
  }

  /** An "interactive" message takes its body and button id from the button or
      list reply, whichever its sub-type names; any other sub-type leaves the
      button id nil and the text body in place. */
  lemma InteractiveReplies(json: Json)
    requires Constructible(json)
    requires Dig(Dig(json, ValuePath), MessageTypePath) == Str("interactive")
    ensures var v := Dig(json, ValuePath);
            var it := Dig(v, InteractivePath);
            var n := Normalize(json);
            && (SubType(it) == Str("button_reply") ==>
                  n.body == Dig(it, [K("button_reply"), K("title")]) &&
                  n.buttonId == Dig(it, [K("button_reply"), K("id")]))
            && (SubType(it) == Str("list_reply") ==>
                  n.body == Dig(it, [K("list_reply"), K("title")]) &&
                  n.buttonId == Dig(it, [K("list_reply"), K("id")]))
            && (SubType(it) != Str("button_reply") && SubType(it) != Str("list_reply") ==>
                  n.buttonId == Null && n.body == Dig(v, TextBodyPath))
  {
  }

  /** Only interactive messages can carry a button id; the others keep the text
      body `messages[0].text.body`. */
  lemma ButtonIdOnlyWhenInteractive(json: Json)
    requires Constructible(json)
    ensures var n := Normalize(json);
            (n.buttonId != Null ==> n.msgType == Str("interactive")) &&
            (n.msgType != Str("interactive") ==> n.body == Dig(Dig(json, ValuePath), TextBodyPath))
  {
  }

  /** `user_text?` and `actionable?` exclude each other: they need different types. */
  lemma UserTextExcludesActionable(n: Normalized)
    ensures !(UserText(n) && Actionable(n))
  {
  }

  /** The same fields seen through the provider-agnostic record (`from_locale`
      has no reader in this normalizer and is nil). */
  function Canonical(n: Normalized): (m: BaseNormalizer.Message)
    ensures m.from == n.from && m.messageId == n.messageId && m.body == n.body
    ensures m.buttonId == n.buttonId && m.msgType == n.msgType && m.fromLocale == Null
  {
    BaseNormalizer.Message(n.messageData, n.from, n.fromName, Null, n.fromMetadata, n.messageId,
                           n.chatId, n.body, n.to, n.msgType, n.buttonId)
  }

  /** On normalized payloads the two classifications agree on acknowledgement and
      on actions, and a text message with a present body is text for both. */
  lemma AgreesWithBaseNormalizer(json: Json)
    requires Constructible(json)
    ensures var n := Normalize(json);
            && (Acknowledgeable(n) <==> BaseNormalizer.Acknowledgeable(Canonical(n)))
            && (Actionable(n) <==> BaseNormalizer.Actionable(Canonical(n)))
            && (UserText(n) && Present(n.body) ==> BaseNormalizer.UserText(Canonical(n)))
  {
  }

  /** But they disagree on a text message with a blank body: it is user text
      here and not for the provider-agnostic predicate. */
  lemma BlankTextBodyDisagrees(json: Json)
    requires Constructible(json)
    requires Present(Normalize(json).from) && Normalize(json).msgType == Str("text")
    requires Blank(Dig(Dig(json, ValuePath), TextBodyPath))
    ensures UserText(Normalize(json)) && !BaseNormalizer.UserText(Canonical(Normalize(json)))
  {
  }
}
