/** The provider-agnostic canonical record of an inbound message
    (`Providers::BaseNormalizer`): plain accessor fields and three
    classification predicates over them. */
module BaseNormalizer {
  import opened Ruby

  /** The accessor fields of the normalizer, each nil until assigned. */
  datatype Message = Message(
    messageData: Json,
    from: Json,
    fromName: Json,
    fromLocale: Json,
    fromMetadata: Json,
    messageId: Json,
    chatId: Json,
    body: Json,
    to: Json,
    msgType: Json,
    buttonId: Json)

  /** The names of the accessors. */
  datatype Field =
    | MessageData | From | FromName | FromLocale | FromMetadata
    | MessageId | ChatId | Body | To | MsgType | ButtonId

  /** A freshly constructed normalizer: every accessor reads nil. */
  const Fresh := Message(Null, Null, Null, Null, Null, Null, Null, Null, Null, Null, Null)

  /** The reader of an accessor. */
  function Get(m: Message, f: Field): Json
  {
    match f
    case MessageData => m.messageData
    case From => m.from
    case FromName => m.fromName
    case FromLocale => m.fromLocale
    case FromMetadata => m.fromMetadata
    case MessageId => m.messageId
    case ChatId => m.chatId
    case Body => m.body
    case To => m.to
    case MsgType => m.msgType
    case ButtonId => m.buttonId
  }

  /** The writer of an accessor (`normalizer.f = v`). */
  function Set(m: Message, f: Field, v: Json): Message
  {
    match f
    case MessageData => m.(messageData := v)
    case From => m.(from := v)
    case FromName => m.(fromName := v)
    case FromLocale => m.(fromLocale := v)
    case FromMetadata => m.(fromMetadata := v)
    case MessageId => m.(messageId := v)
    case ChatId => m.(chatId := v)
    case Body => m.(body := v)
    case To => m.(to := v)
    case MsgType => m.(msgType := v)
    case ButtonId => m.(buttonId := v)
  }

  /** Each accessor reads the last value written to it, and writing one accessor
      leaves every other accessor as it was. */
  lemma AccessorReadsLastWrite(m: Message, f: Field, v: Json, g: Field)
    ensures Get(Set(m, f, v), f) == v
    ensures g != f ==> Get(Set(m, f, v), g) == Get(m, g)
  {
  }

  predicate Acknowledgeable(m: Message)
  {
    Present(m.from) && Present(m.messageId)
  }

  predicate UserText(m: Message)
  {
    Present(m.from) && Present(m.body) && m.buttonId == Null
  }

  predicate Actionable(m: Message)
  {
    Present(m.from) && Present(m.buttonId)
  }

  /** A message is never both free text and a button action: one needs the
      button id nil, the other needs it present. */
  lemma UserTextExcludesActionable(m: Message)
    ensures !(UserText(m) && Actionable(m))
  {
  }

  /** With a sender and a button id, the message is an action and not text,
      whatever its body. */
  lemma ButtonIdMakesAction(m: Message)
    requires Present(m.from) && Present(m.buttonId)
    ensures Actionable(m) && !UserText(m)
    ensures forall b :: Actionable(m.(body := b)) && !UserText(m.(body := b))
  {
  }

  /** With a sender, a body and no button id, the message is free text. */
  lemma BodyWithoutButtonIsText(m: Message)
    requires Present(m.from) && Present(m.body) && m.buttonId == Null
    ensures UserText(m) && !Actionable(m)
  {
  }

  /** A blank sender makes every predicate false. */
  lemma BlankSenderClassifiesNothing(m: Message)
    requires Blank(m.from)
    ensures !Acknowledgeable(m) && !UserText(m) && !Actionable(m)
  {
  }

  /** A fresh normalizer is neither acknowledgeable, text nor action. */
  lemma FreshClassifiesNothing(f: Field)
    ensures Get(Fresh, f) == Null
    ensures !Acknowledgeable(Fresh) && !UserText(Fresh) && !Actionable(Fresh)
  {
  }

  /** A button id that is blank but not nil (such as "") blocks both
      `user_text?` (it is not nil) and `actionable?` (it is not present). */
  lemma BlankButtonIdBlocksBoth(m: Message)
    requires m.buttonId == Str("")
    ensures !UserText(m) && !Actionable(m)
  {
  }
}
