/** `Providers::Whatsapp::Envelopes`: outbound message envelopes. An envelope
    keeps its recipient and its data hash; its `body` is the JSON object posted
    to the WhatsApp Cloud API, built with conditionally present keys. */
module Envelopes {
  import opened Ruby

  /** The envelope classes: `Base` and its five subclasses. */
  datatype Kind = Base | Text | InteractiveButtons | InteractiveCarousel | ReadReceipt | Interactive

  /** `Envelopes::<Kind>.new(to:, data:)`; the data hash is symbol-keyed in the
      source, and the symbol names are the keys here. */
  datatype Envelope = Envelope(kind: Kind, to: Json, data: map<string, Json>)

  /** One POST to the messaging API: the target URL and the JSON body. */
  datatype Delivery = Delivery(url: string, body: Json)

  /** `data[:key]`, nil when the key is missing. */
  function Get(data: map<string, Json>, key: string): Json
  {
    if key in data then data[key] else Null
  }

  /** `hash[:key]` on a JSON value: `At(j, K(key))`, written out. */
  function Field(j: Json, key: string): Json
  {
    if j.Obj? && key in j.fields then j.fields[key] else Null
  }

  /** The key is present in the JSON object, whatever its value (nil included). */
  predicate HasKey(j: Json, key: string)
  {
    j.Obj? && key in j.fields
  }

  /** `Base#body`. */
  function BaseBody(to: Json): Json
  {
    Obj(map["messaging_product" := Str("whatsapp"), "recipient_type" := Str("individual"), "to" := to])
  }

  /** The base body merged with a `type` and one part under `key`: the layout
      of the text and interactive bodies. */
  function WithPart(to: Json, partType: string, key: string, part: Json): Json
  {
    Obj(BaseBody(to).fields["type" := Str(partType)][key := part])
  }

  /** Such a body keeps the three base fields and adds exactly the type and the part. */
  lemma WithPartShape(to: Json, partType: string, key: string, part: Json)
    requires key != "messaging_product" && key != "recipient_type" && key != "to" && key != "type"
    ensures var b := WithPart(to, partType, key, part);
            && b.fields.Keys == {"messaging_product", "recipient_type", "to", "type", key}
            && KeepsBaseFields(b, to)
            && Field(b, "type") == Str(partType)
            && Field(b, key) == part
  {
  }

  /** `Text#body`: the base body merged with the text part. */
  function TextBody(to: Json, data: map<string, Json>): Json
  {
    WithPart(to, "text", "text", Obj(map["body" := Get(data, "body")]))
  }

  /** `{ type: "reply", reply: { id: button[:id], title: button[:title] } }`. */
  function ReplyButton(button: Json): Json
    requires button.Obj?
  {
    Obj(map["type" := Str("reply"),
            "reply" := Obj(map["id" := Get(button.fields, "id"), "title" := Get(button.fields, "title")])])
  }

  /** A JSON array of hashes, the shape `map` needs of `data[:buttons]` and
      `data[:cards]` (nil or a scalar would raise, and so would a non-hash element). */
  predicate ArrayOfObjects(j: Json)
  {
    j.Arr? && forall i :: 0 <= i < |j.items| ==> j.items[i].Obj?
  }

  function ReplyButtons(buttons: Json): (r: seq<Json>)
    requires ArrayOfObjects(buttons)
  {
    seq(|buttons.items|, i requires 0 <= i < |buttons.items| => ReplyButton(buttons.items[i]))
  }

  /** The `interactive` part of `InteractiveButtons#body`, with the header and the
      footer deleted when their text is blank. */
  function ButtonsInteractive(data: map<string, Json>): Json
    requires ArrayOfObjects(Get(data, "buttons"))
  {
    var always := map["type" := Str("button"),
                      "body" := Obj(map["text" := Get(data, "body_text")]),
                      "action" := Obj(map["buttons" := Arr(ReplyButtons(Get(data, "buttons")))])];
    var withHeader := if Blank(Get(data, "header_text")) then always
                      else always["header" := Obj(map["type" := Str("text"), "text" := Get(data, "header_text")])];
    var withFooter := if Blank(Get(data, "footer_text")) then withHeader
                      else withHeader["footer" := Obj(map["text" := Get(data, "footer_text")])];
    Obj(withFooter)
  }

  function InteractiveButtonsBody(to: Json, data: map<string, Json>): Json
    requires ArrayOfObjects(Get(data, "buttons"))
  {
    WithPart(to, "interactive", "interactive", ButtonsInteractive(data))
  }

  /** The `interactive` part of `Interactive#body`: the same layout, but the
      header and the footer are always there. */
  function FixedInteractive(data: map<string, Json>): Json
    requires ArrayOfObjects(Get(data, "buttons"))
  {
    Obj(map[
      "type" := Str("button"),
      "header" := Obj(map["type" := Str("text"), "text" := Get(data, "header_text")]),
      "body" := Obj(map["text" := Get(data, "body_text")]),
      "footer" := Obj(map["text" := Get(data, "footer_text")]),
      "action" := Obj(map["buttons" := Arr(ReplyButtons(Get(data, "buttons")))])])
  }

  /** `Interactive#body`. */
  function InteractiveBody(to: Json, data: map<string, Json>): Json
    requires ArrayOfObjects(Get(data, "buttons"))
  {
    WithPart(to, "interactive", "interactive", FixedInteractive(data))
  }

  /** One carousel card at its 0-based position; its body is deleted when the
      card's `body_text` is blank. */
  function Card(card: Json, index: nat): Json
    requires card.Obj?
  {
    var c := card.fields;
    var always := map[
      "card_index" := Num(index),
      "type" := Str("cta_url"),
      "header" := Obj(map["type" := Str("image"), "image" := Obj(map["link" := Get(c, "image_url")])]),
      "action" := Obj(map["name" := Str("cta_url"),
                          "parameters" := Obj(map["display_text" := Get(c, "url_title"), "url" := Get(c, "url")])])];
    if Blank(Get(c, "body_text")) then Obj(always)
    else Obj(always["body" := Obj(map["text" := Get(c, "body_text")])])
  }

  /** `InteractiveCarousel#cards`: `map.with_index` over `data[:cards]`. */
  function Cards(data: map<string, Json>): seq<Json>
    requires ArrayOfObjects(Get(data, "cards"))
  {
    var cs := Get(data, "cards").items;
    seq(|cs|, i requires 0 <= i < |cs| => Card(cs[i], i))
  }

  /** The `interactive` part of `InteractiveCarousel#body`. */
  function CarouselInteractive(data: map<string, Json>): Json
    requires ArrayOfObjects(Get(data, "cards"))
  {
    Obj(map[
      "type" := Str("carousel"),
      "body" := Obj(map["text" := Get(data, "body_text")]),
      "action" := Obj(map["cards" := Arr(Cards(data))])])
  }

  function InteractiveCarouselBody(to: Json, data: map<string, Json>): Json
    requires ArrayOfObjects(Get(data, "cards"))
  {
    WithPart(to, "interactive", "interactive", CarouselInteractive(data))
  }

  /** `ReadReceipt#body`: addresses the message, not the user, so there is no
      recipient. */
  function ReadReceiptBody(data: map<string, Json>): Json
  {
    Obj(map["messaging_product" := Str("whatsapp"), "status" := Str("read"), "message_id" := Get(data, "message_id")])
  }

  /** `body` does not raise: the button and card lists are arrays of hashes. */
  predicate Renderable(e: Envelope)
  {
    match e.kind
    case InteractiveButtons => ArrayOfObjects(Get(e.data, "buttons"))
    case Interactive => ArrayOfObjects(Get(e.data, "buttons"))
    case InteractiveCarousel => ArrayOfObjects(Get(e.data, "cards"))
    case _ => true
  }

  /** `envelope.body`, dispatched on the envelope's class. */
  function Body(e: Envelope): Json
    requires Renderable(e)
  {
    match e.kind
    case Base => BaseBody(e.to)
    case Text => TextBody(e.to, e.data)
    case InteractiveButtons => InteractiveButtonsBody(e.to, e.data)
    case Interactive => InteractiveBody(e.to, e.data)
    case InteractiveCarousel => InteractiveCarouselBody(e.to, e.data)
    case ReadReceipt => ReadReceiptBody(e.data)
  }

  /** The three recipient fields every body but the read receipt starts with. */
  predicate KeepsBaseFields(body: Json, to: Json)
  {
    body.Obj? &&
    Field(body, "messaging_product") == Str("whatsapp") &&
    Field(body, "recipient_type") == Str("individual") &&
    HasKey(body, "to") && Field(body, "to") == to
  }

  // ---------------------------------------------------------------- Base

  /** The base body has exactly the product, the recipient kind and the recipient,
      keeps the `to` key when the recipient is nil, and ignores the data. */
  lemma BaseBodyShape(to: Json, data: map<string, Json>, other: map<string, Json>)
    ensures var b := Body(Envelope(Base, to, data));
            && b.fields.Keys == {"messaging_product", "recipient_type", "to"}
            && KeepsBaseFields(b, to)
            && b == Body(Envelope(Base, to, other))
  {
  }

  // ---------------------------------------------------------------- Text

  /** The text body has exactly five keys: the base fields, `type: "text"` and
      `text: { body: data[:body] }`. */
  lemma TextBodyShape(to: Json, data: map<string, Json>)
    ensures var b := Body(Envelope(Text, to, data));
            && b.fields.Keys == {"messaging_product", "recipient_type", "to", "type", "text"}
            && KeepsBaseFields(b, to)
            && Field(b, "type") == Str("text")
            && Field(b, "text") == Obj(map["body" := Get(data, "body")])
  {
  }

  /** Only `data[:body]` is read. */
  lemma TextReadsOnlyBody(to: Json, data: map<string, Json>, other: map<string, Json>)
    requires Get(data, "body") == Get(other, "body")
    ensures Body(Envelope(Text, to, data)) == Body(Envelope(Text, to, other))
  {
  }

  // ---------------------------------------------------------------- InteractiveButtons

  /** The interactive part of the buttons envelope, field by field. */
  lemma ButtonsInteractiveShape(data: map<string, Json>)
    requires ArrayOfObjects(Get(data, "buttons"))
    ensures var it := ButtonsInteractive(data);
            && Field(it, "type") == Str("button")
            && Field(Field(it, "body"), "text") == Get(data, "body_text")
            && Field(Field(it, "action"), "buttons") == Arr(ReplyButtons(Get(data, "buttons")))
            && (HasKey(it, "header") <==> Present(Get(data, "header_text")))
            && (HasKey(it, "header") ==>
                  Field(it, "header") == Obj(map["type" := Str("text"), "text" := Get(data, "header_text")]))
            && (HasKey(it, "footer") <==> Present(Get(data, "footer_text")))
            && (HasKey(it, "footer") ==> Field(it, "footer") == Obj(map["text" := Get(data, "footer_text")]))
  {
  }

  /** The buttons body is the base body with type "interactive" and that part. */
  lemma ButtonsBodyPart(to: Json, data: map<string, Json>)
    requires ArrayOfObjects(Get(data, "buttons"))
    ensures var b := Body(Envelope(InteractiveButtons, to, data));
            && KeepsBaseFields(b, to)
            && Field(b, "type") == Str("interactive")
            && Field(b, "interactive") == ButtonsInteractive(data)
  {
    WithPartShape(to, "interactive", "interactive", ButtonsInteractive(data));
  }

  /** An interactive-buttons body keeps the base fields, has type "interactive"
      with an interactive part of type "button" whose body text is `body_text`. */
  lemma ButtonsBodyShape(to: Json, data: map<string, Json>)
    requires ArrayOfObjects(Get(data, "buttons"))
    ensures var b := Body(Envelope(InteractiveButtons, to, data));
            && KeepsBaseFields(b, to)
            && Field(b, "type") == Str("interactive")
            && Field(Field(b, "interactive"), "type") == Str("button")
            && Field(Field(Field(b, "interactive"), "body"), "text") == Get(data, "body_text")
  {
    ButtonsBodyPart(to, data);
    ButtonsInteractiveShape(data);
  }

  /** The header is present exactly when `header_text` is not blank, and is then a
      text header; the footer likewise with `footer_text`. */
  lemma ButtonsHeaderAndFooter(to: Json, data: map<string, Json>)
    requires ArrayOfObjects(Get(data, "buttons"))
    ensures var it := Field(Body(Envelope(InteractiveButtons, to, data)), "interactive");
            && (HasKey(it, "header") <==> Present(Get(data, "header_text")))
            && (HasKey(it, "header") ==>
                  Field(it, "header") == Obj(map["type" := Str("text"), "text" := Get(data, "header_text")]))
            && (HasKey(it, "footer") <==> Present(Get(data, "footer_text")))
            && (HasKey(it, "footer") ==> Field(it, "footer") == Obj(map["text" := Get(data, "footer_text")]))
  {
    ButtonsBodyPart(to, data);
    ButtonsInteractiveShape(data);
  }

  /** The buttons are the input buttons, one for one and in order, as reply buttons. */
  lemma ButtonsInOrder(to: Json, data: map<string, Json>)
    requires ArrayOfObjects(Get(data, "buttons"))
    ensures var bs := Get(data, "buttons").items;
            var out := Field(Field(Field(Body(Envelope(InteractiveButtons, to, data)), "interactive"), "action"), "buttons");
            && out.Arr? && |out.items| == |bs|
            && forall i :: 0 <= i < |bs| ==>
                 out.items[i] == Obj(map["type" := Str("reply"),
                                         "reply" := Obj(map["id" := Field(bs[i], "id"), "title" := Field(bs[i], "title")])])
  {
    ButtonsBodyPart(to, data);
    ButtonsInteractiveShape(data);
  }

  /** Reply button i answers with the id of input button i. */
  lemma ButtonReplyIds(to: Json, data: map<string, Json>, bs: seq<Json>)
    requires Get(data, "buttons") == Arr(bs) && ArrayOfObjects(Arr(bs))
    ensures var out := Field(Field(Field(Body(Envelope(InteractiveButtons, to, data)), "interactive"), "action"), "buttons");
            && out.Arr? && |out.items| == |bs|
            && forall i :: 0 <= i < |bs| ==> Field(Field(out.items[i], "reply"), "id") == Field(bs[i], "id")
  {
    ButtonsInOrder(to, data);
  }

  /** `header_image` is never read: adding it changes nothing, so data carrying
      only an image gets no header at all. */
  lemma ButtonsIgnoreHeaderImage(to: Json, data: map<string, Json>, image: Json)
    requires ArrayOfObjects(Get(data, "buttons"))
    ensures ArrayOfObjects(Get(data["header_image" := image], "buttons"))
    ensures Body(Envelope(InteractiveButtons, to, data["header_image" := image])) ==
            Body(Envelope(InteractiveButtons, to, data))
    ensures Blank(Get(data, "header_text")) ==>
              !HasKey(Field(Body(Envelope(InteractiveButtons, to, data["header_image" := image])), "interactive"), "header")
  {
    assert Get(data["header_image" := image], "buttons") == Get(data, "buttons");
  }

  // ---------------------------------------------------------------- Interactive

  /** The older interactive body always has a text header and a footer, even when
      their texts are nil, and maps the buttons like the buttons envelope. */
  lemma InteractiveAlwaysHasHeaderAndFooter(to: Json, data: map<string, Json>)
    requires ArrayOfObjects(Get(data, "buttons"))
    ensures var b := Body(Envelope(Interactive, to, data));
            var it := Field(b, "interactive");
            && KeepsBaseFields(b, to)
            && Field(b, "type") == Str("interactive")
            && Field(it, "type") == Str("button")
            && HasKey(it, "header")
            && Field(it, "header") == Obj(map["type" := Str("text"), "text" := Get(data, "header_text")])
            && HasKey(it, "footer") && Field(it, "footer") == Obj(map["text" := Get(data, "footer_text")])
            && Field(Field(it, "body"), "text") == Get(data, "body_text")
            && Field(Field(it, "action"), "buttons") == Arr(ReplyButtons(Get(data, "buttons")))
  {
    WithPartShape(to, "interactive", "interactive", FixedInteractive(data));
  }

  /** Two bodies of the same layout differ exactly when their parts differ. */
  lemma WithPartInjective(to: Json, partType: string, key: string, p: Json, q: Json)
    ensures WithPart(to, partType, key, p) == WithPart(to, partType, key, q) <==> p == q
  {
    if WithPart(to, partType, key, p) == WithPart(to, partType, key, q) {
      assert WithPart(to, partType, key, p).fields[key] == p;
    }
  }

  /** The two button envelopes coincide exactly when both header and footer texts
      are present. */
  lemma InteractiveMatchesButtons(to: Json, data: map<string, Json>)
    requires ArrayOfObjects(Get(data, "buttons"))
    ensures Body(Envelope(Interactive, to, data)) == Body(Envelope(InteractiveButtons, to, data))
            <==> Present(Get(data, "header_text")) && Present(Get(data, "footer_text"))
  {
    var it1 := FixedInteractive(data);
    var it2 := ButtonsInteractive(data);
    WithPartInjective(to, "interactive", "interactive", it1, it2);
    ButtonsInteractiveShape(data);
    if Blank(Get(data, "header_text")) {
      assert HasKey(it1, "header") && !HasKey(it2, "header");
    } else if Blank(Get(data, "footer_text")) {
      assert HasKey(it1, "footer") && !HasKey(it2, "footer");
    } else {
      assert it1.fields == it2.fields;
    }
  }

  // ---------------------------------------------------------------- InteractiveCarousel

  /** A carousel body keeps the base fields, has type "interactive" with an
      interactive part of type "carousel" and body text `body_text`, and one card
      per input card, in order. */
  lemma CarouselShape(to: Json, data: map<string, Json>)
    requires ArrayOfObjects(Get(data, "cards"))
    ensures var b := Body(Envelope(InteractiveCarousel, to, data));
            var it := Field(b, "interactive");
            var out := Field(Field(it, "action"), "cards");
            && KeepsBaseFields(b, to)
            && Field(b, "type") == Str("interactive")
            && Field(it, "type") == Str("carousel")
            && Field(Field(it, "body"), "text") == Get(data, "body_text")
            && out.Arr? && |out.items| == |Get(data, "cards").items|
  {
    WithPartShape(to, "interactive", "interactive", CarouselInteractive(data));
  }

  /** A rendered card `c` for the input `card` at position `index`: it carries
      `card_index`, type "cta_url", an image header linking `image_url`, a
      "cta_url" action showing `url_title` and opening `url`, and a body exactly
      when the card's `body_text` is not blank. */
  predicate CardRendered(c: Json, card: Json, index: nat)
  {
    && Field(c, "card_index") == Num(index)
    && Field(c, "type") == Str("cta_url")
    && HasKey(c, "header") && HasKey(c, "action")
    && Field(c, "header") == Obj(map["type" := Str("image"), "image" := Obj(map["link" := Field(card, "image_url")])])
    && Field(Field(c, "action"), "name") == Str("cta_url")
    && Field(Field(Field(c, "action"), "parameters"), "display_text") == Field(card, "url_title")
    && Field(Field(Field(c, "action"), "parameters"), "url") == Field(card, "url")
    && (HasKey(c, "body") <==> Present(Field(card, "body_text")))
    && (HasKey(c, "body") ==> Field(c, "body") == Obj(map["text" := Field(card, "body_text")]))
  }

  lemma CardShape(card: Json, index: nat)
    requires card.Obj?
    ensures CardRendered(Card(card, index), card, index)
  {
  }

  /** The card at position i of a carousel body renders the i-th input card. */
  lemma CarouselCard(to: Json, data: map<string, Json>, i: nat)
    requires ArrayOfObjects(Get(data, "cards"))
    requires i < |Get(data, "cards").items|
    ensures var out := Field(Field(Field(Body(Envelope(InteractiveCarousel, to, data)), "interactive"), "action"), "cards");
            && out.Arr? && i < |out.items|
            && CardRendered(out.items[i], Get(data, "cards").items[i], i)
  {
    var out := Field(Field(Field(Body(Envelope(InteractiveCarousel, to, data)), "interactive"), "action"), "cards");
    assert out == Arr(Cards(data));
    CardShape(Get(data, "cards").items[i], i);
  }

  // ---------------------------------------------------------------- ReadReceipt

  /** The read receipt has exactly the product, the status "read" and the message
      id: no recipient and no recipient kind, whatever `to` is, and only
      `data[:message_id]` is read. */
  lemma ReadReceiptShape(to: Json, otherTo: Json, data: map<string, Json>, other: map<string, Json>)
    ensures var b := Body(Envelope(ReadReceipt, to, data));
            && b.fields.Keys == {"messaging_product", "status", "message_id"}
            && !HasKey(b, "to") && !HasKey(b, "recipient_type")
            && Field(b, "status") == Str("read")
            && Field(b, "message_id") == Get(data, "message_id")
            && b == Body(Envelope(ReadReceipt, otherTo, data))
            && (Get(other, "message_id") == Get(data, "message_id") ==> b == Body(Envelope(ReadReceipt, to, other)))
  {
  }
}
