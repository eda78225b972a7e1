/** The conversation workflows. Each handler is a function from what it reads
    (the received message, the parent workflow, the setting's config, the
    organization, query results, translated strings) to the list of effects it
    performs, in order; `Perform` then runs such a list against an adapter. */
module Workflows {
  import opened Ruby
  import opened Envelopes
  import opened Registries
  import WhatsappNormalizer
  import LegacyMessage
  import ChatbotModels
  import Adapters

  /** An effect of a workflow: `adapter.send!(envelope)`,
      `adapter.send_message!(text)`, `adapter.mark_as_read!(message)` (by the
      message's id), `delegate_workflow(class)`, `reset_workflows` and
      `parent_workflow.clear_delegated_workflow`. The last three are conversation
      transitions whose implementation is not part of this model. */
  datatype Action =
    | Send(envelope: Envelope)
    | SendText(text: Json)
    | MarkRead(messageId: Json)
    | Delegate(workflow: string)
    | Reset
    | ClearParent

  /** `{ id:, title: }`. */
  function Button(id: string, title: string): Json
  {
    Obj(map["id" := Str(id), "title" := Str(title)])
  }

  /** The welcome buttons of both the organization and the space workflows:
      "start", then "end" unless `parent_workflow` is nil. */
  function ConversationButtons(parent: Option<string>, participate: string, endTitle: string): (r: seq<Json>)
    ensures |r| == if parent.Some? then 2 else 1
    ensures r[0] == Button("start", participate)
    ensures parent.Some? ==> r[1] == Button("end", endTitle)
    ensures ArrayOfObjects(Arr(r))
  {
    var buttons := [Button("start", participate)];
    if parent.None? then buttons else buttons + [Button("end", endTitle)]
  }

  // ---------------------------------------------------------------- OrganizationWelcomeWorkflow

  /** `welcome_body_text`: the configured `custom_text` when present, otherwise
      the sanitised organization description. */
  function WelcomeBodyText(config: map<string, Json>, description: string): (r: Json)
    ensures Present(Get(config, "custom_text")) ==> r == Get(config, "custom_text")
    ensures Blank(Get(config, "custom_text")) ==> r == Str(description)
  {
    var custom := Presence(Get(config, "custom_text"));
    if Truthy(custom) then custom else Str(description)
  }

  /** The data of the organization welcome envelope. */
  function WelcomeData(org: ChatbotModels.Organization, config: map<string, Json>, parent: Option<string>,
                       participate: string, endTitle: string): map<string, Json>
  {
    map["header_text" := Str(org.name),
        "body_text" := WelcomeBodyText(config, org.description),
        "buttons" := Arr(ConversationButtons(parent, participate, endTitle))]
  }

  /** `process_user_input` of the organization welcome: one interactive-buttons
      envelope to the sender, headed by the organization name. */
  function WelcomeUserInput(msg: WhatsappNormalizer.Normalized, org: ChatbotModels.Organization,
                            config: map<string, Json>, parent: Option<string>,
                            participate: string, endTitle: string): (r: seq<Action>)
    ensures |r| == 1 && r[0].Send?
    ensures var e := r[0].envelope;
            && e.kind == InteractiveButtons && e.to == msg.from
            && Get(e.data, "header_text") == Str(org.name)
            && Get(e.data, "body_text") == WelcomeBodyText(config, org.description)
            && Get(e.data, "buttons") == Arr(ConversationButtons(parent, participate, endTitle))
            && Renderable(e)
  {
    var data := WelcomeData(org, config, parent, participate, endTitle);
    assert Get(data, "buttons") == Arr(ConversationButtons(parent, participate, endTitle));
    [Send(Envelope(InteractiveButtons, msg.from, data))]
  }

  /** The class `delegate_to_configured_workflow` falls back to. */
  const ParticipatorySpaceWorkflowClass: string := "Decidim::Chatbot::Workflows::ParticipatorySpaceWorkflow"

  /** The configured `delegate_workflow`, when it names a registered manifest
      whose workflow class is loaded; ParticipatorySpaceWorkflow otherwise. */
  function DelegateTarget(config: map<string, Json>, registry: seq<StartWorkflowManifest>, loaded: set<string>): (r: string)
    ensures var name := Get(config, "delegate_workflow");
            var m := FindWorkflow(registry, ToS(name));
            if Present(name) && m.Some? && ManifestWorkflow(m.value, loaded).Some?
            then r == m.value.workflowClass && r in loaded
            else r == ParticipatorySpaceWorkflowClass
  {
    var name := Get(config, "delegate_workflow");
    if Present(name) then
      var m := FindWorkflow(registry, ToS(name));
      if m.Some? && ManifestWorkflow(m.value, loaded).Some? then ManifestWorkflow(m.value, loaded).value
      else ParticipatorySpaceWorkflowClass
    else ParticipatorySpaceWorkflowClass
  }

  /** `process_action_input` of the organization welcome: "start" delegates,
      "end" resets, any other button does nothing. */
  function WelcomeActionInput(msg: WhatsappNormalizer.Normalized, config: map<string, Json>,
                              registry: seq<StartWorkflowManifest>, loaded: set<string>): (r: seq<Action>)
    ensures msg.buttonId == Str("start") ==> r == [Delegate(DelegateTarget(config, registry, loaded))]
    ensures msg.buttonId == Str("end") ==> r == [Reset]
    ensures msg.buttonId != Str("start") && msg.buttonId != Str("end") ==> r == []
  {
    if msg.buttonId == Str("start") then [Delegate(DelegateTarget(config, registry, loaded))]
    else if msg.buttonId == Str("end") then [Reset]
    else []
  }

  /** The rendered welcome carries the organization name as a text header
      exactly when the name is not blank, and the welcome body text. */
  lemma WelcomeRendered(msg: WhatsappNormalizer.Normalized, org: ChatbotModels.Organization,
                        config: map<string, Json>, parent: Option<string>, participate: string, endTitle: string)
    ensures var e := WelcomeUserInput(msg, org, config, parent, participate, endTitle)[0].envelope;
            var it := Field(Body(e), "interactive");
            && (HasKey(it, "header") <==> !BlankString(org.name))
            && (HasKey(it, "header") ==> Field(it, "header") == Obj(map["type" := Str("text"), "text" := Str(org.name)]))
            && Field(Field(it, "body"), "text") == WelcomeBodyText(config, org.description)
  {
    var e := WelcomeUserInput(msg, org, config, parent, participate, endTitle)[0].envelope;
    ButtonsHeaderAndFooter(e.to, e.data);
    ButtonsBodyShape(e.to, e.data);
  }

  /** The rendered welcome has one reply button per welcome button: "start",
      then "end" for a delegated conversation. */
  lemma WelcomeButtonsRendered(msg: WhatsappNormalizer.Normalized, org: ChatbotModels.Organization,
                               config: map<string, Json>, parent: Option<string>, participate: string, endTitle: string)
    ensures var e := WelcomeUserInput(msg, org, config, parent, participate, endTitle)[0].envelope;
            var out := Field(Field(Field(Body(e), "interactive"), "action"), "buttons");
            && out.Arr? && |out.items| == (if parent.Some? then 2 else 1)
            && Field(Field(out.items[0], "reply"), "id") == Str("start")
            && (parent.Some? ==> Field(Field(out.items[1], "reply"), "id") == Str("end"))
  {
    var e := WelcomeUserInput(msg, org, config, parent, participate, endTitle)[0].envelope;
    var bs := ConversationButtons(parent, participate, endTitle);
    ButtonReplyIds(e.to, e.data, bs);
    assert Field(bs[0], "id") == Str("start");
    assert parent.Some? ==> Field(bs[1], "id") == Str("end");
  }

  /** Without a usable configured target, "start" delegates to the participatory
      space workflow. */
  lemma DelegateFallback(config: map<string, Json>, registry: seq<StartWorkflowManifest>, loaded: set<string>)
    requires Blank(Get(config, "delegate_workflow")) ||
             forall i :: 0 <= i < |registry| ==> registry[i].name != ToS(Get(config, "delegate_workflow"))
    ensures DelegateTarget(config, registry, loaded) == ParticipatorySpaceWorkflowClass
  {
  }

  // ---------------------------------------------------------------- ParticipatorySpaceWorkflow

  /** A participatory space: title and stripped short description as plain
      strings, and the hero image URL when an image is attached. */
  datatype Space = Space(title: string, shortDescription: string, heroImageUrl: Option<Json>)

  /** `organization.participatory_spaces.first`. */
  function FirstSpace(spaces: seq<Space>): (r: Option<Space>)
    ensures r.Some? <==> |spaces| > 0
    ensures r.Some? ==> r.value == spaces[0]
  {
    if |spaces| == 0 then None else Some(spaces[0])
  }

  const HangOnText: string := "Hang on! The participation process is not implemented yet."

  /** The data of the space welcome envelope; `header_image` is added only when
      the space has a hero image. */
  function SpaceWelcomeData(space: Space, parent: Option<string>, participate: string, endTitle: string): (r: map<string, Json>)
    ensures ("header_image" in r) <==> space.heroImageUrl.Some?
    ensures space.heroImageUrl.Some? ==> r["header_image"] == space.heroImageUrl.value
    ensures Get(r, "footer_text") == Str(space.title)
    ensures Get(r, "body_text").Str? && |Get(r, "body_text").s| <= 200
    ensures Get(r, "body_text") == Str(Truncate(space.shortDescription, 200))
    ensures Get(r, "buttons") == Arr(ConversationButtons(parent, participate, endTitle))
    ensures "header_text" !in r
  {
    var data := map["footer_text" := Str(space.title),
                    "body_text" := Str(Truncate(space.shortDescription, 200)),
                    "buttons" := Arr(ConversationButtons(parent, participate, endTitle))];
    if space.heroImageUrl.Some? then data["header_image" := space.heroImageUrl.value] else data
  }

  /** `process_user_input` of the space workflow: without a space, the single
      "no spaces" text; otherwise one interactive-buttons welcome to the sender. */
  function SpaceUserInput(msg: WhatsappNormalizer.Normalized, space: Option<Space>, parent: Option<string>,
                          noSpaces: string, participate: string, endTitle: string): (r: seq<Action>)
    ensures |r| == 1
    ensures space.None? ==> r == [SendText(Str(noSpaces))]
    ensures space.Some? ==> r == [Send(Envelope(InteractiveButtons, msg.from,
                                                SpaceWelcomeData(space.value, parent, participate, endTitle)))]
  {
    if space.None? then [SendText(Str(noSpaces))]
    else [Send(Envelope(InteractiveButtons, msg.from, SpaceWelcomeData(space.value, parent, participate, endTitle)))]
  }

  /** `process_action_input` of the space workflow: "start" answers with the
      "Hang on!" text, "end" resets, any other button does nothing. */
  function SpaceActionInput(msg: WhatsappNormalizer.Normalized): (r: seq<Action>)
    ensures msg.buttonId == Str("start") ==> r == [SendText(Str(HangOnText))]
    ensures msg.buttonId == Str("end") ==> r == [Reset]
    ensures msg.buttonId != Str("start") && msg.buttonId != Str("end") ==> r == []
  {
    if msg.buttonId == Str("start") then [SendText(Str(HangOnText))]
    else if msg.buttonId == Str("end") then [Reset]
    else []
  }

  /** The space welcome as rendered by the interactive-buttons envelope never has
      a header: the hero image is put in `header_image`, which that envelope
      does not read. Its footer is the title exactly when the title is not blank. */
  lemma SpaceWelcomeHasNoHeader(to: Json, space: Space, parent: Option<string>, participate: string, endTitle: string)
    ensures var data := SpaceWelcomeData(space, parent, participate, endTitle);
            ArrayOfObjects(Get(data, "buttons")) &&
            var it := Field(Body(Envelope(InteractiveButtons, to, data)), "interactive");
            && !HasKey(it, "header")
            && (HasKey(it, "footer") <==> !BlankString(space.title))
  {
    var data := SpaceWelcomeData(space, parent, participate, endTitle);
    ButtonsHeaderAndFooter(to, data);
  }

  // ---------------------------------------------------------------- MeetingsWorkflow

  /** A published meeting: title, stripped description and URL as plain strings. */
  datatype Meeting = Meeting(title: string, description: string, url: string)

  const MeetingsLimit: nat := 10

  /** `.limit(10)` on the query result. */
  function LatestMeetings(meetings: seq<Meeting>): (r: seq<Meeting>)
    ensures |r| == if |meetings| < MeetingsLimit then |meetings| else MeetingsLimit
    ensures r == meetings[..|r|]
  {
    if |meetings| < MeetingsLimit then meetings else meetings[..MeetingsLimit]
  }

  /** The card data for one meeting. */
  function MeetingCard(m: Meeting, imageUrl: string): Json
  {
    Obj(map["image_url" := Str(imageUrl),
            "body_text" := Str(Truncate(m.description, 100)),
            "url_title" := Str(m.title),
            "url" := Str(m.url)])
  }

  lemma MeetingCardFields(m: Meeting, imageUrl: string)
    ensures var card := MeetingCard(m, imageUrl);
            && Field(card, "url_title") == Str(m.title)
            && Field(card, "url") == Str(m.url)
            && Field(card, "body_text") == Str(Truncate(m.description, 100))
  {
  }

  function MeetingCards(meetings: seq<Meeting>, imageUrl: string): (r: seq<Json>)
    ensures |r| == |meetings|
    ensures forall i :: 0 <= i < |meetings| ==> r[i] == MeetingCard(meetings[i], imageUrl)
    ensures ArrayOfObjects(Arr(r))
  {
    seq(|meetings|, i requires 0 <= i < |meetings| => MeetingCard(meetings[i], imageUrl))
  }

  /** `process_user_input` of the meetings workflow: one carousel of the latest
      meetings to the sender, then the parent is cleared when there is one. */
  function MeetingsUserInput(msg: WhatsappNormalizer.Normalized, meetings: seq<Meeting>, parent: Option<string>,
                             latestMeetings: string, imageUrl: string): (r: seq<Action>)
    ensures |r| == if parent.Some? then 2 else 1
    ensures r[0] == Send(Envelope(InteractiveCarousel, msg.from,
                                  map["body_text" := Str(latestMeetings),
                                      "cards" := Arr(MeetingCards(LatestMeetings(meetings), imageUrl))]))
    ensures parent.Some? ==> r[1] == ClearParent
  {
    var carousel := Envelope(InteractiveCarousel, msg.from,
                             map["body_text" := Str(latestMeetings),
                                 "cards" := Arr(MeetingCards(LatestMeetings(meetings), imageUrl))]);
    [Send(carousel)] + (if parent.Some? then [ClearParent] else [])
  }

  /** The rendered carousel has one card per meeting, at most ten. */
  lemma MeetingsCarouselRendered(msg: WhatsappNormalizer.Normalized, meetings: seq<Meeting>, parent: Option<string>,
                                 latestMeetings: string, imageUrl: string)
    ensures var e := MeetingsUserInput(msg, meetings, parent, latestMeetings, imageUrl)[0].envelope;
            Renderable(e) &&
            var out := Field(Field(Field(Body(e), "interactive"), "action"), "cards");
            && out.Arr? && |out.items| <= MeetingsLimit && |out.items| == |LatestMeetings(meetings)|
  {
    var e := MeetingsUserInput(msg, meetings, parent, latestMeetings, imageUrl)[0].envelope;
    assert Get(e.data, "cards") == Arr(MeetingCards(LatestMeetings(meetings), imageUrl));
    CarouselShape(e.to, e.data);
  }

  /** The cards keep the query order: card i is indexed i, links the URL of
      meeting i under its title, and has a body of at most 100 characters
      exactly when the description is not blank. */
  lemma MeetingCardRendered(msg: WhatsappNormalizer.Normalized, meetings: seq<Meeting>, parent: Option<string>,
                            latestMeetings: string, imageUrl: string, i: nat)
    requires i < |LatestMeetings(meetings)|
    ensures var e := MeetingsUserInput(msg, meetings, parent, latestMeetings, imageUrl)[0].envelope;
            Renderable(e) &&
            var out := Field(Field(Field(Body(e), "interactive"), "action"), "cards");
            && out.Arr? && i < |out.items| && i < |meetings|
            && Field(out.items[i], "card_index") == Num(i)
            && Field(Field(Field(out.items[i], "action"), "parameters"), "display_text") == Str(meetings[i].title)
            && Field(Field(Field(out.items[i], "action"), "parameters"), "url") == Str(meetings[i].url)
            && (HasKey(out.items[i], "body") <==> !BlankString(Truncate(meetings[i].description, 100)))
            && (HasKey(out.items[i], "body") ==>
                  var t := Field(Field(out.items[i], "body"), "text"); t.Str? && |t.s| <= 100)
  {
    var e := MeetingsUserInput(msg, meetings, parent, latestMeetings, imageUrl)[0].envelope;
    var latest := LatestMeetings(meetings);
    assert Get(e.data, "cards") == Arr(MeetingCards(latest, imageUrl));
    CarouselCard(e.to, e.data, i);
    assert latest[i] == meetings[i];
    MeetingCardFields(meetings[i], imageUrl);
  }

  // ---------------------------------------------------------------- SimpleGreetingsWorkflow and CommentProposalsWorkflow

  /** The prefix of the echo both workflows send, "📬 Received:" and a newline. */
  const ReceivedPrefix: string := "\U{1F4EC} Received:\n"

  /** The text envelope echoing a message body back to its sender. */
  function EchoEnvelope(to: Json, body: Json): (e: Envelope)
    ensures e.kind == Text && e.to == to
    ensures Get(e.data, "body") == Str(ReceivedPrefix + ToS(body))
  {
    Envelope(Text, to, map["body" := Str(ReceivedPrefix + ToS(body))])
  }

  /** What `process!` does and returns. */
  datatype Processed = Processed(actions: seq<Action>, result: Json)

  const StatusOk: Json := Obj(map["status" := Str("ok")])

  /** `SimpleGreetingsWorkflow#process!` as written, on the adapter built from
      `payload`. Its `received_message` is the adapter's: the base adapter
      raises `NotImplementedError`, and the record the WhatsApp adapter
      returns, a `MessageNormalizer`, defines no `from_user?`, so once that
      record is built the guard raises `NoMethodError` before anything is
      marked read or sent. */
  function GreetingsProcess(provider: Adapters.Provider, payload: Json): (r: Result<Processed>)
    requires provider == Adapters.WhatsappProvider ==> WhatsappNormalizer.Constructible(payload)
    ensures provider == Adapters.BaseProvider ==> r == Raised(NotImplementedError)
    ensures provider == Adapters.WhatsappProvider ==> r == Raised(NoMethodError("from_user?"))
  {
    if provider == Adapters.BaseProvider then Raised(NotImplementedError)
    else Raised(NoMethodError("from_user?"))
  }

  /** The guard `process!` evidently means: `from.present?`, which is how the
      legacy `Whatsapp::Message` defines `from_user?`, asked of the adapter's
      own record. */
  predicate FromUser(n: WhatsappNormalizer.Normalized)
  {
    Present(n.from)
  }

  /** `process!` with that guard: for a message from a user, mark it read and
      then echo it; otherwise do nothing. The answer is `{status: :ok}` either
      way. */
  function GreetingsIntended(n: WhatsappNormalizer.Normalized): (r: Processed)
    ensures r.result == StatusOk
    ensures FromUser(n) ==> r.actions == [MarkRead(n.messageId), Send(EchoEnvelope(n.from, n.body))]
    ensures !FromUser(n) ==> r.actions == []
  {
    if FromUser(n) then Processed([MarkRead(n.messageId), Send(EchoEnvelope(n.from, n.body))], StatusOk)
    else Processed([], StatusOk)
  }

  /** On a payload without a contact `wa_id`, the intended guard and the legacy
      message's `from_user?` agree. */
  lemma GreetingsGuardIsLegacyFromUser(json: Json)
    requires LegacyMessage.Constructible(json) && WhatsappNormalizer.Constructible(json)
    requires !Truthy(Dig(Dig(json, WhatsappNormalizer.ValuePath), WhatsappNormalizer.WaIdPath))
    ensures FromUser(WhatsappNormalizer.Normalize(json)) <==> LegacyMessage.FromUser(LegacyMessage.Parse(json))
  {
    LegacyMessage.SenderAgreesWithoutContacts(json);
  }

  /** `CommentProposalsWorkflow#show_menu`: the echo is sent unguarded, even
      without a sender. */
  function ShowMenu(msg: WhatsappNormalizer.Normalized): (r: seq<Action>)
    ensures |r| == 1 && r[0] == Send(EchoEnvelope(msg.from, msg.body))
  {
    [Send(EchoEnvelope(msg.from, msg.body))]
  }

  // ---------------------------------------------------------------- Running the effects

  /** The request one action posts through the WhatsApp adapter whose received
      message is `n`; conversation transitions post nothing (and neither does a
      send whose body cannot be built, which raises instead). */
  function PostedBy(a: Action, config: Adapters.WhatsappConfig, n: WhatsappNormalizer.Normalized): seq<Delivery>
  {
    var url := Adapters.SendUrl(config, n.phoneNumberId);
    match a
    case Send(e) => if Renderable(e) then [Delivery(url, Body(e))] else []
    case SendText(t) => [Delivery(url, TextBody(n.from, map["body" := t]))]
    case MarkRead(id) => [Delivery(url, ReadReceiptBody(map["message_id" := id]))]
    case _ => []
  }

  /** An action can be performed without raising: a send carries an envelope
      whose body can be built. */
  predicate Performable(a: Action)
  {
    a.Send? ==> Renderable(a.envelope)
  }

  predicate AllRenderable(actions: seq<Action>)
  {
    forall i :: 0 <= i < |actions| ==> Performable(actions[i])
  }

  /** The requests a list of actions posts, in order. */
  function Posted(actions: seq<Action>, config: Adapters.WhatsappConfig, n: WhatsappNormalizer.Normalized): (r: seq<Delivery>)
    ensures |r| <= |actions|
    decreases |actions|
  {
    if |actions| == 0 then []
    else Posted(actions[..|actions| - 1], config, n) + PostedBy(actions[|actions| - 1], config, n)
  }

  /** A conversation transition: delegate, reset or clear the parent. */
  predicate IsTransition(a: Action)
  {
    a.Delegate? || a.Reset? || a.ClearParent?
  }

  /** The action itself when it is a conversation transition, nothing otherwise. */
  function TransitionOf(a: Action): seq<Action>
  {
    if IsTransition(a) then [a] else []
  }

  /** The conversation transitions of a list of actions, in order: an action is
      listed exactly when it is one of the actions and a transition. */
  function Transitions(actions: seq<Action>): (r: seq<Action>)
    ensures forall a :: a in r <==> a in actions && IsTransition(a)
    ensures |r| <= |actions|
    decreases |actions|
  {
    if |actions| == 0 then []
    else
      var init := actions[..|actions| - 1];
      assert actions == init + [actions[|actions| - 1]];
      Transitions(init) + TransitionOf(actions[|actions| - 1])
  }

  /** The transitions of two lists run one after the other are those of the
      first, then those of the second: the order of the actions is kept. */
  lemma {:induction false} TransitionsAppend(a: seq<Action>, b: seq<Action>)
    ensures Transitions(a + b) == Transitions(a) + Transitions(b)
    decreases |b|
  {
    if |b| == 0 {
      assert a + b == a;
    } else {
      var init := b[..|b| - 1];
      assert (a + b)[..|a + b| - 1] == a + init;
      assert (a + b)[|a + b| - 1] == b[|b| - 1];
      TransitionsAppend(a, init);
    }
  }

  /** One action through a WhatsApp adapter: the request it posts, if any, is
      appended to the outbox, and the received message stays the same. */
  method PerformOne(adapter: Adapters.Adapter, a: Action, ghost n: WhatsappNormalizer.Normalized)
    requires adapter.provider == Adapters.WhatsappProvider && adapter.memo == Some(n)
    requires Performable(a)
    modifies adapter
    ensures adapter.params == old(adapter.params) && adapter.memo == Some(n)
    ensures adapter.outbox == old(adapter.outbox) + PostedBy(a, adapter.config, n)
  {
    match a {
      case Send(e) =>
        var _ := adapter.Send(e);
      case SendText(t) =>
        var _ := adapter.SendMessage(t);
      case MarkRead(id) =>
        var _ := adapter.MarkAsRead(Adapters.WithMessage(id));
      case _ =>
    }
  }

  /** Extending the list by one action extends what it posts by that action's
      share. */
  lemma {:induction false} PostedStep(actions: seq<Action>, i: nat, config: Adapters.WhatsappConfig,
                                      n: WhatsappNormalizer.Normalized)
    requires i < |actions|
    ensures Posted(actions[..i + 1], config, n) == Posted(actions[..i], config, n) + PostedBy(actions[i], config, n)
  {
    assert actions[..i + 1][..i] == actions[..i];
    assert actions[..i + 1][i] == actions[i];
  }

  /** What has been posted after the first `i + 1` actions, from what had
      been posted after the first `i`. */
  lemma PostedAfter(before: seq<Delivery>, actions: seq<Action>, i: nat, config: Adapters.WhatsappConfig,
                    n: WhatsappNormalizer.Normalized)
    requires i < |actions|
    ensures before + Posted(actions[..i], config, n) + PostedBy(actions[i], config, n) ==
            before + Posted(actions[..i + 1], config, n)
  {
    PostedStep(actions, i, config, n);
  }

  /** Extending the list by one action extends its transitions by that action
      when it is one. */
  lemma {:induction false} TransitionsStep(actions: seq<Action>, i: nat)
    requires i < |actions|
    ensures Transitions(actions[..i + 1]) == Transitions(actions[..i]) + TransitionOf(actions[i])
  {
    assert actions[..i + 1][..i] == actions[..i];
    assert actions[..i + 1][i] == actions[i];
  }

  /** The `i`-th step of `Perform`: extends what the first `i` actions posted
      by the share of action `i`. */
  method PerformStep(adapter: Adapters.Adapter, actions: seq<Action>, i: nat, n: WhatsappNormalizer.Normalized,
                     ghost before: seq<Delivery>)
    requires adapter.provider == Adapters.WhatsappProvider && adapter.memo == Some(n)
    requires AllRenderable(actions) && i < |actions|
    requires adapter.outbox == before + Posted(actions[..i], adapter.config, n)
    modifies adapter
    ensures adapter.params == old(adapter.params) && adapter.memo == Some(n)
    ensures adapter.outbox == before + Posted(actions[..i + 1], adapter.config, n)
  {
    PerformOne(adapter, actions[i], n);
    PostedAfter(before, actions, i, adapter.config, n);
  }

  /** Runs the actions through a WhatsApp adapter: each send, text and read
      receipt is posted once, in order, and the transitions are returned for the
      conversation store. The received message is computed up front; as it is
      memoised, every send sees that same record. */
  method Perform(adapter: Adapters.Adapter, actions: seq<Action>) returns (transitions: seq<Action>)
    requires adapter.provider == Adapters.WhatsappProvider && adapter.MessageReadable()
    requires AllRenderable(actions)
    modifies adapter
    ensures adapter.params == old(adapter.params)
    ensures adapter.MessageReadable() && adapter.Received() == old(adapter.Received())
    ensures adapter.outbox == old(adapter.outbox) + Posted(actions, adapter.config, old(adapter.Received()))
    ensures transitions == Transitions(actions)
  {
    var received := adapter.ReceivedMessage();
    var n := received.value;
    ghost var before := adapter.outbox;
    transitions := [];
    var i := 0;
    while i < |actions|
      invariant 0 <= i <= |actions|
      invariant adapter.params == old(adapter.params) && adapter.memo == Some(n)
      invariant adapter.outbox == before + Posted(actions[..i], adapter.config, n)
      invariant transitions == Transitions(actions[..i])
    {
      PerformStep(adapter, actions, i, n, before);
      TransitionsStep(actions, i);
      transitions := transitions + TransitionOf(actions[i]);
      i := i + 1;
    }
    assert actions[..|actions|] == actions;
  }

  /** With the intended guard, a greeting from a user posts exactly two
      requests to the send URL of the message's phone number: first the read
      receipt for that message, then the echo to its sender. Nothing is posted
      otherwise. */
  lemma GreetingPostsReceiptThenEcho(n: WhatsappNormalizer.Normalized, config: Adapters.WhatsappConfig)
    ensures AllRenderable(GreetingsIntended(n).actions)
    ensures var p := Posted(GreetingsIntended(n).actions, config, n);
            var url := Adapters.SendUrl(config, n.phoneNumberId);
            && (FromUser(n) ==>
                  && |p| == 2
                  && p[0] == Delivery(url, ReadReceiptBody(map["message_id" := n.messageId]))
                  && p[1] == Delivery(url, TextBody(n.from, map["body" := Str(ReceivedPrefix + ToS(n.body))])))
            && (!FromUser(n) ==> p == [])
  {
    var acts := GreetingsIntended(n).actions;
    if FromUser(n) {
      assert acts[..1] == [MarkRead(n.messageId)];
      assert acts[..1][..0] == [];
    }
  }

  /** The discrepancy: a payload whose greeting the intended guard answers
      with two posts makes the code as written raise instead. */
  lemma GreetingRaisesAsWritten(payload: Json, config: Adapters.WhatsappConfig)
    requires WhatsappNormalizer.Constructible(payload)
    requires FromUser(WhatsappNormalizer.Normalize(payload))
    ensures GreetingsProcess(Adapters.WhatsappProvider, payload) == Raised(NoMethodError("from_user?"))
    ensures var n := WhatsappNormalizer.Normalize(payload);
            |Posted(GreetingsIntended(n).actions, config, n)| == 2
  {
    GreetingPostsReceiptThenEcho(WhatsappNormalizer.Normalize(payload), config);
  }

  /** The menu posts exactly one request, the echo to the sender, whoever the
      sender is; for a greeting from a user it is the request posted after the
      read receipt. */
  lemma ShowMenuPostsGreetingEcho(n: WhatsappNormalizer.Normalized, config: Adapters.WhatsappConfig)
    ensures AllRenderable(ShowMenu(n))
    ensures Posted(ShowMenu(n), config, n) ==
            [Delivery(Adapters.SendUrl(config, n.phoneNumberId),
                      TextBody(n.from, map["body" := Str(ReceivedPrefix + ToS(n.body))]))]
    ensures FromUser(n) ==> Posted(ShowMenu(n), config, n) == Posted(GreetingsIntended(n).actions, config, n)[1..]
  {
    assert ShowMenu(n)[..0] == [];
    GreetingPostsReceiptThenEcho(n, config);
  }
}
