# decidim-module-chatbot: the message pipeline in Dafny

This project models the core of the Decidim chatbot engine: a WhatsApp webhook
endpoint that turns inbound payloads into flat message records, answers them by
running conversation workflows, and posts outbound message bodies to the
WhatsApp Cloud API. The admin side stores a per-organization setting that picks
the start workflow and holds its configuration.

The modules follow the repository's classes:

- `Ruby`: the Ruby semantics the code relies on:
  - JSON values, `dig` and when it raises, `blank?`/`present?`/`presence`;
  - truthiness, string interpolation and `truncate`.
- `BaseNormalizer`, `WhatsappNormalizer`, `LegacyMessage`: the inbound records
  and their classification predicates (`acknowledgeable?`, `user_text?`,
  `actionable?`, `from_user?`).
- `Envelopes`: the six outbound envelope classes and their `body` hashes.
- `Adapters`: the base adapter and its WhatsApp subclass. They are one class
  with a provider tag. `Faraday.post` becomes an append to an `outbox`.
- `Webhooks`, `LegacyProcessor`, `Gateways`: the webhook controller, the
  legacy processor, and lemmas comparing their handshakes and replies with the
  adapter's.
- `Registries`, `ChatbotModels`: manifest registries, `safe_constantize`, and
  the `Setting` and `Sender` models.
- `Workflows`: each workflow handler is a function from what it reads to the
  list of effects it performs. `Perform` runs such a list against an adapter.
- `Admin`, `ApplicationHelper`: the setting form, the update command and the
  select-list helpers.

The classification predicates (`BaseNormalizer.Acknowledgeable`, `UserText`,
`Actionable`, their `WhatsappNormalizer` counterparts and
`LegacyMessage.FromUser`) are defined as exactly the conditions the source
tests. The lemmas below relate them to each other and to the extracted fields.

Pure Ruby code is modelled as functions and lemmas. Code that changes state
(the adapter's memo, `params` and posts; the form's `errors`; the setting
record; the helper's `grouped` hash) is modelled as classes and loops, each
proved against a specification function.

In several places the code disagrees with another file of the repository,
either its test suite or another class. The model follows the code in each:

- `MessageNormalizer#user_text?` (`message_normalizer.rb:41-43`) does not check
  `body`, unlike `BaseNormalizer#user_text?` (`base_normalizer.rb:13-15`)
  (`WhatsappNormalizer.BlankTextBodyDisagrees`).
- `MessageNormalizer` has no `from_locale` reader, while
  `message_normalizer_spec.rb:323-327` reads one. `Canonical` maps it to nil.
- `InteractiveButtons#body` never reads `header_image`, while
  `envelopes_spec.rb:105-117` expects an image header. The participatory space
  welcome therefore has no image header (`Envelopes.ButtonsIgnoreHeaderImage`,
  `Workflows.SpaceWelcomeHasNoHeader`).
- Only the controller's handshake (`webhooks_controller.rb:22`) checks presence
  and uses a constant-time compare. The adapter (`adapter.rb:15`) and the
  processor compare with `==` (`Gateways.HandshakesDisagreeOnMissingToken`).
- `UpdateSetting` writes `enabled` into `config`, never into the `enabled`
  column that `map_model` reads back (`Admin.EditAfterUpdate`), while
  `update_setting_spec.rb:43-46` expects `setting.enabled?` to follow the form.
- The processor reads `Decidim::Chatbot.config.whatsapp_verify_token`, which
  `lib/decidim/chatbot.rb` does not declare. The expected token is therefore a
  parameter of `LegacyProcessor.Verify`, and nil is its value in the
  repository as shown.

Two places depart from this rule, because the code as written raises on every
input that reaches it:

- `SimpleGreetingsWorkflow#process!` asks a `MessageNormalizer` for
  `from_user?`, which it does not define. `Workflows.GreetingsProcess` models
  that raise. The evidently intended behaviour is modelled beside it (see
  "## Findings").
- `UpdateSetting#build_config` asks the form for `participatory_space` and
  `component_id`, which `SettingForm` does not define. The model follows the
  test suite instead (see `Admin.UpdateSetting.Call` under "## Left out").

## Model

| member | source | states |
|---|---|---|
| `Ruby.Presence` | app/services/decidim/chatbot/workflows/organization_welcome_workflow.rb:37 | `presence` is the value when it is present and nil when it is blank |
| `Ruby.Truncate` | app/services/decidim/chatbot/workflows/participatory_space_workflow.rb:30 | `truncate(n)` yields at most n characters and leaves a string of at most n characters unchanged |
| `Ruby.TruncateLong` | app/services/decidim/chatbot/workflows/meetings_workflow.rb:16 | a longer string is cut to exactly n characters: its first n-3 characters followed by "..." |
| `Ruby.NatToString` | app/helpers/decidim/chatbot/application_helper.rb:33 | `id.to_s` is a non-empty string of decimal digits |
| `BaseNormalizer.AccessorReadsLastWrite` | app/services/decidim/chatbot/providers/base_normalizer.rb:7 | each accessor returns the value last assigned to it; assigning one accessor leaves every other unchanged |
| `BaseNormalizer.UserTextExcludesActionable` | app/services/decidim/chatbot/providers/base_normalizer.rb:13-19 | `user_text?` and `actionable?` never hold together |
| `BaseNormalizer.ButtonIdMakesAction` | app/services/decidim/chatbot/providers/base_normalizer.rb:13-19 | with a present sender and button id, the message is actionable and not user text, whatever its body |
| `BaseNormalizer.BodyWithoutButtonIsText` | app/services/decidim/chatbot/providers/base_normalizer.rb:13-15 | a present sender and body with a nil button id is user text and not actionable |
| `BaseNormalizer.BlankSenderClassifiesNothing` | app/services/decidim/chatbot/providers/base_normalizer.rb:9-19 | a blank sender makes all three predicates false |
| `BaseNormalizer.FreshClassifiesNothing` | app/services/decidim/chatbot/providers/base_normalizer.rb:6-19 | a new normalizer has every accessor nil and satisfies no predicate |
| `BaseNormalizer.BlankButtonIdBlocksBoth` | app/services/decidim/chatbot/providers/base_normalizer.rb:13-19 | an empty-string button id is neither nil nor present, so the message is neither user text nor actionable |
| `WhatsappNormalizer.WithReply` | app/services/decidim/chatbot/providers/whatsapp/message_normalizer.rb:26-34 | the interactive branch changes only `body` and `button_id` |
| `WhatsappNormalizer.FixedPathFields` | app/services/decidim/chatbot/providers/whatsapp/message_normalizer.rb:9-16 | `json` is the payload and `message_data` its `entry[0].changes[0].value`; `chat_id` is `entry[0].id`; `phone_number_id` and `to` come from `value.metadata`; `from_name` is `contacts[0].profile.name`; `from_metadata` is nil |
| `WhatsappNormalizer.SenderFallback` | app/services/decidim/chatbot/providers/whatsapp/message_normalizer.rb:14-20 | `from` is the contact's `wa_id`, falling back to `messages[0].from` only when `wa_id` is nil or false |
| `WhatsappNormalizer.NoMessagesClassifiesNothing` | app/services/decidim/chatbot/providers/whatsapp/message_normalizer.rb:14-47 | a value with no messages and no contacts gives nil `from`, `message_id`, `body` and `button_id`, and no predicate holds |
| `WhatsappNormalizer.InteractiveReplies` | app/services/decidim/chatbot/providers/whatsapp/message_normalizer.rb:24-34 | for an interactive message, a button reply and a list reply both set `body` to the reply title and `button_id` to the reply id; any other sub-type keeps the text body and a nil button id |
| `WhatsappNormalizer.ButtonIdOnlyWhenInteractive` | app/services/decidim/chatbot/providers/whatsapp/message_normalizer.rb:21-24 | a button id implies type "interactive"; a non-interactive message keeps the text body |
| `WhatsappNormalizer.UserTextExcludesActionable` | app/services/decidim/chatbot/providers/whatsapp/message_normalizer.rb:41-47 | `user_text?` (type "text") and `actionable?` (type "interactive") never hold together |
| `WhatsappNormalizer.Canonical` | app/services/decidim/chatbot/providers/whatsapp/message_normalizer.rb:49 | the normalizer's readers carried over into the base record field by field, with `from_locale` nil since it has no reader |
| `WhatsappNormalizer.AgreesWithBaseNormalizer` | app/services/decidim/chatbot/providers/whatsapp/message_normalizer.rb:37-47 | `acknowledgeable?` and `actionable?` agree with the base normalizer's; `user_text?` implies the base one whenever the body is present |
| `WhatsappNormalizer.BlankTextBodyDisagrees` | app/services/decidim/chatbot/providers/whatsapp/message_normalizer.rb:41-43 | a text message from a present sender with a blank body is user text here but not for the base normalizer |
| `LegacyMessage.ParsedFields` | app/services/decidim/chatbot/whatsapp/message.rb:10-17 | `id`, `phone_number_id`, `from`, `body` and `message_id` come from the fixed paths, the sender only from `messages[0]` |
| `LegacyMessage.NoMessagesNotFromUser` | app/services/decidim/chatbot/whatsapp/message.rb:13-22 | without messages, `from` is nil and `from_user?` is false |
| `LegacyMessage.SenderAgreesWithoutContacts` | app/services/decidim/chatbot/whatsapp/message.rb:14 | without a contact `wa_id`, the legacy message and the normalizer agree on the sender |
| `Registries.Constantize` | lib/decidim/chatbot/start_workflows_manifest.rb:12-14 | `safe_constantize` yields the class exactly when it is loaded |
| `Registries.Find` | app/forms/decidim/chatbot/admin/setting_form.rb:29 | `find` succeeds exactly when some manifest has the name, and then yields the first such manifest |
| `Registries.FindUnique` | app/models/decidim/chatbot/setting.rb:17 | in a registry with distinct names, looking up a manifest's name yields that manifest |
| `ChatbotModels.Setting.AdapterManifest` | app/models/decidim/chatbot/setting.rb:12-14 | the first providers-registry entry named by `provider`, nil exactly when none is registered |
| `ChatbotModels.Setting.Workflow` | app/models/decidim/chatbot/setting.rb:16-18 | the class of the first start-workflow manifest named by `start_workflow`, nil exactly when that class is not loaded; callable only when the name is registered |
| `ChatbotModels.ConfigHash` | app/services/decidim/chatbot/workflows/organization_welcome_workflow.rb:62-64 | `(config \|\| {})`: the stored hash, or the empty hash when config is nil |
| `ChatbotModels.ProviderRequired` | app/models/decidim/chatbot/setting.rb:10 | a setting with a blank provider is invalid |
| `ChatbotModels.UnknownProviderHasNoManifest` | app/models/decidim/chatbot/setting.rb:12-14 | an unregistered provider has no adapter manifest |
| `ChatbotModels.ClassNamed` | app/models/decidim/chatbot/sender.rb:14 | `column&.safe_constantize`: the named class when the column is set and the class is loaded, nil otherwise |
| `ChatbotModels.CurrentWorkflow` | app/models/decidim/chatbot/sender.rb:9-11 | the sender's own workflow class when it resolves, the setting's workflow otherwise |
| `ChatbotModels.ParentWorkflow` | app/models/decidim/chatbot/sender.rb:13-15 | the parent class when it is set and resolves, nil otherwise, with no fallback |
| `ChatbotModels.Locale` | app/models/decidim/chatbot/sender.rb:17-19 | the metadata locale if present, else the user's locale if present, else the organization's default |
| `ChatbotModels.MetadataLocaleWins` | app/models/decidim/chatbot/sender.rb:18 | a present metadata locale wins over the user's locale |
| `ChatbotModels.UnsetWorkflowFollowsSetting` | app/models/decidim/chatbot/sender.rb:10 | a sender with no workflow class follows the setting's workflow |
| `ChatbotModels.DestroySetting` | app/models/decidim/chatbot/setting.rb:7-8 | destroying a setting removes it and exactly the senders and messages that belong to it; the others are kept as they were |
| `ChatbotModels.DestroyLeavesNoOrphans` | app/models/decidim/chatbot/setting.rb:7-8 | after the destroy no sender or message refers to the destroyed setting |
| `Envelopes.WithPartShape` | app/services/decidim/chatbot/providers/whatsapp/envelopes/text.rb:10-15 | `super.merge(type:, key:)` keeps the three base fields and adds exactly the type and the part |
| `Envelopes.BaseBodyShape` | app/services/decidim/chatbot/providers/whatsapp/envelopes/base.rb:16-22 | the base body has exactly product "whatsapp", recipient type "individual" and `to` (the key kept even for a nil recipient), and does not depend on the data |
| `Envelopes.TextBodyShape` | app/services/decidim/chatbot/providers/whatsapp/envelopes/text.rb:9-16 | the text body has exactly five keys: the base fields, type "text" and `text: {body: data[:body]}` |
| `Envelopes.TextReadsOnlyBody` | app/services/decidim/chatbot/providers/whatsapp/envelopes/text.rb:13 | two data hashes with the same `:body` give the same text body |
| `Envelopes.ButtonsInteractiveShape` | app/services/decidim/chatbot/providers/whatsapp/envelopes/interactive_buttons.rb:31-46 | the interactive part has type "button", body text `body_text`, the mapped buttons, a text header exactly when `header_text` is present, and a footer exactly when `footer_text` is present |
| `Envelopes.ButtonsBodyPart` | app/services/decidim/chatbot/providers/whatsapp/envelopes/interactive_buttons.rb:29-31 | the buttons body keeps the base fields and has type "interactive" with that part |
| `Envelopes.ButtonsBodyShape` | app/services/decidim/chatbot/providers/whatsapp/envelopes/interactive_buttons.rb:28-36 | base fields kept, type "interactive", interactive type "button", body text `body_text` |
| `Envelopes.ButtonsHeaderAndFooter` | app/services/decidim/chatbot/providers/whatsapp/envelopes/interactive_buttons.rb:33-45 | `header` present exactly when `header_text` is not blank, then `{type: "text", text: header_text}`; `footer` likewise with `footer_text` |
| `Envelopes.ButtonsInOrder` | app/services/decidim/chatbot/providers/whatsapp/envelopes/interactive_buttons.rb:38-42 | `action.buttons` has one entry per input button, in order, each `{type: "reply", reply: {id, title}}` |
| `Envelopes.ButtonReplyIds` | app/services/decidim/chatbot/providers/whatsapp/envelopes/interactive_buttons.rb:39-40 | reply button i answers with the id of input button i |
| `Envelopes.ButtonsIgnoreHeaderImage` | app/services/decidim/chatbot/providers/whatsapp/envelopes/interactive_buttons.rb:28-47 | adding `header_image` changes nothing, so an image without a header text gives no header |
| `Envelopes.InteractiveAlwaysHasHeaderAndFooter` | app/services/decidim/chatbot/providers/whatsapp/envelopes/interactive.rb:28-45 | base fields kept; the header and the footer keys are always present, even with nil texts; body text and buttons as in the buttons envelope |
| `Envelopes.WithPartInjective` | app/services/decidim/chatbot/providers/whatsapp/envelopes/interactive.rb:29-31 | two bodies of the same type differ exactly when their parts differ |
| `Envelopes.InteractiveMatchesButtons` | app/services/decidim/chatbot/providers/whatsapp/envelopes/interactive.rb:28-45 | the unconditional and the conditional buttons bodies coincide exactly when both header and footer texts are present |
| `Envelopes.CarouselShape` | app/services/decidim/chatbot/providers/whatsapp/envelopes/interactive_carousel.rb:9-25 | base fields kept, type "interactive", interactive type "carousel", body text `body_text`, one card per input card |
| `Envelopes.CardShape` | app/services/decidim/chatbot/providers/whatsapp/envelopes/interactive_carousel.rb:24-48 | a card carries its index, type "cta_url", an image header linking `image_url`, a "cta_url" action with `url_title` and `url`, and a body exactly when `body_text` is not blank |
| `Envelopes.CarouselCard` | app/services/decidim/chatbot/providers/whatsapp/envelopes/interactive_carousel.rb:25-27 | the card at position i of the body renders input card i with `card_index` i |
| `Envelopes.ReadReceiptShape` | app/services/decidim/chatbot/providers/whatsapp/envelopes/read_receipt.rb:9-15 | exactly product, status "read" and `message_id`, no recipient fields, the same whatever `to`, reading only `:message_id` |
| `Adapters.EnvelopeKind` | app/services/decidim/chatbot/providers/whatsapp/adapter.rb:23 | `const_get(type.to_s.camelize)` finds an envelope class exactly for the six envelope type names |
| `Adapters.BuildMessage` | app/services/decidim/chatbot/providers/whatsapp/adapter.rb:22-26 | the base adapter raises `NotImplementedError`; the WhatsApp adapter stores `to` and `data` unchanged in the named variant and raises `NameError` for an unknown type |
| `Adapters.Verify` | app/services/decidim/chatbot/providers/whatsapp/adapter.rb:9-20 | the base adapter answers `:not_implemented`; the WhatsApp adapter accepts with the challenge exactly when mode is "subscribe" and the token `==` the configured token, and answers `:forbidden` otherwise |
| `Adapters.MissingTokenAcceptedWhenUnconfigured` | app/services/decidim/chatbot/providers/whatsapp/adapter.rb:15 | with no configured token, a "subscribe" request with no token is accepted |
| `Adapters.UrlParts` | app/services/decidim/chatbot/providers/whatsapp/adapter.rb:49-50 | a URL interpolated from a base, an id, a fixed path and a token splits back into exactly those four parts, so the endpoint can be read back from the URL |
| `Adapters.SendUrlParts` | app/services/decidim/chatbot/providers/whatsapp/adapter.rb:49-50 | the target URL is the graph API URL, the phone number id, "/messages?access_token=" and the access token, in that order |
| `Adapters.Adapter.constructor` | app/services/decidim/chatbot/providers/base_adapter.rb:7-9 | the adapter holds its own copy of `params`, with no memo and nothing posted |
| `Adapters.Adapter.ReceivedMessage` | app/services/decidim/chatbot/providers/whatsapp/adapter.rb:28-30 | the base adapter raises; the WhatsApp adapter yields the memoised record or normalizes `params` and memoises the result |
| `Adapters.Adapter.ConsumeMessage` | app/services/decidim/chatbot/providers/whatsapp/adapter.rb:32-35 | removes exactly "entry" and "object" from `params` and returns the deleted "object" value |
| `Adapters.Adapter.Send` | app/services/decidim/chatbot/providers/whatsapp/adapter.rb:47-54 | posts exactly one request: the envelope's body to the send URL of the received message's phone number id |
| `Adapters.Adapter.MarkAsRead` | app/services/decidim/chatbot/providers/whatsapp/adapter.rb:37-45 | the base method returns nil and posts nothing; the WhatsApp one posts exactly one read receipt for the message id; calling either with the other arity raises `ArgumentError` |
| `Adapters.Adapter.MarkAsWriting` | app/services/decidim/chatbot/providers/base_adapter.rb:40-42 | returns nil |
| `Adapters.Adapter.SendMessage` | app/services/decidim/chatbot/providers/base_adapter.rb:45-52 | posts exactly one text body `{body: text}` to the received message's sender |
| `Adapters.ReceivedMessageIsMemoised` | app/services/decidim/chatbot/providers/whatsapp/adapter.rb:28-35 | a second `received_message` returns the first record, even after `consume_message` removed the payload keys |
| `Adapters.SendMessageSendsOnce` | app/services/decidim/chatbot/providers/base_adapter.rb:45-52 | the outbox grows by exactly one request, whose text body is the given text |
| `Webhooks.VerifyResponse` | app/controllers/decidim/chatbot/webhooks_controller.rb:10-30 | 400 for an unsupported provider; otherwise 200 with the challenge exactly when mode is "subscribe" and the token is non-blank and equal to the configured token, else 403 with an empty body |
| `Webhooks.BlankTokenRejected` | app/controllers/decidim/chatbot/webhooks_controller.rb:22 | a blank token is rejected even when the configured token is blank |
| `Webhooks.NotImplementedUnreachable` | app/controllers/decidim/chatbot/webhooks_controller.rb:27-29 | the 501 branch is never taken: only "whatsapp" is supported |
| `Webhooks.Reply` | app/controllers/decidim/chatbot/webhooks_controller.rb:56-84 | at most one reply, sent exactly when the value, the sender, the access token and the phone number id pass their guards; it is the text "received: " + text body to the sender |
| `Webhooks.NoValueNoReply` | app/controllers/decidim/chatbot/webhooks_controller.rb:58-59 | a payload without a value object gets no reply |
| `Webhooks.EmptySenderStillReplied` | app/controllers/decidim/chatbot/webhooks_controller.rb:61-62 | the sender guard is truthiness: an empty sender string still gets a reply addressed to "" |
| `Webhooks.WebhooksController.SendWhatsappMessage` | app/controllers/decidim/chatbot/webhooks_controller.rb:56-84 | the guard chain posts exactly `Reply` |
| `Webhooks.WebhooksController.Receive` | app/controllers/decidim/chatbot/webhooks_controller.rb:33-48 | 400 and nothing posted for an unsupported provider; 200 after posting `Reply` otherwise |
| `LegacyProcessor.Verify` | app/services/decidim/chatbot/whatsapp/processor.rb:9-26 | accepted with the challenge exactly when mode is "subscribe" and the token `==` the expected token; never "not implemented" |
| `LegacyProcessor.UnsetTokenAcceptsOnlyMissingToken` | app/services/decidim/chatbot/whatsapp/processor.rb:14-16 | with a nil expected token, exactly the "subscribe" requests without a token are accepted |
| `LegacyProcessor.Processor.SendWhatsappMessage` | app/services/decidim/chatbot/whatsapp/processor.rb:37-65 | posts exactly the controller's reply, against the configured graph API URL |
| `LegacyProcessor.Processor.Receive` | app/services/decidim/chatbot/whatsapp/processor.rb:28-33 | stores the payload, posts the reply and always returns `{status: :ok}` |
| `Gateways.AsJson` | app/services/decidim/chatbot/providers/whatsapp/adapter.rb:10-12 | query parameters as JSON strings, key for key |
| `Gateways.HandshakesDisagreeOnMissingToken` | app/controllers/decidim/chatbot/webhooks_controller.rb:17-25 | with no token configured or sent, the controller answers 403 while the adapter and the processor accept |
| `Gateways.HandshakesAgreeOnPresentToken` | app/services/decidim/chatbot/providers/whatsapp/adapter.rb:15 | with a non-blank configured token, the three handshakes accept the same requests and echo the same challenge |
| `Gateways.RepliesAreAdapterSendMessage` | app/controllers/decidim/chatbot/webhooks_controller.rb:56-84 | on a text message without a contact `wa_id` whose guards pass, the controller's reply (with the default graph API URL) and the processor's (with any) are exactly the request the adapter's `send_message!` posts for that payload: same URL, same recipient, same text |
| `Workflows.ConversationButtons` | app/services/decidim/chatbot/workflows/organization_welcome_workflow.rb:40-46 | "start" first; "end" second exactly when there is a parent workflow |
| `Workflows.WelcomeBodyText` | app/services/decidim/chatbot/workflows/organization_welcome_workflow.rb:36-38 | the configured `custom_text` when present, else the sanitised description |
| `Workflows.WelcomeUserInput` | app/services/decidim/chatbot/workflows/organization_welcome_workflow.rb:22-34 | exactly one interactive-buttons envelope to the sender, headed by the organization name, with the welcome body text and buttons |
| `Workflows.DelegateTarget` | app/services/decidim/chatbot/workflows/organization_welcome_workflow.rb:48-60 | the configured `delegate_workflow`'s class when it is present, registered and loaded; ParticipatorySpaceWorkflow otherwise |
| `Workflows.WelcomeActionInput` | app/services/decidim/chatbot/workflows/organization_welcome_workflow.rb:11-18 | "start" delegates to the target, "end" resets, any other button does nothing |
| `Workflows.WelcomeRendered` | app/services/decidim/chatbot/workflows/organization_welcome_workflow.rb:22-38 | the rendered welcome has a text header with the organization name exactly when the name is not blank, and the welcome body text |
| `Workflows.WelcomeButtonsRendered` | app/services/decidim/chatbot/workflows/organization_welcome_workflow.rb:40-46 | the rendered welcome has one or two reply buttons, answering "start" and then "end" |
| `Workflows.DelegateFallback` | app/services/decidim/chatbot/workflows/organization_welcome_workflow.rb:58-59 | a blank or unregistered `delegate_workflow` delegates to ParticipatorySpaceWorkflow |
| `Workflows.FirstSpace` | app/services/decidim/chatbot/workflows/participatory_space_workflow.rb:45-47 | the organization's first participatory space, nil exactly when there is none |
| `Workflows.SpaceWelcomeData` | app/services/decidim/chatbot/workflows/participatory_space_workflow.rb:24-38 | footer text is the title; body text is the short description truncated to at most 200 characters; the buttons as in the welcome; `header_image` exactly when the space has a hero image |
| `Workflows.SpaceUserInput` | app/services/decidim/chatbot/workflows/participatory_space_workflow.rb:7-11 | without a space, only the "no spaces" text; otherwise exactly one interactive-buttons welcome to the sender |
| `Workflows.SpaceActionInput` | app/services/decidim/chatbot/workflows/participatory_space_workflow.rb:13-20 | "start" sends the single "Hang on!" text, "end" resets, any other button does nothing |
| `Workflows.SpaceWelcomeHasNoHeader` | app/services/decidim/chatbot/workflows/participatory_space_workflow.rb:36-38 | the rendered space welcome never has a header, and has a footer exactly when the title is not blank |
| `Workflows.LatestMeetings` | app/services/decidim/chatbot/workflows/meetings_workflow.rb:31 | `.limit(10)`: the first ten meetings, or all of them when fewer |
| `Workflows.MeetingCardFields` | app/services/decidim/chatbot/workflows/meetings_workflow.rb:14-19 | a card's `url_title` is the title, its `url` the meeting URL, and its `body_text` the description truncated to 100 characters |
| `Workflows.MeetingCards` | app/services/decidim/chatbot/workflows/meetings_workflow.rb:13-20 | one card per meeting, in query order |
| `Workflows.MeetingsUserInput` | app/services/decidim/chatbot/workflows/meetings_workflow.rb:7-25 | one carousel to the sender with the "latest meetings" text and the cards of the latest meetings, then the parent is cleared exactly when there is one |
| `Workflows.MeetingsCarouselRendered` | app/services/decidim/chatbot/workflows/meetings_workflow.rb:13-31 | the rendered carousel has one card per latest meeting, at most ten |
| `Workflows.MeetingCardRendered` | app/services/decidim/chatbot/workflows/meetings_workflow.rb:13-20 | rendered card i has index i, shows meeting i's title and URL, and has a body of at most 100 characters exactly when the truncated description is not blank |
| `Workflows.EchoEnvelope` | app/services/decidim/chatbot/workflows/simple_greetings_workflow.rb:22-31 | a text envelope to the sender with body "📬 Received:\n" followed by the message body |
| `Workflows.GreetingsProcess` | app/services/decidim/chatbot/workflows/simple_greetings_workflow.rb:7-13 | as written, it never answers: with the WhatsApp adapter and a payload its `MessageNormalizer` can be built from, `from_user?` raises `NoMethodError` on that record; with the base adapter, `received_message` raises `NotImplementedError` |
| `Workflows.GreetingsIntended` | app/services/decidim/chatbot/workflows/simple_greetings_workflow.rb:7-13 | with `from.present?` as the guard: returns `{status: :ok}`; for a message from a user, marks that message read and then echoes it to its sender; otherwise does nothing |
| `Workflows.GreetingsGuardIsLegacyFromUser` | app/services/decidim/chatbot/whatsapp/message.rb:20-22 | without a contact `wa_id`, the intended guard on the adapter's record agrees with the legacy message's `from_user?` on the same payload |
| `Workflows.ShowMenu` | app/services/decidim/chatbot/workflows/comment_proposals_workflow.rb:7-23 | exactly one send of the echo, with no guard on the sender |
| `Workflows.ShowMenuPostsGreetingEcho` | app/services/decidim/chatbot/workflows/comment_proposals_workflow.rb:7-23 | the menu posts exactly one request, the echo to the sender at the send URL of the message's phone number, with no guard; for a greeting from a user it is the request the greeting posts after the read receipt |
| `Workflows.Transitions` | app/services/decidim/chatbot/workflows/organization_welcome_workflow.rb:11-18 | an effect is handed to the conversation store exactly when it is one of the actions and a delegate, a reset or a parent clear |
| `Workflows.TransitionsAppend` | app/services/decidim/chatbot/workflows/organization_welcome_workflow.rb:11-18 | the transitions of two lists run one after the other are those of the first, then those of the second, so their order is the order of the actions |
| `Workflows.PerformOne` | app/services/decidim/chatbot/workflows/simple_greetings_workflow.rb:18-31 | one effect through the adapter appends exactly the request it posts; the received message stays the same |
| `Workflows.PerformStep` | app/services/decidim/chatbot/workflows/simple_greetings_workflow.rb:7-11 | running action i extends the outbox by exactly that action's request |
| `Workflows.Perform` | app/services/decidim/chatbot/workflows/simple_greetings_workflow.rb:7-31 | running a list of effects posts their requests once each, in order, and returns the transitions in order |
| `Workflows.GreetingPostsReceiptThenEcho` | app/services/decidim/chatbot/workflows/simple_greetings_workflow.rb:7-31 | with the intended guard, a user's greeting posts exactly two requests to the send URL of the message's phone number: the read receipt for that message, then the echo to its sender; anything else posts nothing |
| `Workflows.GreetingRaisesAsWritten` | app/services/decidim/chatbot/workflows/simple_greetings_workflow.rb:8 | a buildable payload whose greeting the intended guard answers with two requests makes the code as written raise `NoMethodError` instead |
| `Admin.WorkflowManifest` | app/forms/decidim/chatbot/admin/setting_form.rb:28-30 | the first registered manifest named by `start_workflow`, nil exactly when none has that name |
| `Admin.WorkflowDisplayName` | app/forms/decidim/chatbot/admin/setting_form.rb:32-34 | the title of the first manifest named by `start_workflow`, nil exactly when there is none |
| `Admin.MissingRequiredNames` | app/forms/decidim/chatbot/admin/setting_form.rb:41-47 | a `:config` error names a key exactly when some required attribute has that key and its config value is blank |
| `Admin.MissingRequiredEmpty` | app/forms/decidim/chatbot/admin/setting_form.rb:41-48 | the loop adds no error exactly when every required key has a present value |
| `Admin.OptionalAttributesAddNothing` | app/forms/decidim/chatbot/admin/setting_form.rb:42 | attributes that are not required never add an error |
| `Admin.FormValidity` | app/forms/decidim/chatbot/admin/setting_form.rb:13-14 | the form is valid exactly when `start_workflow` is present and, if it is enabled with a configurable manifest, every required key is present |
| `Admin.DisabledIgnoresConfig` | app/forms/decidim/chatbot/admin/setting_form.rb:14 | a disabled form is checked for `start_workflow` only |
| `Admin.UnconfigurableAddsNothing` | app/forms/decidim/chatbot/admin/setting_form.rb:39 | an unknown or non-configurable manifest adds no config error |
| `Admin.AvailableWorkflows` | app/forms/decidim/chatbot/admin/setting_form.rb:22-26 | one `[title, name]` pair per registered manifest, in registry order |
| `Admin.SettingForm.constructor` | app/forms/decidim/chatbot/admin/setting_form.rb:9-11 | `enabled` is false, `start_workflow` nil, `config` empty, and no errors |
| `Admin.SettingForm.MapModel` | app/forms/decidim/chatbot/admin/setting_form.rb:16-20 | copies the `enabled` column, `start_workflow` and `config`, a nil config becoming `{}` |
| `Admin.SettingForm.AddMissingRequired` | app/forms/decidim/chatbot/admin/setting_form.rb:41-48 | the `settings_attributes` loop appends exactly one `:config` error per required attribute with a blank value, in order |
| `Admin.SettingForm.ValidateWorkflowConfig` | app/forms/decidim/chatbot/admin/setting_form.rb:38-49 | appends exactly the config errors of the named manifest, none when it is unknown or not configurable |
| `Admin.SettingForm.Validate` | app/forms/decidim/chatbot/admin/setting_form.rb:13-14 | the errors are the `start_workflow` presence error followed by the config errors when enabled; valid exactly when there are none |
| `Admin.BuildConfig` | app/commands/decidim/chatbot/admin/update_setting.rb:30-37 | exactly the keys `enabled` (copied verbatim), `participatory_space_type`, `participatory_space_id` (both nil without a space) and `component_id` |
| `Admin.UpdateSetting.constructor` | app/commands/decidim/chatbot/admin/update_setting.rb:7-10 | keeps the form and the setting |
| `Admin.UpdateSetting.Call` | app/commands/decidim/chatbot/admin/update_setting.rb:12-28 | an invalid form broadcasts `:invalid` and leaves the setting unchanged; a valid one replaces `start_workflow` and `config` and broadcasts `:ok` with the setting, or raises when the record is invalid; the `enabled` column is never written |
| `Admin.UpdateDropsWelcomeKeys` | app/commands/decidim/chatbot/admin/update_setting.rb:30-37 | the new config has no `custom_text` and no `delegate_workflow`, so the welcome falls back to the description and to ParticipatorySpaceWorkflow |
| `Admin.EditAfterUpdate` | app/commands/decidim/chatbot/admin/update_setting.rb:23-37 | editing after a successful update reads back the new `start_workflow` and config, but the old `enabled` column |
| `ApplicationHelper.DelegateWorkflowsForSelect` | app/helpers/decidim/chatbot/application_helper.rb:38-42 | at most one option per registered manifest |
| `ApplicationHelper.DelegateWorkflowsAppend` | app/helpers/decidim/chatbot/application_helper.rb:39-41 | the filter works manifest by manifest, so registry order is kept |
| `ApplicationHelper.DelegateWorkflowsMembers` | app/helpers/decidim/chatbot/application_helper.rb:40-41 | an option is listed exactly when it is `[title, name]` of a manifest whose name is not the excluded one |
| `ApplicationHelper.DelegateWorkflowsNoExclusion` | app/helpers/decidim/chatbot/application_helper.rb:38-41 | when no registered name equals `exclude_workflow.to_s`, one `[title, name]` per manifest, in registry order |
| `ApplicationHelper.ProposalOptions` | app/helpers/decidim/chatbot/application_helper.rb:32-34 | at most one option per component |
| `ApplicationHelper.ProposalComponentsForSelect` | app/helpers/decidim/chatbot/application_helper.rb:26-35 | `[]` for a blank gid or one the locator cannot parse; the locator's `RecordNotFound`, which is not rescued, for a well-formed gid whose space is gone; otherwise the proposal options of the space's components |
| `ApplicationHelper.ProposalOptionsMembers` | app/helpers/decidim/chatbot/application_helper.rb:32-34 | an option is listed exactly when it is `[name, id.to_s]` of a published "proposals" component |
| `ApplicationHelper.ProposalOptionsAppend` | app/helpers/decidim/chatbot/application_helper.rb:32-34 | the filter works component by component, so component order is kept |
| `ApplicationHelper.SpaceOptions` | app/helpers/decidim/chatbot/application_helper.rb:18 | one `[title, gid]` per space, in space order |
| `ApplicationHelper.IndexOf` | app/helpers/decidim/chatbot/application_helper.rb:18 | the position of a heading in the ordered hash, or its length when the heading is absent |
| `ApplicationHelper.GroupedParticipatorySpacesForSelect` | app/helpers/decidim/chatbot/application_helper.rb:10-22 | the loop fills the hash as the grouping rule says |
| `ApplicationHelper.StoreKeepsUnique` | app/helpers/decidim/chatbot/application_helper.rb:18 | `grouped[label] =` keeps headings distinct and stores the heading |
| `ApplicationHelper.StoreHeadings` | app/helpers/decidim/chatbot/application_helper.rb:18 | `grouped[label] =` adds exactly that heading |
| `ApplicationHelper.GroupingWellFormed` | app/helpers/decidim/chatbot/application_helper.rb:13-19 | headings are distinct and every group is non-empty |
| `ApplicationHelper.GroupingHeadings` | app/helpers/decidim/chatbot/application_helper.rb:13-19 | a heading is listed exactly when some manifest with that heading has spaces; manifests with no spaces are skipped |
| `ApplicationHelper.GroupingLastWins` | app/helpers/decidim/chatbot/application_helper.rb:17-18 | a heading's group lists the spaces of the last manifest with that heading that has spaces, in space order |

## Left out

- Network I/O: `Faraday.post` is an append of a URL and a JSON body to a list of posts. Headers, `to_json` and transport failures are not modelled.
- `JSON.parse` of the raw body: the payload is taken as an already parsed JSON value. Logging is left out.
- JSON numbers are integers (`Json.Num(int)`). Floats and their precision are not modelled; no modelled path reads a fractional number.
- `ToS` of arrays and hashes (`inspect` output) is a placeholder; only strings, numbers, booleans and nil are rendered faithfully.
- Rails and I18n helpers are inputs or opaque strings:
  - `I18n.t`, `translated_attribute`, `strip_tags` and `decidim_sanitize`;
  - `asset_pack_url` and `ResourceLocatorPresenter`;
  - `GlobalID::Locator` (a table from gid to its outcome: unparseable, stale, or a space with its components).
- ActiveRecord queries are input sequences: `participatory_spaces.first`, the published meetings, and the published "proposals" components.
- `Registries.Find`: `ManifestRegistry#find` is not part of this model. It is taken to return the first manifest whose name matches the name's string form.
- `lib/decidim/chatbot.rb` does not define `start_workflows_registry`. The registry is an input sequence.
- `Adapters.EnvelopeKind`: `camelize` is modelled only for the snake_case type names of the six envelope classes. Other spellings that camelize to the same constant count as unknown.
- `Adapters.BuildMessage`: `Envelopes.const_get` also finds top-level constants, so a type such as `:string` resolves to `::String` rather than raising `NameError`. The model treats every name outside the six envelope classes as an unknown type that raises `NameError`.
- Memoisation that could go stale:
  - `Setting#workflow` and `#adapter_manifest` are recomputed on each read;
  - the form's `workflow_manifest ||=` is not cached;
  - the received message at the start of `Perform` is the one the adapter memoises.
- `delegate_workflow`, `reset_workflows` and `clear_delegated_workflow` are not defined in the repository's code. They are abstract effects that `Perform` returns, and the conversation store behind them is not modelled.
- Sender and message find-or-create, deduplication and timestamps are not modelled: no code implements them, and they need a clock or a database.
- `Admin.UpdateSetting.Call`: as written, `build_config` (`update_setting.rb:33-35`) calls `form.participatory_space` and `form.component_id`, which `SettingForm` (`setting_form.rb:9-11`) does not define, so every valid form raises `NoMethodError` before `update!`. The model does not capture that raise. It follows `update_setting_spec.rb:49-59`, whose form answers both, and takes the two values as parameters of `Call`.
- `Admin.UpdateSetting.Call`: `update!` persistence and rollback are out of scope. On an invalid record the fields are assigned and `RecordInvalid` is raised.
- The manifest's `configurable?` and `settings_attributes` are not defined in any file of the repository. They are fields of the manifest record here.
- `ChatbotModels.DestroySetting`: the `has_many :messages` association names a foreign key that the messages migrations do not have. The destroy is modelled by owner ids.
- `Ruby.Truncate`: only the length bound and the shape of the cut are stated. The word-boundary `omission` options of ActiveSupport are not used by the code.
- The admin settings controller, the engines, the JavaScript controllers and the application controllers are framework plumbing or UI.
- `BaseWorkflow#initialize` is a provider-registry lookup and is left out. The `start`/`delegate_workflow`/`reset_workflows` dispatch that the repository's test suite expects of it has no implementation in the repository.
- Behaviour that appears only in the repository's test suite is not modelled:
  - `enabled?`, `participatory_space`, `selected_component` and `write_action` on Setting;
  - `configurable?` and `config_keys` beyond the two manifest fields the form reads;
  - `verify!` returning a bare string;
  - the "not_configured"/"participate"/"read_only" space flows;
  - the gid and component errors of the form.
- `Workflows.Posted`: only the bound `|r| <= |actions|` is stated, because its meaning is carried by `Workflows.Perform` and `Workflows.GreetingPostsReceiptThenEcho`.
- `Admin.MissingRequired`: only the bound `|r| <= |attrs|` is stated, because its meaning is carried by `Admin.MissingRequiredNames` and `Admin.MissingRequiredEmpty`.
- `Adapters.SendUrl`: it has no contract of its own, because its layout is stated by `Adapters.SendUrlParts`.
- `app/models/decidim/chatbot/message.rb` and `user.rb` are a `dig` getter and associations, and are left out.
- Inputs on which the source's `dig` or hash access raises are excluded by precondition. On them the source raises, and `receive` answers 500, which the model does not capture. For example, in `{"entry": "x"}` `payload.dig` (`webhooks_controller.rb:58`) raises `TypeError`. The members concerned are:
  - `Webhooks.Reply`, `Webhooks.WebhooksController.SendWhatsappMessage` and `Webhooks.WebhooksController.Receive`, which require `Webhooks.ReplyComputable`;
  - `LegacyProcessor.Processor.SendWhatsappMessage` and `LegacyProcessor.Processor.Receive`, which require the same;
  - `WhatsappNormalizer.Normalize`, `LegacyMessage.Parse` and `Workflows.GreetingsProcess` (on the WhatsApp branch), which require their `Constructible`. For example, `{"object": "whatsapp_business_account"}` makes `MessageNormalizer.new` raise `NoMethodError` on `nil.dig` (`message_normalizer.rb:12`) before `from_user?` is sent;
  - the adapter's `ReceivedMessage`, `Send`, `SendMessage` and `MarkAsRead`, and `Workflows.Perform`, which require `MessageReadable`;
  - `Admin.SettingForm.MapModel` and `ChatbotModels.ConfigHash`, which require the config to be a hash or nil, because `with_indifferent_access` on any other truthy value raises.
- Sender's locale requires the `metadata` column to be a hash. A nil `metadata` would raise, and `ChatbotModels.Locale` excludes that case by precondition.
- `ChatbotModels.Setting.Workflow` requires `start_workflow` to be registered. An unregistered one calls `.workflow` on nil and raises, and that case is excluded by precondition.

## Findings

| source | as written | input that shows it | evidently intended | confidence | as-written member | corrected member |
|---|---|---|---|---|---|---|
| app/services/decidim/chatbot/workflows/simple_greetings_workflow.rb:8 | `received_message.from_user?` is sent to the adapter's `MessageNormalizer` (`adapter.rb:28-29`), which defines no `from_user?`, so `process!` raises `NoMethodError` | any payload through the WhatsApp adapter that `MessageNormalizer.new` accepts, such as a text message whose `messages[0].from` is present | mark the message read and echo it when `from` is present, as the legacy `Whatsapp::Message#from_user?` does | not executed | `Workflows.GreetingsProcess`, `Workflows.GreetingRaisesAsWritten` | `Workflows.GreetingsIntended`, `Workflows.GreetingPostsReceiptThenEcho` |
