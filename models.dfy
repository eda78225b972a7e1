/** The ActiveRecord models `Setting` and `Sender`: a chatbot setting per
    organization and provider, and the per-user conversation state that
    resolves to workflows and a locale. */
module ChatbotModels {
  import opened Ruby
  import opened Registries

  /** The organization fields the engine reads: translated name and
      description (as plain strings) and the default locale. */
  datatype Organization = Organization(name: string, description: string, defaultLocale: string)

  /** A `Decidim::Chatbot::Setting` row. */
  class Setting {
    var provider: Json
    var startWorkflow: Json
    /** The `enabled` column. */
    var enabled: bool
    /** The jsonb `config` column, a hash or nil. */
    var config: Json
    var organization: Option<Organization>

    constructor (provider: Json, startWorkflow: Json, enabled: bool, config: Json, organization: Option<Organization>)
      ensures this.provider == provider && this.startWorkflow == startWorkflow
      ensures this.enabled == enabled && this.config == config && this.organization == organization
    {
      this.provider := provider;
      this.startWorkflow := startWorkflow;
      this.enabled := enabled;
      this.config := config;
      this.organization := organization;
    }

    /** `valid?`: a present provider and an organization (`belongs_to` is required). */
    predicate Valid()
      reads this
    {
      Present(provider) && organization.Some?
    }

    /** `adapter_manifest`: the provider's first entry in the providers
        registry, or nil. `provider.to_sym` needs a provider string. */
    function AdapterManifest(providers: seq<ProvidersManifest>): (r: Option<ProvidersManifest>)
      reads this
      requires provider.Str?
      ensures r.Some? <==> exists i :: 0 <= i < |providers| && providers[i].name == provider.s
      ensures r.Some? ==> exists i :: 0 <= i < |providers| && providers[i] == r.value && r.value.name == provider.s &&
                                      forall j :: 0 <= j < i ==> providers[j].name != provider.s
    {
      FindProvider(providers, provider.s)
    }

    /** `workflow` can be computed: `start_workflow` names a registered manifest
        (otherwise `.workflow` is sent to nil). */
    predicate WorkflowRegistered(registry: seq<StartWorkflowManifest>)
      reads this
    {
      startWorkflow.Str? && FindWorkflow(registry, startWorkflow.s).Some?
    }

    /** `workflow`: the class of the first manifest named by `start_workflow`,
        when that class is loaded. */
    function Workflow(registry: seq<StartWorkflowManifest>, loaded: set<string>): (r: Option<string>)
      reads this
      requires WorkflowRegistered(registry)
      ensures exists i :: 0 <= i < |registry| && registry[i].name == startWorkflow.s &&
                          (forall j :: 0 <= j < i ==> registry[j].name != startWorkflow.s) &&
                          (r.Some? <==> registry[i].workflowClass in loaded) &&
                          (r.Some? ==> r.value == registry[i].workflowClass)
    {
      ManifestWorkflow(FindWorkflow(registry, startWorkflow.s).value, loaded)
    }
  }

  /** `(setting.config || {}).with_indifferent_access`: the config column as a
      hash, nil reading as `{}`. A truthy non-hash config would raise. */
  function ConfigHash(config: Json): (r: map<string, Json>)
    requires !Truthy(config) || config.Obj?
    ensures config.Obj? ==> r == config.fields
    ensures !Truthy(config) ==> r == map[]
  {
    if config.Obj? then config.fields else map[]
  }

  /** A setting without a provider is invalid, whatever else it holds. */
  lemma ProviderRequired(s: Setting)
    requires Blank(s.provider)
    ensures !s.Valid()
  {
  }

  /** An unregistered provider has no adapter manifest. */
  lemma UnknownProviderHasNoManifest(s: Setting, providers: seq<ProvidersManifest>)
    requires s.provider.Str?
    requires forall i :: 0 <= i < |providers| ==> providers[i].name != s.provider.s
    ensures s.AdapterManifest(providers) == None
  {
  }

  datatype User = User(locale: Json)

  /** A `Decidim::Chatbot::Sender` row; the class-name columns are strings or nil. */
  datatype Sender = Sender(
    setting: Setting,
    user: Option<User>,
    metadata: Json,
    currentWorkflowClass: Json,
    parentWorkflowClass: Json)

  predicate NilOrString(j: Json) { j == Null || j.Str? }

  /** `column&.safe_constantize`. */
  function ClassNamed(column: Json, loaded: set<string>): (r: Option<string>)
    requires NilOrString(column)
    ensures r.Some? <==> column.Str? && column.s in loaded
    ensures r.Some? ==> r.value == column.s
  {
    if column.Str? then Constantize(loaded, column.s) else None
  }

  /** `current_workflow`: the sender's own class when set and loaded, the
      setting's workflow otherwise. The fallback is evaluated only when needed,
      so only then must the setting's start workflow be registered. */
  function CurrentWorkflow(s: Sender, registry: seq<StartWorkflowManifest>, loaded: set<string>): (r: Option<string>)
    reads s.setting
    requires NilOrString(s.currentWorkflowClass)
    requires ClassNamed(s.currentWorkflowClass, loaded).None? ==> s.setting.WorkflowRegistered(registry)
    ensures s.currentWorkflowClass.Str? && s.currentWorkflowClass.s in loaded ==> r == Some(s.currentWorkflowClass.s)
    ensures !(s.currentWorkflowClass.Str? && s.currentWorkflowClass.s in loaded) ==>
              s.setting.WorkflowRegistered(registry) && r == s.setting.Workflow(registry, loaded)
  {
    var own := ClassNamed(s.currentWorkflowClass, loaded);
    if own.Some? then own else s.setting.Workflow(registry, loaded)
  }

  /** `parent_workflow`: the sender's parent class when set and loaded, nil
      otherwise; there is no fallback. */
  function ParentWorkflow(s: Sender, loaded: set<string>): (r: Option<string>)
    requires NilOrString(s.parentWorkflowClass)
    ensures r.Some? <==> s.parentWorkflowClass.Str? && s.parentWorkflowClass.s in loaded
    ensures r.Some? ==> r.value == s.parentWorkflowClass.s
  {
    ClassNamed(s.parentWorkflowClass, loaded)
  }

  /** `locale`: the metadata locale if present, else the linked user's locale if
      present, else the organization's default. `metadata["locale"]` needs a
      metadata hash, although the column is nullable. */
  function Locale(s: Sender): (r: Json)
    reads s.setting
    requires s.metadata.Obj?
    requires s.setting.organization.Some?
    ensures Present(At(s.metadata, K("locale"))) ==> r == At(s.metadata, K("locale"))
    ensures Blank(At(s.metadata, K("locale"))) && s.user.Some? && Present(s.user.value.locale) ==>
              r == s.user.value.locale
    ensures Blank(At(s.metadata, K("locale"))) && (s.user.None? || Blank(s.user.value.locale)) ==>
              r == Str(s.setting.organization.value.defaultLocale)
    ensures Present(r) || r == Str(s.setting.organization.value.defaultLocale)
  {
    var fromMetadata := Presence(At(s.metadata, K("locale")));
    var fromUser := if s.user.Some? then Presence(s.user.value.locale) else Null;
    if Truthy(fromMetadata) then fromMetadata
    else if Truthy(fromUser) then fromUser
    else Str(s.setting.organization.value.defaultLocale)
  }

  /** The metadata locale wins over the user locale. */
  lemma MetadataLocaleWins(s: Sender, locale: string)
    requires s.metadata.Obj? && s.setting.organization.Some?
    requires At(s.metadata, K("locale")) == Str(locale) && !BlankString(locale)
    ensures Locale(s) == Str(locale)
  {
  }

  /** A sender without its own workflow class follows the setting's start workflow. */
  lemma UnsetWorkflowFollowsSetting(s: Sender, registry: seq<StartWorkflowManifest>, loaded: set<string>)
    requires s.currentWorkflowClass == Null
    requires s.setting.WorkflowRegistered(registry)
    ensures CurrentWorkflow(s, registry, loaded) == s.setting.Workflow(registry, loaded)
  {
  }

  /** Setting, sender and message ids, each sender and message with the id of the
      setting it belongs to. */
  datatype Db = Db(settings: set<nat>, senders: map<nat, nat>, messages: map<nat, nat>)

  /** Records kept by a map of owner ids when one owner is destroyed. */
  function Orphans(owned: map<nat, nat>, owner: nat): (r: map<nat, nat>)
    ensures forall k :: k in r <==> k in owned && owned[k] != owner
    ensures forall k :: k in r ==> r[k] == owned[k]
  {
    map k | k in owned && owned[k] != owner :: owned[k]
  }

  /** `setting.destroy` with `dependent: :destroy` on senders and messages: the
      setting and everything it owns are gone, and nothing else changes. */
  function DestroySetting(db: Db, id: nat): (r: Db)
    ensures r.settings == db.settings - {id}
    ensures forall k :: k in r.senders <==> k in db.senders && db.senders[k] != id
    ensures forall k :: k in r.messages <==> k in db.messages && db.messages[k] != id
    ensures forall k :: k in r.senders ==> r.senders[k] == db.senders[k]
    ensures forall k :: k in r.messages ==> r.messages[k] == db.messages[k]
  {
    Db(db.settings - {id}, Orphans(db.senders, id), Orphans(db.messages, id))
  }

  /** After the destroy, no sender or message refers to the destroyed setting. */
  lemma DestroyLeavesNoOrphans(db: Db, id: nat)
    ensures forall k :: k in DestroySetting(db, id).senders ==> DestroySetting(db, id).senders[k] != id
    ensures forall k :: k in DestroySetting(db, id).messages ==> DestroySetting(db, id).messages[k] != id
  {
  }
}
