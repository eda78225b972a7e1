/** The admin side of a setting: `SettingForm`, which validates a submitted
    start workflow and its configuration, and the `UpdateSetting` command,
    which writes a valid form into the setting record. */
module Admin {
  import opened Ruby
  import opened Registries
  import Envelopes
  import ChatbotModels
  import Workflows

  /** An entry of the form's `errors`: the presence error on `start_workflow`,
      or the `:config` error for one blank required settings key. */
  datatype FormError = StartWorkflowBlank | ConfigBlank(key: string)

  /** `workflow_manifest`: the first registered start workflow named by
      `start_workflow` (nil finds nothing unless a manifest is named ""). */
  function WorkflowManifest(registry: seq<StartWorkflowManifest>, startWorkflow: Json): (r: Option<StartWorkflowManifest>)
    ensures r.Some? ==> exists i :: 0 <= i < |registry| && registry[i] == r.value && r.value.name == ToS(startWorkflow) &&
                                    forall j :: 0 <= j < i ==> registry[j].name != ToS(startWorkflow)
    ensures r.None? <==> forall m :: m in registry ==> m.name != ToS(startWorkflow)
  {
    FindWorkflow(registry, ToS(startWorkflow))
  }

  /** `workflow_display_name`: the title of the first manifest with that name, or nil. */
  function WorkflowDisplayName(registry: seq<StartWorkflowManifest>, startWorkflow: Json): (r: Option<string>)
    ensures r.Some? <==> exists m :: m in registry && m.name == ToS(startWorkflow)
    ensures r.Some? ==> exists i :: 0 <= i < |registry| && registry[i].name == ToS(startWorkflow) &&
                                    r.value == registry[i].title &&
                                    forall j :: 0 <= j < i ==> registry[j].name != ToS(startWorkflow)
  {
    var m := WorkflowManifest(registry, startWorkflow);
    if m.Some? then Some(m.value.title) else None
  }

  /** The errors the loop of `validate_workflow_config` adds for these
      settings attributes, in declaration order. */
  function MissingRequired(attrs: seq<SettingsAttribute>, config: map<string, Json>): (r: seq<FormError>)
    ensures |r| <= |attrs|
    decreases |attrs|
  {
    if |attrs| == 0 then []
    else
      var a := attrs[|attrs| - 1];
      MissingRequired(attrs[..|attrs| - 1], config) +
      (if a.required && !Present(Envelopes.Get(config, a.key)) then [ConfigBlank(a.key)] else [])
  }

  /** One more attribute adds its own error, if any, after the earlier ones. */
  lemma MissingRequiredStep(attrs: seq<SettingsAttribute>, i: nat, config: map<string, Json>)
    requires i < |attrs|
    ensures MissingRequired(attrs[..i + 1], config) ==
            MissingRequired(attrs[..i], config) +
            (if attrs[i].required && !Present(Envelopes.Get(config, attrs[i].key)) then [ConfigBlank(attrs[i].key)] else [])
  {
    assert attrs[..i + 1][..i] == attrs[..i];
  }

  /** An error names a key exactly when some required attribute has that key
      and a blank value. */
  lemma {:induction false} MissingRequiredNames(attrs: seq<SettingsAttribute>, config: map<string, Json>, key: string)
    ensures ConfigBlank(key) in MissingRequired(attrs, config) <==>
            exists i :: 0 <= i < |attrs| && attrs[i].key == key && attrs[i].required && Blank(Envelopes.Get(config, key))
    ensures StartWorkflowBlank !in MissingRequired(attrs, config)
    decreases |attrs|
  {
    if |attrs| > 0 {
      var init := attrs[..|attrs| - 1];
      MissingRequiredNames(init, config, key);
      assert forall i :: 0 <= i < |init| ==> init[i] == attrs[i];
    }
  }

  /** No error at all exactly when every required attribute has a present value. */
  lemma {:induction false} MissingRequiredEmpty(attrs: seq<SettingsAttribute>, config: map<string, Json>)
    ensures MissingRequired(attrs, config) == [] <==>
            forall i :: 0 <= i < |attrs| && attrs[i].required ==> Present(Envelopes.Get(config, attrs[i].key))
    decreases |attrs|
  {
    if |attrs| > 0 {
      var init := attrs[..|attrs| - 1];
      MissingRequiredEmpty(init, config);
      assert forall i :: 0 <= i < |init| ==> init[i] == attrs[i];
    }
  }

  /** Attributes without `required` never add an error. */
  lemma {:induction false} OptionalAttributesAddNothing(attrs: seq<SettingsAttribute>, config: map<string, Json>)
    requires forall i :: 0 <= i < |attrs| ==> !attrs[i].required
    ensures MissingRequired(attrs, config) == []
    decreases |attrs|
  {
    if |attrs| > 0 {
      OptionalAttributesAddNothing(attrs[..|attrs| - 1], config);
    }
  }

  /** The errors `validate_workflow_config` adds: none unless the manifest is
      found and configurable. */
  function ConfigErrors(registry: seq<StartWorkflowManifest>, startWorkflow: Json, config: map<string, Json>): seq<FormError>
  {
    var m := WorkflowManifest(registry, startWorkflow);
    if m.Some? && m.value.configurable then MissingRequired(m.value.settingsAttributes, config) else []
  }

  /** All the errors of a validation run: the presence check on
      `start_workflow`, then the config check when the form is enabled. */
  function FormErrors(registry: seq<StartWorkflowManifest>, enabled: bool, startWorkflow: Json,
                      config: map<string, Json>): seq<FormError>
  {
    (if Blank(startWorkflow) then [StartWorkflowBlank] else []) +
    (if enabled then ConfigErrors(registry, startWorkflow, config) else [])
  }

  /** The form is valid exactly when `start_workflow` is present and, if the
      form is enabled and its manifest is configurable, every required key
      has a present value. */
  lemma FormValidity(registry: seq<StartWorkflowManifest>, enabled: bool, startWorkflow: Json, config: map<string, Json>)
    ensures var m := WorkflowManifest(registry, startWorkflow);
            FormErrors(registry, enabled, startWorkflow, config) == [] <==>
              && Present(startWorkflow)
              && (enabled && m.Some? && m.value.configurable ==>
                    forall i :: 0 <= i < |m.value.settingsAttributes| && m.value.settingsAttributes[i].required ==>
                      Present(Envelopes.Get(config, m.value.settingsAttributes[i].key)))
  {
    var m := WorkflowManifest(registry, startWorkflow);
    if m.Some? {
      MissingRequiredEmpty(m.value.settingsAttributes, config);
    }
  }

  /** A disabled form only checks `start_workflow`: whatever the config holds,
      it is valid once a start workflow is given. */
  lemma DisabledIgnoresConfig(registry: seq<StartWorkflowManifest>, startWorkflow: Json, config: map<string, Json>)
    ensures FormErrors(registry, false, startWorkflow, config) == (if Blank(startWorkflow) then [StartWorkflowBlank] else [])
  {
  }

  /** An unknown or non-configurable workflow adds no config errors. */
  lemma UnconfigurableAddsNothing(registry: seq<StartWorkflowManifest>, startWorkflow: Json, config: map<string, Json>)
    requires WorkflowManifest(registry, startWorkflow).None? || !WorkflowManifest(registry, startWorkflow).value.configurable
    ensures ConfigErrors(registry, startWorkflow, config) == []
  {
  }

  /** `available_workflows`: a `[title, name]` pair per registered manifest. */
  function AvailableWorkflows(registry: seq<StartWorkflowManifest>): (r: seq<(string, string)>)
    ensures |r| == |registry|
    ensures forall i :: 0 <= i < |r| ==> r[i] == (registry[i].title, registry[i].name)
  {
    seq(|registry|, i requires 0 <= i < |registry| => (registry[i].title, registry[i].name))
  }

  /** A `SettingForm` instance. */
  class SettingForm {
    var enabled: bool
    /** The `start_workflow` String attribute, nil until set. */
    var startWorkflow: Json
    var config: map<string, Json>
    var errors: seq<FormError>

    /** A new form: `enabled` defaults to false and `config` to `{}`. */
    constructor ()
      ensures enabled == false && startWorkflow == Null && config == map[] && errors == []
    {
      enabled := false;
      startWorkflow := Null;
      config := map[];
      errors := [];
    }

    /** `map_model`: copies the setting's `enabled` column, start workflow and
        config, a nil config becoming `{}`. */
    method MapModel(model: ChatbotModels.Setting)
      requires !Truthy(model.config) || model.config.Obj?
      modifies this
      ensures enabled == model.enabled && startWorkflow == model.startWorkflow
      ensures config == ChatbotModels.ConfigHash(model.config)
      ensures !Truthy(model.config) ==> config == map[]
      ensures errors == old(errors)
    {
      enabled := model.enabled;
      startWorkflow := model.startWorkflow;
      config := ChatbotModels.ConfigHash(model.config);
    }

    /** The `settings_attributes.each` loop of `validate_workflow_config`: one
        `:config` error per required attribute whose value in `config` is blank. */
    method AddMissingRequired(attrs: seq<SettingsAttribute>)
      modifies this
      ensures enabled == old(enabled) && startWorkflow == old(startWorkflow) && config == old(config)
      ensures errors == old(errors) + MissingRequired(attrs, config)
    {
      var i := 0;
      while i < |attrs|
        invariant 0 <= i <= |attrs|
        invariant enabled == old(enabled) && startWorkflow == old(startWorkflow) && config == old(config)
        invariant errors == old(errors) + MissingRequired(attrs[..i], config)
      {
        MissingRequiredStep(attrs, i, config);
        var attribute := attrs[i];
        if attribute.required && !Present(Envelopes.Get(config, attribute.key)) {
          errors := errors + [ConfigBlank(attribute.key)];
        }
        i := i + 1;
      }
      assert attrs[..|attrs|] == attrs;
    }

    /** `validate_workflow_config`: nothing unless the manifest is found and
        configurable, then the loop above over its settings attributes. */
    method ValidateWorkflowConfig(registry: seq<StartWorkflowManifest>)
      modifies this
      ensures enabled == old(enabled) && startWorkflow == old(startWorkflow) && config == old(config)
      ensures errors == old(errors) + ConfigErrors(registry, startWorkflow, config)
    {
      var manifest := WorkflowManifest(registry, startWorkflow);
      if manifest.None? || !manifest.value.configurable {
        return;
      }
      AddMissingRequired(manifest.value.settingsAttributes);
    }

    /** `valid?`: clears the errors, runs the presence validation and, when
        enabled, the config validation; valid when no error was added. */
    method Validate(registry: seq<StartWorkflowManifest>) returns (valid: bool)
      modifies this
      ensures enabled == old(enabled) && startWorkflow == old(startWorkflow) && config == old(config)
      ensures errors == FormErrors(registry, enabled, startWorkflow, config)
      ensures valid <==> errors == []
    {
      errors := [];
      if Blank(startWorkflow) {
        errors := errors + [StartWorkflowBlank];
      }
      if enabled {
        ValidateWorkflowConfig(registry);
      }
      valid := errors == [];
    }
  }

  /** The space chosen on the form, as `build_config` reads it: its class name
      and id. */
  datatype SpaceRef = SpaceRef(className: string, id: nat)

  /** `build_config`: the config hash `UpdateSetting` stores, with exactly the
      four keys below; without a space both space entries are nil. */
  function BuildConfig(enabled: bool, space: Option<SpaceRef>, componentId: Json): (r: Json)
    ensures r.Obj?
    ensures r.fields.Keys == {"enabled", "participatory_space_type", "participatory_space_id", "component_id"}
    ensures r.fields["enabled"] == Bool(enabled) && r.fields["component_id"] == componentId
    ensures space.None? ==> r.fields["participatory_space_type"] == Null && r.fields["participatory_space_id"] == Null
    ensures space.Some? ==> r.fields["participatory_space_type"] == Str(space.value.className) &&
                            r.fields["participatory_space_id"] == Num(space.value.id)
  {
    var spaceType := if space.Some? then Str(space.value.className) else Null;
    var spaceId := if space.Some? then Num(space.value.id) else Null;
    Obj(map["enabled" := Bool(enabled)]["participatory_space_type" := spaceType]
           ["participatory_space_id" := spaceId]["component_id" := componentId])
  }

  /** What `UpdateSetting.call` broadcasts. */
  datatype Broadcast = BroadcastInvalid | BroadcastOk(setting: ChatbotModels.Setting)

  /** The `UpdateSetting` command over a form and a setting record. */
  class UpdateSetting {
    const form: SettingForm
    const setting: ChatbotModels.Setting

    constructor (form: SettingForm, setting: ChatbotModels.Setting)
      ensures this.form == form && this.setting == setting
    {
      this.form := form;
      this.setting := setting;
    }

    /** `call`: an invalid form broadcasts `:invalid` and leaves the setting
        alone; otherwise `update!` replaces `start_workflow` and `config`
        (raising when the record does not validate) and `:ok` is broadcast
        with the same setting. The `enabled` column is never written. */
    method Call(registry: seq<StartWorkflowManifest>, space: Option<SpaceRef>, componentId: Json)
      returns (r: Result<Broadcast>)
      requires form != setting as object
      modifies form, setting
      ensures form.enabled == old(form.enabled) && form.startWorkflow == old(form.startWorkflow)
      ensures form.config == old(form.config)
      ensures form.errors == FormErrors(registry, form.enabled, form.startWorkflow, form.config)
      ensures setting.provider == old(setting.provider) && setting.organization == old(setting.organization)
      ensures setting.enabled == old(setting.enabled)
      ensures form.errors != [] ==>
                && r == Ok(BroadcastInvalid)
                && setting.startWorkflow == old(setting.startWorkflow)
                && setting.config == old(setting.config)
      ensures form.errors == [] ==>
                && setting.startWorkflow == form.startWorkflow
                && setting.config == BuildConfig(form.enabled, space, componentId)
                && (setting.Valid() ==> r == Ok(BroadcastOk(setting)))
                && (!setting.Valid() ==> r == Raised(RecordInvalid))
    {
      var valid := form.Validate(registry);
      if !valid {
        return Ok(BroadcastInvalid);
      }
      setting.startWorkflow := form.startWorkflow;
      setting.config := BuildConfig(form.enabled, space, componentId);
      if !setting.Valid() {
        return Raised(RecordInvalid);
      }
      r := Ok(BroadcastOk(setting));
    }
  }

  /** The keys organization welcome reads are gone after an update: the welcome
      body falls back to the organization description and delegation falls back
      to ParticipatorySpaceWorkflow. */
  lemma UpdateDropsWelcomeKeys(enabled: bool, space: Option<SpaceRef>, componentId: Json, description: string,
                               registry: seq<StartWorkflowManifest>, loaded: set<string>)
    ensures var config := ChatbotModels.ConfigHash(BuildConfig(enabled, space, componentId));
            && "custom_text" !in config && "delegate_workflow" !in config
            && Workflows.WelcomeBodyText(config, description) == Str(description)
            && Workflows.DelegateTarget(config, registry, loaded) == Workflows.ParticipatorySpaceWorkflowClass
  {
    var config := ChatbotModels.ConfigHash(BuildConfig(enabled, space, componentId));
    assert "custom_text" !in config.Keys;
    assert "delegate_workflow" !in config.Keys;
  }

  /** Editing after a successful update reads back the stored start workflow
      and the built config, and the `enabled` column rather than the submitted
      flag. */
  method EditAfterUpdate(command: UpdateSetting, registry: seq<StartWorkflowManifest>, space: Option<SpaceRef>,
                         componentId: Json, next: SettingForm)
    returns (r: Result<Broadcast>)
    requires command.form != command.setting as object
    requires next != command.form && next != command.setting as object
    modifies command.form, command.setting, next
    ensures r == Ok(BroadcastOk(command.setting)) ==>
              && next.startWorkflow == command.form.startWorkflow
              && next.config == BuildConfig(command.form.enabled, space, componentId).fields
              && next.enabled == old(command.setting.enabled)
  {
    r := command.Call(registry, space, componentId);
    if r == Ok(BroadcastOk(command.setting)) {
      next.MapModel(command.setting);
    }
  }
}
