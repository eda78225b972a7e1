/** The two manifest registries: start workflows and providers. A registry is
    the ordered list of its manifests; `find` returns the first manifest whose
    name, as a string, is the one asked for. Class-name resolution
    (`safe_constantize`) is membership in the set of loaded class names. */
module Registries {
  import opened Ruby

  /** One entry of a workflow's `settings_attributes`: its key and whether the
      `required` option is set. */
  datatype SettingsAttribute = SettingsAttribute(key: string, required: bool)

  /** A `StartWorkflowsManifest`. `title` is the translated title; `configurable`
      and `settingsAttributes` are what the admin form reads from it. */
  datatype StartWorkflowManifest = StartWorkflowManifest(
    name: string,
    workflowClass: string,
    title: string,
    configurable: bool,
    settingsAttributes: seq<SettingsAttribute>)

  /** A `ProvidersManifest`. */
  datatype ProvidersManifest = ProvidersManifest(name: string, adapterClass: string)

  /** `String#safe_constantize`: the class when it is loaded, nil otherwise. */
  function Constantize(loaded: set<string>, className: string): (r: Option<string>)
    ensures r.Some? <==> className in loaded
    ensures r.Some? ==> r.value == className
  {
    if className in loaded then Some(className) else None
  }

  /** `ManifestRegistry#find(name)`: the first manifest named `name`. */
  function Find<M>(manifests: seq<M>, nameOf: M -> string, name: string): (r: Option<M>)
    ensures r.Some? <==> exists i :: 0 <= i < |manifests| && nameOf(manifests[i]) == name
    ensures r.Some? ==> exists i :: 0 <= i < |manifests| && manifests[i] == r.value && nameOf(r.value) == name &&
                                    forall j :: 0 <= j < i ==> nameOf(manifests[j]) != name
    decreases |manifests|
  {
    if |manifests| == 0 then None
    else if nameOf(manifests[0]) == name then Some(manifests[0])
    else
      var rest := Find(manifests[1..], nameOf, name);
      if rest.Some? then
        ghost var i :| 0 <= i < |manifests[1..]| && manifests[1..][i] == rest.value && nameOf(rest.value) == name &&
                       forall j :: 0 <= j < i ==> nameOf(manifests[1..][j]) != name;
        assert manifests[i + 1] == rest.value;
        rest
      else
        assert forall i :: 1 <= i < |manifests| ==> manifests[i] == manifests[1..][i - 1];
        rest
  }

  function WorkflowName(m: StartWorkflowManifest): string { m.name }
  function ProviderName(m: ProvidersManifest): string { m.name }

  /** `start_workflows_registry.find(name)`. */
  function FindWorkflow(registry: seq<StartWorkflowManifest>, name: string): Option<StartWorkflowManifest>
  {
    Find(registry, WorkflowName, name)
  }

  /** `providers_registry.find(name)`. */
  function FindProvider(registry: seq<ProvidersManifest>, name: string): Option<ProvidersManifest>
  {
    Find(registry, ProviderName, name)
  }

  /** `StartWorkflowsManifest#workflow`: its class, when loaded. */
  function ManifestWorkflow(m: StartWorkflowManifest, loaded: set<string>): Option<string>
  {
    Constantize(loaded, m.workflowClass)
  }

  /** With unique names, `find` returns the manifest registered under the name. */
  lemma FindUnique<M>(manifests: seq<M>, nameOf: M -> string, i: nat)
    requires i < |manifests|
    requires forall j, k :: 0 <= j < k < |manifests| ==> nameOf(manifests[j]) != nameOf(manifests[k])
    ensures Find(manifests, nameOf, nameOf(manifests[i])) == Some(manifests[i])
  {
    var r := Find(manifests, nameOf, nameOf(manifests[i]));
    var k :| 0 <= k < |manifests| && manifests[k] == r.value && nameOf(r.value) == nameOf(manifests[i]) &&
             forall j :: 0 <= j < k ==> nameOf(manifests[j]) != nameOf(manifests[i]);
    assert k == i;
  }
}
