/** `ApplicationHelper`: the option lists of the admin setting form. Lookups
    into the database and translations are inputs: a participatory space
    manifest comes with its heading and its spaces, a located space with its
    components. */
module ApplicationHelper {
  import opened Ruby
  import opened Registries

  /** A select option: the shown text and the submitted value. */
  type SelectOption = (string, string)

  // ---------------------------------------------------------------- delegate_workflows_for_select

  /** `delegate_workflows_for_select(exclude_workflow:)`: every registered start
      workflow except those whose name is `exclude_workflow.to_s`, as
      `[title, name]`, in registry order. */
  function DelegateWorkflowsForSelect(registry: seq<StartWorkflowManifest>, exclude: Json := Null): (r: seq<SelectOption>)
    ensures |r| <= |registry|
    decreases |registry|
  {
    if |registry| == 0 then []
    else
      (if registry[0].name == ToS(exclude) then [] else [(registry[0].title, registry[0].name)]) +
      DelegateWorkflowsForSelect(registry[1..], exclude)
  }

  /** The list of a concatenation is the concatenation of the lists: the
      filter keeps registry order. */
  lemma {:induction false} DelegateWorkflowsAppend(a: seq<StartWorkflowManifest>, b: seq<StartWorkflowManifest>, exclude: Json)
    ensures DelegateWorkflowsForSelect(a + b, exclude) ==
            DelegateWorkflowsForSelect(a, exclude) + DelegateWorkflowsForSelect(b, exclude)
    decreases |a|
  {
    if |a| > 0 {
      assert (a + b)[0] == a[0] && (a + b)[1..] == a[1..] + b;
      DelegateWorkflowsAppend(a[1..], b, exclude);
    } else {
      assert a + b == b;
    }
  }

  /** An option is listed exactly when some manifest with that title and name
      is registered and its name is not the excluded one. */
  lemma {:induction false} DelegateWorkflowsMembers(registry: seq<StartWorkflowManifest>, exclude: Json, o: SelectOption)
    ensures o in DelegateWorkflowsForSelect(registry, exclude) <==>
            exists i :: 0 <= i < |registry| && registry[i].title == o.0 && registry[i].name == o.1 && o.1 != ToS(exclude)
    decreases |registry|
  {
    if |registry| > 0 {
      DelegateWorkflowsMembers(registry[1..], exclude, o);
      assert forall i :: 1 <= i < |registry| ==> registry[i] == registry[1..][i - 1];
      if o in DelegateWorkflowsForSelect(registry[1..], exclude) {
        var i :| 0 <= i < |registry[1..]| && registry[1..][i].title == o.0 && registry[1..][i].name == o.1 && o.1 != ToS(exclude);
        assert registry[i + 1] == registry[1..][i];
      }
    }
  }

  /** When no registered name is the excluded one (in particular, with no
      exclusion and no manifest named ""), every manifest is offered. */
  lemma {:induction false} DelegateWorkflowsNoExclusion(registry: seq<StartWorkflowManifest>, exclude: Json)
    requires forall i :: 0 <= i < |registry| ==> registry[i].name != ToS(exclude)
    ensures DelegateWorkflowsForSelect(registry, exclude) ==
            seq(|registry|, i requires 0 <= i < |registry| => (registry[i].title, registry[i].name))
    decreases |registry|
  {
    if |registry| > 0 {
      DelegateWorkflowsNoExclusion(registry[1..], exclude);
    }
  }

  // ---------------------------------------------------------------- proposal_components_for_select

  /** A component of a located space. */
  datatype Component = Component(name: string, id: nat, published: bool, manifestName: string)

  /** The published proposals components, as `[name, id.to_s]`, in order. */
  function ProposalOptions(components: seq<Component>): (r: seq<SelectOption>)
    ensures |r| <= |components|
    decreases |components|
  {
    if |components| == 0 then []
    else
      var c := components[0];
      (if c.published && c.manifestName == "proposals" then [(c.name, NatToString(c.id))] else []) +
      ProposalOptions(components[1..])
  }

  /** What `GlobalID::Locator.locate(gid)` finds: nil for a gid it cannot
      parse, `RecordNotFound` for a well-formed gid whose record is gone, or
      the space with its components. */
  datatype Location = Unparseable | Stale | Found(components: seq<Component>)

  /** The locator as a table of gids; a gid outside it is one the locator
      cannot parse. */
  function Locate(located: map<string, Location>, gid: string): Location
  {
    if gid in located then located[gid] else Unparseable
  }

  /** `proposal_components_for_select(space_gid)`: nothing for a blank gid or a
      gid the locator cannot parse; the locator's `RecordNotFound`, which the
      helper does not rescue, for a gid whose space is gone; otherwise the
      options of the space's published proposals components. */
  function ProposalComponentsForSelect(spaceGid: Json, located: map<string, Location>): (r: Result<seq<SelectOption>>)
    ensures Blank(spaceGid) ==> r == Ok([])
    ensures Present(spaceGid) ==>
              match Locate(located, ToS(spaceGid))
              case Unparseable => r == Ok([])
              case Stale => r == Raised(RecordNotFound)
              case Found(components) => r == Ok(ProposalOptions(components))
  {
    if Blank(spaceGid) then Ok([])
    else
      match Locate(located, ToS(spaceGid))
      case Unparseable => Ok([])
      case Stale => Raised(RecordNotFound)
      case Found(components) => Ok(ProposalOptions(components))
  }

  /** An option is listed exactly when a published proposals component has that
      name and id. */
  lemma {:induction false} ProposalOptionsMembers(components: seq<Component>, o: SelectOption)
    ensures o in ProposalOptions(components) <==>
            exists i :: 0 <= i < |components| && components[i].published && components[i].manifestName == "proposals" &&
                        o == (components[i].name, NatToString(components[i].id))
    decreases |components|
  {
    if |components| > 0 {
      ProposalOptionsMembers(components[1..], o);
      assert forall i :: 1 <= i < |components| ==> components[i] == components[1..][i - 1];
      if o in ProposalOptions(components[1..]) {
        var i :| 0 <= i < |components[1..]| && components[1..][i].published && components[1..][i].manifestName == "proposals" &&
                 o == (components[1..][i].name, NatToString(components[1..][i].id));
        assert components[i + 1] == components[1..][i];
      }
    }
  }

  /** The options keep component order: they split over a concatenation. */
  lemma {:induction false} ProposalOptionsAppend(a: seq<Component>, b: seq<Component>)
    ensures ProposalOptions(a + b) == ProposalOptions(a) + ProposalOptions(b)
    decreases |a|
  {
    if |a| > 0 {
      assert (a + b)[0] == a[0] && (a + b)[1..] == a[1..] + b;
      ProposalOptionsAppend(a[1..], b);
    } else {
      assert a + b == b;
    }
  }

  // ---------------------------------------------------------------- grouped_participatory_spaces_for_select

  /** A participatory space as the select shows it: its translated title and
      its GlobalID string. */
  datatype Space = Space(title: string, gid: string)

  /** A participatory space manifest: the plural human name of its model class
      and the organization's spaces of that kind. */
  datatype SpaceManifest = SpaceManifest(heading: string, spaces: seq<Space>)

  /** A Ruby Hash from labels to option lists, in insertion order. */
  type Grouped = seq<(string, seq<SelectOption>)>

  function SpaceOptions(spaces: seq<Space>): (r: seq<SelectOption>)
    ensures |r| == |spaces|
    ensures forall i :: 0 <= i < |r| ==> r[i] == (spaces[i].title, spaces[i].gid)
  {
    seq(|spaces|, i requires 0 <= i < |spaces| => (spaces[i].title, spaces[i].gid))
  }

  /** The index of `heading` among the keys of `h`, or |h| when absent. */
  function IndexOf(h: Grouped, heading: string): (k: nat)
    ensures k <= |h|
    ensures k < |h| ==> h[k].0 == heading
    ensures forall j :: 0 <= j < k ==> h[j].0 != heading
    decreases |h|
  {
    if |h| == 0 then 0
    else if h[0].0 == heading then 0
    else 1 + IndexOf(h[1..], heading)
  }

  /** `hash[heading] = value`: replaces the value of an existing key in place,
      otherwise appends the pair. */
  function Store(h: Grouped, heading: string, value: seq<SelectOption>): (r: Grouped)
  {
    var k := IndexOf(h, heading);
    if k < |h| then h[k := (heading, value)] else h + [(heading, value)]
  }

  /** The hash after the loop has seen `ms`: manifests without spaces are
      skipped, the others store their options under their heading. */
  function Grouping(ms: seq<SpaceManifest>): Grouped
    decreases |ms|
  {
    if |ms| == 0 then []
    else
      var h := Grouping(ms[..|ms| - 1]);
      var m := ms[|ms| - 1];
      if |m.spaces| == 0 then h else Store(h, m.heading, SpaceOptions(m.spaces))
  }

  /** `grouped_participatory_spaces_for_select(organization)`. */
  method GroupedParticipatorySpacesForSelect(manifests: seq<SpaceManifest>) returns (grouped: Grouped)
    ensures grouped == Grouping(manifests)
  {
    grouped := [];
    var i := 0;
    while i < |manifests|
      invariant 0 <= i <= |manifests|
      invariant grouped == Grouping(manifests[..i])
    {
      assert manifests[..i + 1][..i] == manifests[..i];
      var manifest := manifests[i];
      if |manifest.spaces| != 0 {
        var k := IndexOf(grouped, manifest.heading);
        if k < |grouped| {
          grouped := grouped[k := (manifest.heading, SpaceOptions(manifest.spaces))];
        } else {
          grouped := grouped + [(manifest.heading, SpaceOptions(manifest.spaces))];
        }
      }
      i := i + 1;
    }
    assert manifests[..|manifests|] == manifests;
  }

  /** Headings are keys: each appears at most once. */
  predicate UniqueHeadings(h: Grouped)
  {
    forall j, k :: 0 <= j < k < |h| ==> h[j].0 != h[k].0
  }

  lemma StoreKeepsUnique(h: Grouped, heading: string, value: seq<SelectOption>)
    requires UniqueHeadings(h)
    ensures UniqueHeadings(Store(h, heading, value))
    ensures heading in HeadingsOf(Store(h, heading, value))
  {
    var k := IndexOf(h, heading);
    if k == |h| {
      assert forall j :: 0 <= j < |h| ==> h[j].0 != heading;
    }
  }

  function HeadingsOf(h: Grouped): (r: set<string>)
    ensures forall l :: l in r <==> exists j :: 0 <= j < |h| && h[j].0 == l
  {
    set j | 0 <= j < |h| :: h[j].0
  }

  /** The grouping is a hash: no heading twice, and no group is empty. */
  lemma {:induction false} GroupingWellFormed(ms: seq<SpaceManifest>)
    ensures UniqueHeadings(Grouping(ms))
    ensures forall j :: 0 <= j < |Grouping(ms)| ==> |Grouping(ms)[j].1| > 0
    decreases |ms|
  {
    if |ms| > 0 {
      var init := ms[..|ms| - 1];
      GroupingWellFormed(init);
      var m := ms[|ms| - 1];
      if |m.spaces| != 0 {
        StoreKeepsUnique(Grouping(init), m.heading, SpaceOptions(m.spaces));
      }
    }
  }

  /** Storing under a heading adds that heading to the keys and keeps the others. */
  lemma StoreHeadings(h: Grouped, heading: string, value: seq<SelectOption>)
    ensures HeadingsOf(Store(h, heading, value)) == HeadingsOf(h) + {heading}
  {
    var k := IndexOf(h, heading);
    var r := Store(h, heading, value);
    if k < |h| {
      assert forall j :: 0 <= j < |h| ==> r[j].0 == h[j].0;
    } else {
      assert forall j :: 0 <= j < |h| ==> r[j] == h[j];
      assert r[|h|].0 == heading;
    }
  }

  /** A heading is a key exactly when some manifest with that heading has spaces. */
  lemma {:induction false} GroupingHeadings(ms: seq<SpaceManifest>, heading: string)
    ensures heading in HeadingsOf(Grouping(ms)) <==> exists i :: 0 <= i < |ms| && ms[i].heading == heading && |ms[i].spaces| > 0
    decreases |ms|
  {
    if |ms| > 0 {
      var init := ms[..|ms| - 1];
      GroupingHeadings(init, heading);
      assert forall i :: 0 <= i < |init| ==> init[i] == ms[i];
      var m := ms[|ms| - 1];
      if |m.spaces| != 0 {
        StoreHeadings(Grouping(init), m.heading, SpaceOptions(m.spaces));
      }
    }
  }

  /** Under a heading, the options are those of the last manifest with that
      heading and some spaces: a later manifest with the same heading replaces an
      earlier one. */
  lemma {:induction false} GroupingLastWins(ms: seq<SpaceManifest>, i: nat)
    requires i < |ms| && |ms[i].spaces| > 0
    requires forall j :: i < j < |ms| && ms[j].heading == ms[i].heading ==> |ms[j].spaces| == 0
    ensures var h := Grouping(ms);
            var k := IndexOf(h, ms[i].heading);
            k < |h| && h[k].1 == SpaceOptions(ms[i].spaces)
    decreases |ms|
  {
    var init := ms[..|ms| - 1];
    var m := ms[|ms| - 1];
    if i == |ms| - 1 {
      var h := Grouping(init);
      var k := IndexOf(h, m.heading);
      if k == |h| {
        assert IndexOf(Store(h, m.heading, SpaceOptions(m.spaces)), m.heading) == k by {
          IndexOfAppend(h, m.heading, SpaceOptions(m.spaces));
        }
      } else {
        IndexOfUpdate(h, k, m.heading, SpaceOptions(m.spaces));
      }
    } else {
      assert init[i] == ms[i];
      GroupingLastWins(init, i);
      var h := Grouping(init);
      var heading := ms[i].heading;
      if |m.spaces| != 0 {
        assert m.heading != heading;
        var k := IndexOf(h, m.heading);
        if k < |h| {
          IndexOfOtherUpdate(h, k, m.heading, SpaceOptions(m.spaces), heading);
        } else {
          IndexOfOtherAppend(h, m.heading, SpaceOptions(m.spaces), heading);
        }
      }
    }
  }

  lemma {:induction false} IndexOfAppend(h: Grouped, heading: string, value: seq<SelectOption>)
    requires IndexOf(h, heading) == |h|
    ensures IndexOf(h + [(heading, value)], heading) == |h|
    decreases |h|
  {
    if |h| > 0 {
      assert (h + [(heading, value)])[1..] == h[1..] + [(heading, value)];
      IndexOfAppend(h[1..], heading, value);
    }
  }

  lemma {:induction false} IndexOfUpdate(h: Grouped, k: nat, heading: string, value: seq<SelectOption>)
    requires k < |h| && IndexOf(h, heading) == k
    ensures IndexOf(h[k := (heading, value)], heading) == k
    decreases |h|
  {
    if k > 0 {
      assert h[k := (heading, value)][1..] == h[1..][k - 1 := (heading, value)];
      IndexOfUpdate(h[1..], k - 1, heading, value);
    }
  }

  lemma {:induction false} IndexOfOtherUpdate(h: Grouped, k: nat, heading: string, value: seq<SelectOption>, other: string)
    requires k < |h| && h[k].0 == heading && heading != other
    ensures IndexOf(h[k := (heading, value)], other) == IndexOf(h, other)
    decreases |h|
  {
    if k > 0 && h[0].0 != other {
      assert h[k := (heading, value)][1..] == h[1..][k - 1 := (heading, value)];
      IndexOfOtherUpdate(h[1..], k - 1, heading, value, other);
    }
  }

  lemma {:induction false} IndexOfOtherAppend(h: Grouped, heading: string, value: seq<SelectOption>, other: string)
    requires IndexOf(h, other) < |h|
    ensures IndexOf(h + [(heading, value)], other) == IndexOf(h, other)
    ensures (h + [(heading, value)])[IndexOf(h, other)] == h[IndexOf(h, other)]
    decreases |h|
  {
    if |h| > 0 && h[0].0 != other {
      assert (h + [(heading, value)])[1..] == h[1..] + [(heading, value)];
      IndexOfOtherAppend(h[1..], heading, value, other);
    }
  }
}
