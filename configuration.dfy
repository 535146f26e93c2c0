/**
 * The settings page of the save-actions plugin: an editable working copy of
 * the settings (one checkbox per action, the inclusion and exclusion file
 * masks, the quick lists and the path of an external settings profile)
 * reconciled with the persisted `Storage` of its scope.
 *
 * Every method is proved to follow the functions of module `Rules`; what
 * those functions guarantee is proved in module `Properties`.
 */
module Ui {
  import opened Wrappers
  import opened Actions
  import opened Store
  import opened Rules
  import opened Properties

  /** The checkboxes part way through a loop over the map's entries, in
      ordinal order, that turns `before` into `after`: the entries before
      ordinal `i` are updated already. */
  ghost function Partial(before: Checkboxes, after: Checkboxes, i: nat): Checkboxes
    requires after.Keys == before.Keys
  {
    map a | a in before :: if Ordinal(a) < i then after[a] else before[a]
  }

  /** The loop invariant: `cbs` is `before` with the entries below ordinal
      `i` taken from `after`. */
  ghost predicate Visited(before: Checkboxes, after: Checkboxes, cbs: Checkboxes, i: nat) {
    after.Keys == before.Keys && cbs == Partial(before, after, i)
  }

  lemma PartialStep(before: Checkboxes, after: Checkboxes, i: nat)
    requires after.Keys == before.Keys && i < |Values|
    ensures Values[i] in before ==>
      Partial(before, after, i)[Values[i] := after[Values[i]]] == Partial(before, after, i + 1)
    ensures Values[i] !in before ==> Partial(before, after, i) == Partial(before, after, i + 1)
  {
    OrdinalOfValue(i);
  }

  /** One iteration of `updateSelectedStateOfCheckboxes`. */
  lemma SelectionStep(before: Checkboxes, selected: set<Action>, cbs: Checkboxes, i: nat)
    requires i < |Values|
    requires Visited(before, WithSelection(before, selected), cbs, i)
    ensures var action := Values[i];
            Visited(before, WithSelection(before, selected),
                    if action in cbs then cbs[action := cbs[action].(selected := action in selected)] else cbs,
                    i + 1)
  {
    PartialStep(before, WithSelection(before, selected), i);
  }

  /** One iteration of `updateCheckboxEnabledIfActiveSelected`. */
  lemma FlagStep(before: Checkboxes, after: Checkboxes, cbs: Checkboxes, i: nat, editable: bool, active: bool)
    requires i < |Values| && after.Keys == before.Keys
    requires forall a :: a in before ==> after[a] == before[a].(enabled := Flag(a, before[a], editable, active))
    requires Visited(before, after, cbs, i)
    ensures var action := Values[i];
            Visited(before, after,
                    if action in cbs && action != useGlobalConfiguration
                    then cbs[action := cbs[action].(enabled := if IsActivation(action) then editable else editable && active)]
                    else cbs,
                    i + 1)
  {
    var action := Values[i];
    PartialStep(before, after, i);
    if action in cbs {
      assert cbs[action] == before[action] by { OrdinalOfValue(i); }
      if action == useGlobalConfiguration {
        assert cbs[action := after[action]] == cbs;
      }
    }
  }

  /** Once every entry is visited, the loop has produced `after`. */
  lemma PartialDone(before: Checkboxes, after: Checkboxes)
    requires after.Keys == before.Keys
    ensures Partial(before, after, |Values|) == after
  {
  }

  /** The enabled flag of one checkbox, given the two answers: the flag of
      `Rules.EnabledFlag` with `isEnabled()` and `isActiveSelected()` passed
      in, so that the loop's proof does not see how they are computed
      (`EnablementTarget` relates the two). */
  function Flag(a: Action, c: Checkbox, editable: bool, active: bool): bool {
    if a == useGlobalConfiguration then c.enabled
    else if IsActivation(a) then editable
    else editable && active
  }

  lemma EnablementTarget(scope: Scope, cbs: Checkboxes, editable: bool, active: bool)
    requires HasNamedKeys(scope, cbs)
    requires editable == Editable(scope, cbs) && active == ActiveSelected(cbs)
    ensures WithEnablement(scope, cbs).Keys == cbs.Keys
    ensures forall a :: a in cbs ==> WithEnablement(scope, cbs)[a] == cbs[a].(enabled := Flag(a, cbs[a], editable, active))
  {
  }

  class Configuration {
    const scope: Scope
    const storage: Storage

    /** The `EnumMap` from action to checkbox. */
    var checkboxes: Checkboxes
    var exclusions: set<string>
    var inclusions: set<string>
    var quickLists: seq<string>
    /** The path the IDE-support panel shows. */
    var idePath: Option<string>
    /** Whether the panels exist: from `createComponent` until
        `disposeUIResources`. */
    var created: bool

    ghost predicate Valid()
      reads this`checkboxes, this`created
    {
      checkboxes.Keys == if created then KeySet(scope) else {}
    }

    /** The working copy as a value. */
    function Working(): Working
      reads this`checkboxes, this`exclusions, this`inclusions, this`quickLists, this`idePath
    {
      Rules.Working(checkboxes, exclusions, inclusions, quickLists, idePath)
    }

    constructor (scope: Scope, storage: Storage)
      ensures Valid() && !created
      ensures this.scope == scope && this.storage == storage
      ensures Working() == Rules.Working(map[], {}, {}, [], None)
    {
      this.scope := scope;
      this.storage := storage;
      checkboxes := map[];
      exclusions := {};
      inclusions := {};
      quickLists := [];
      idePath := None;
      created := false;
    }

    // -------------------------------------------------------------------
    // Building and disposing the page

    /** `createComponent`: build the checkboxes, then the first-launch
        switch. The path the new IDE-support panel shows is `shownPath`;
        the defaults are `Action.getDefaults()`. */
    method CreateComponent(defaults: set<Action>, shownPath: Option<string>)
      requires Valid()
      modifies this, storage
      ensures Valid() && created
      ensures (checkboxes, storage.Value()) ==
        FirstLaunch(map a | a in KeySet(scope) :: NewCheckbox, old(storage.Value()), defaults)
      ensures exclusions == old(exclusions) && inclusions == old(inclusions)
      ensures quickLists == old(quickLists) && idePath == shownPath
    {
      InitComponent(shownPath);
      InitFirstLaunch(defaults);
    }

    /** `initComponent`: one new checkbox per action of the scope. */
    method InitComponent(shownPath: Option<string>)
      requires Valid()
      modifies this
      ensures Valid() && created
      ensures checkboxes == map a | a in KeySet(scope) :: NewCheckbox
      ensures exclusions == old(exclusions) && inclusions == old(inclusions)
      ensures quickLists == old(quickLists) && idePath == shownPath
    {
      CreateCheckboxes();
      idePath := shownPath;
      created := true;
    }

    /** The loop of `initComponent`: a new checkbox is put in the map for
        every action the scope shows. */
    method CreateCheckboxes()
      requires checkboxes.Keys <= KeySet(scope)
      modifies this`checkboxes
      ensures checkboxes == map a | a in KeySet(scope) :: NewCheckbox
    {
      var i := 0;
      while i < |Values|
        invariant 0 <= i <= |Values|
        invariant checkboxes.Keys <= KeySet(scope)
        invariant forall a :: Ordinal(a) < i && HasCheckbox(scope, a) ==> a in checkboxes && checkboxes[a] == NewCheckbox
      {
        var action := Values[i];
        OrdinalOfValue(i);
        if scope == Project || action != useGlobalConfiguration {
          KeySetByScope(action);
          checkboxes := checkboxes[action := NewCheckbox];
        }
        i := i + 1;
      }
      forall a | a in KeySet(scope) ensures a in checkboxes {
        KeySetByScope(a);
      }
    }

    /** `initFirstLaunch`. */
    method InitFirstLaunch(defaults: set<Action>)
      requires Valid() && created
      modifies this`checkboxes, storage
      ensures Valid()
      ensures (checkboxes, storage.Value()) == FirstLaunch(old(checkboxes), old(storage.Value()), defaults)
    {
      if storage.firstLaunch {
        UpdateSelectedStateOfCheckboxes(defaults);
        storage.StopFirstLaunch();
      }
    }

    /** `disposeUIResources`: forget the checkboxes, clear the collections,
        drop the panels. */
    method DisposeUIResources()
      modifies this
      ensures Valid() && !created
      ensures Working() == Rules.Working(map[], {}, {}, [], None)
    {
      checkboxes := map[];
      exclusions := {};
      inclusions := {};
      quickLists := [];
      idePath := None;
      created := false;
    }

    /** The panels share the collections and the path with the page: a user
        edit there replaces them. */
    method EditInPanels(excluded: set<string>, included: set<string>, lists: seq<string>, path: Option<string>)
      requires Valid() && created
      modifies this`exclusions, this`inclusions, this`quickLists, this`idePath
      ensures Working() == old(Working()).(exclusions := excluded, inclusions := included,
                                           quickLists := lists, path := path)
    {
      exclusions, inclusions, quickLists, idePath := excluded, included, lists, path;
    }

    // -------------------------------------------------------------------
    // Queries

    /** `isEnabled()`. */
    function IsEnabled(): (r: bool)
      requires Valid() && created
      reads this
      ensures scope == Global ==> r
      ensures scope == Project ==>
                (useGlobalConfiguration in checkboxes &&
                 (r <==> !checkboxes[useGlobalConfiguration].selected))
    {
      WellKeyedHasNamedKeys(scope, checkboxes);
      Editable(scope, checkboxes)
    }

    /** `isActiveSelected()`. */
    function IsActiveSelected(): (r: bool)
      requires Valid() && created
      reads this
      ensures r <==> exists a :: a in checkboxes && IsActivation(a) && checkboxes[a].selected
    {
      WellKeyedHasNamedKeys(scope, checkboxes);
      ActiveSelected(checkboxes)
    }

    /** `isModified()`: compares the working copy with storage, checkbox by
        checkbox in the map's order, then the path, then the collections. */
    method IsModified() returns (r: bool)
      requires Valid() && created
      ensures r == Modified(Working(), storage.Value())
    {
      var i := 0;
      while i < |Values|
        invariant 0 <= i <= |Values|
        invariant forall a :: a in checkboxes && Ordinal(a) < i ==> checkboxes[a].selected == storage.IsEnabled(a)
      {
        var action := Values[i];
        OrdinalOfValue(i);
        if action in checkboxes && storage.IsEnabled(action) != checkboxes[action].selected {
          return true;
        }
        i := i + 1;
      }
      if storage.configurationPath.Some? && storage.configurationPath != idePath {
        return true;
      }
      return storage.exclusions != exclusions
          || storage.inclusions != inclusions
          || storage.quickLists != quickLists;
    }

    // -------------------------------------------------------------------
    // Reset and apply

    /** `reset()`: load the working copy from storage. */
    method Reset()
      requires Valid() && created
      modifies this
      ensures Valid() && created
      ensures Working() == Rules.Reset(scope, old(Working()), storage.Value())
      ensures unchanged(storage)
    {
      Reselect(storage.actions);
      UpdateExclusions();
      UpdateInclusions();
      UpdateQuickLists();
      idePath := storage.configurationPath;
    }

    /** The step `reset()` and `apply()` share: select exactly the checkboxes
        of `selected`, then recompute enablement with the null event. */
    method Reselect(selected: set<Action>)
      requires Valid() && created
      modifies this`checkboxes
      ensures Valid()
      ensures checkboxes == AfterAction(scope, WithSelection(old(checkboxes), selected), None)
    {
      UpdateSelectedStateOfCheckboxes(selected);
      UpdateCheckboxEnabled(None);
    }

    /** `apply()`: write the working copy into storage, then preview the
        external profile at the panel's path in the working copy only. */
    method Apply(lookup: ProfileLookup)
      requires Valid() && created
      modifies this, storage
      ensures Valid() && created
      ensures storage.Value() == Written(old(Working()), old(storage.Value()))
      ensures Working() == Applied(scope, old(Working()), old(storage.Value()), lookup)
    {
      WriteCheckboxes();
      WritePanels();
      var profile := ProfileOrDefault(lookup, idePath, storage.actions);
      Reselect(profile);
    }

    /** The first loop of `apply()`: every checkbox's state is written to
        storage, in the map's order. */
    method WriteCheckboxes()
      modifies storage
      ensures storage.Value() == old(storage.Value()).(actions :=
        (old(storage.actions) - checkboxes.Keys) + SelectedActions(checkboxes))
    {
      var i := 0;
      while i < |Values|
        invariant 0 <= i <= |Values|
        invariant storage.Value() == old(storage.Value()).(actions := storage.actions)
        invariant forall a :: a in storage.actions <==>
                    if a in checkboxes && Ordinal(a) < i then checkboxes[a].selected else a in old(storage.actions)
      {
        var action := Values[i];
        OrdinalOfValue(i);
        if action in checkboxes {
          storage.SetEnabled(action, checkboxes[action].selected);
        }
        i := i + 1;
      }
      assert storage.actions == (old(storage.actions) - checkboxes.Keys) + SelectedActions(checkboxes);
    }

    /** The rest of the write in `apply()`: copies of the collections and
        the panel's path go to storage. */
    method WritePanels()
      modifies storage
      ensures storage.Value() == old(storage.Value()).(exclusions := exclusions, inclusions := inclusions,
                                                       quickLists := quickLists, path := idePath)
    {
      storage.SetExclusions(exclusions);
      storage.SetInclusions(inclusions);
      storage.SetQuickLists(quickLists);
      storage.SetConfigurationPath(idePath);
    }

    /** `updateSelectedStateOfCheckboxes`: select exactly the checkboxes
        whose action is in `selected`. */
    method UpdateSelectedStateOfCheckboxes(selected: set<Action>)
      modifies this`checkboxes
      ensures checkboxes.Keys == old(checkboxes).Keys
      ensures checkboxes == WithSelection(old(checkboxes), selected)
    {
      ghost var before := checkboxes;
      var cbs := checkboxes;
      var i := 0;
      while i < |Values|
        invariant 0 <= i <= |Values|
        invariant Visited(before, WithSelection(before, selected), cbs, i)
        modifies {}
      {
        var action := Values[i];
        SelectionStep(before, selected, cbs, i);
        if action in cbs {
          cbs := cbs[action := cbs[action].(selected := action in selected)];
        }
        i := i + 1;
      }
      PartialDone(before, WithSelection(before, selected));
      checkboxes := cbs;
    }

    /** `updateExclusions`: clear, then copy storage's masks in. */
    method UpdateExclusions()
      modifies this`exclusions
      ensures exclusions == storage.exclusions
    {
      exclusions := {};
      exclusions := exclusions + storage.exclusions;
    }

    /** `updateInclusions`. */
    method UpdateInclusions()
      modifies this`inclusions
      ensures inclusions == storage.inclusions
    {
      inclusions := {};
      inclusions := inclusions + storage.inclusions;
    }

    /** `updateQuickLists`: clear, then append storage's lists in order. */
    method UpdateQuickLists()
      modifies this`quickLists
      ensures quickLists == storage.quickLists
    {
      quickLists := [];
      quickLists := quickLists + storage.quickLists;
    }

    // -------------------------------------------------------------------
    // The checkbox listener

    /** A click on the checkbox of `action`: Swing flips it, then the
        listener runs with it as the event source. A disabled checkbox
        ignores clicks, so only an enabled one can be toggled. */
    method Toggle(action: Action)
      requires Valid() && created && action in checkboxes
      requires checkboxes[action].enabled
      modifies this`checkboxes
      ensures Valid()
      ensures checkboxes == Click(scope, old(checkboxes), action)
    {
      checkboxes := checkboxes[action := checkboxes[action].(selected := !checkboxes[action].selected)];
      UpdateCheckboxEnabled(Some(action));
    }

    /** `updateCheckboxEnabled(event)`; `None` is the null event. */
    method UpdateCheckboxEnabled(event: Option<Action>)
      requires Valid() && created
      requires event.Some? ==> event.value in checkboxes
      modifies this`checkboxes
      ensures Valid()
      ensures checkboxes == AfterAction(scope, old(checkboxes), event)
    {
      WellKeyedHasNamedKeys(scope, checkboxes);
      UpdateCheckboxEnabledIfActiveSelected();
      UpdateCheckboxGroupExclusive(event, ReformatGroup);
      UpdateCheckboxGroupExclusive(event, StaticGroup);
      ListenerSteps(scope, old(checkboxes), event);
    }

    /** `updateCheckboxEnabledIfActiveSelected`. The loop changes only
        enabled flags, so `isEnabled()` and `isActiveSelected()`, which read
        selections, give the same answer on every iteration and are asked
        once here. */
    method UpdateCheckboxEnabledIfActiveSelected()
      requires Valid() && created
      modifies this`checkboxes
      ensures Valid()
      ensures checkboxes == WithEnablement(scope, old(checkboxes))
    {
      var editable := IsEnabled();
      var active := IsActiveSelected();
      EnablementTarget(scope, checkboxes, editable, active);
      SetEnabledFlags(WithEnablement(scope, checkboxes), editable, active);
    }

    /** The loop of `updateCheckboxEnabledIfActiveSelected`, with the two
        answers it asks for on every iteration. */
    method SetEnabledFlags(ghost after: Checkboxes, editable: bool, active: bool)
      requires after.Keys == checkboxes.Keys
      requires forall a :: a in checkboxes ==> after[a] == checkboxes[a].(enabled := Flag(a, checkboxes[a], editable, active))
      modifies this`checkboxes
      ensures checkboxes == after
    {
      ghost var before := checkboxes;
      var cbs := checkboxes;
      var i := 0;
      while i < |Values|
        invariant 0 <= i <= |Values|
        invariant Visited(before, after, cbs, i)
        modifies {}
      {
        var action := Values[i];
        FlagStep(before, after, cbs, i, editable, active);
        if action in cbs && action != useGlobalConfiguration {
          var enabled := if IsActivation(action) then editable else editable && active;
          cbs := cbs[action := cbs[action].(enabled := enabled)];
        }
        i := i + 1;
      }
      PartialDone(before, after);
      checkboxes := cbs;
    }

    /** `updateCheckboxGroupExclusive(event, checkbox1, checkbox2)`. */
    method UpdateCheckboxGroupExclusive(event: Option<Action>, pair: Pair)
      requires pair.first in checkboxes && pair.second in checkboxes
      requires event.Some? ==> event.value in checkboxes
      modifies this`checkboxes
      ensures checkboxes == Exclusive(old(checkboxes), event, pair)
    {
      if event.None? {
        return;
      }
      var source := event.value;
      if checkboxes[source].selected {
        if source == pair.first {
          checkboxes := checkboxes[pair.second := checkboxes[pair.second].(selected := false)];
        } else if source == pair.second {
          checkboxes := checkboxes[pair.first := checkboxes[pair.first].(selected := false)];
        }
      }
    }
  }
}
