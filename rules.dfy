/**
 * The rules of the settings reconciler as functions on values: which
 * checkboxes exist, how a selection is loaded, how enablement is derived,
 * how the two exclusive pairs react to a click, what `apply` writes and
 * what `isModified` compares. The class `Ui.Configuration` is proved to
 * follow these functions; the lemmas here state what they guarantee.
 */
module Rules {
  import opened Wrappers
  import opened Actions
  import opened Store

  /** `ConfigurationType`: IDE-wide settings or settings of one project. */
  datatype Scope = Global | Project

  /** A Swing checkbox, reduced to the two flags the reconciler touches. */
  datatype Checkbox = Checkbox(selected: bool, enabled: bool)

  type Checkboxes = map<Action, Checkbox>

  /** A freshly built `JCheckBox`: not selected, enabled. */
  const NewCheckbox := Checkbox(false, true)

  /** The editable working copy: the checkboxes, the two file-mask sets,
      the quick lists and the path shown by the IDE-support panel. */
  datatype Working = Working(
    checkboxes: Checkboxes,
    exclusions: set<string>,
    inclusions: set<string>,
    quickLists: seq<string>,
    path: Option<string>)

  // ---------------------------------------------------------------------
  // Which checkboxes exist

  /** The scope switch `useGlobalConfiguration` only exists for a project:
      the test `initComponent` applies to one action. `KeySet` collects the
      actions that pass it, as `KeySetByScope` shows. */
  predicate HasCheckbox(scope: Scope, a: Action) {
    scope == Project || a != useGlobalConfiguration
  }

  /** The actions `initComponent` creates a checkbox for. */
  function KeySet(scope: Scope): set<Action> {
    if scope == Project then All else All - {useGlobalConfiguration}
  }

  predicate WellKeyed(scope: Scope, cbs: Checkboxes) {
    cbs.Keys == KeySet(scope)
  }

  /** The checkboxes the enablement and exclusion rules look up exist. */
  predicate HasNamedKeys(scope: Scope, cbs: Checkboxes) {
    && (scope == Project ==> useGlobalConfiguration in cbs)
    && activate in cbs && activateOnShortcut in cbs && activateOnBatch in cbs
    && reformat in cbs && reformatChangedCode in cbs
    && unqualifiedStaticMemberAccess in cbs && customUnqualifiedStaticMemberAccess in cbs
  }

  /** In GLOBAL scope every action but the scope switch has a checkbox, in
      PROJECT scope every action has one. */
  lemma KeySetByScope(a: Action)
    ensures a in KeySet(Global) <==> a != useGlobalConfiguration
    ensures a in KeySet(Project)
  {
    ValuesComplete(a);
  }

  /** Every checkbox the rules look up exists in either scope. */
  lemma WellKeyedHasNamedKeys(scope: Scope, cbs: Checkboxes)
    requires WellKeyed(scope, cbs)
    ensures HasNamedKeys(scope, cbs)
  {
  }

  // ---------------------------------------------------------------------
  // Selection

  /** Every present checkbox selected iff its action is in `sel`. */
  function WithSelection(cbs: Checkboxes, sel: set<Action>): Checkboxes {
    map a | a in cbs :: cbs[a].(selected := a in sel)
  }

  function SelectedActions(cbs: Checkboxes): set<Action> {
    set a | a in cbs && cbs[a].selected
  }

  // ---------------------------------------------------------------------
  // Enablement

  /** `isEnabled()`: the options may be edited unless a project defers to
      the global settings. */
  predicate Editable(scope: Scope, cbs: Checkboxes)
    requires scope == Project ==> useGlobalConfiguration in cbs
  {
    scope == Global || !cbs[useGlobalConfiguration].selected
  }

  /** `isActiveSelected()`: one of the three activations is selected. */
  predicate ActiveSelected(cbs: Checkboxes)
    requires activate in cbs && activateOnShortcut in cbs && activateOnBatch in cbs
  {
    cbs[activate].selected || cbs[activateOnShortcut].selected || cbs[activateOnBatch].selected
  }

  /** The enabled flag the rule gives to the checkbox of `a`. */
  function EnabledFlag(scope: Scope, cbs: Checkboxes, a: Action): bool
    requires HasNamedKeys(scope, cbs) && a in cbs
  {
    if a == useGlobalConfiguration then cbs[a].enabled
    else if IsActivation(a) then Editable(scope, cbs)
    else Editable(scope, cbs) && ActiveSelected(cbs)
  }

  /** `updateCheckboxEnabledIfActiveSelected`: every checkbox gets the
      rule's enabled flag. */
  function WithEnablement(scope: Scope, cbs: Checkboxes): Checkboxes
    requires HasNamedKeys(scope, cbs)
  {
    map a | a in cbs :: cbs[a].(enabled := EnabledFlag(scope, cbs, a))
  }

  // ---------------------------------------------------------------------
  // Exclusive pairs

  /** `updateCheckboxGroupExclusive`: when the checkbox that fired `event`
      is now selected and is one half of `pair`, the other half is
      unselected. */
  function Exclusive(cbs: Checkboxes, event: Option<Action>, pair: Pair): Checkboxes
    requires pair.first in cbs && pair.second in cbs
    requires event.Some? ==> event.value in cbs
  {
    if event.None? then cbs
    else if !cbs[event.value].selected then cbs
    else if event.value == pair.first then cbs[pair.second := cbs[pair.second].(selected := false)]
    else if event.value == pair.second then cbs[pair.first := cbs[pair.first].(selected := false)]
    else cbs
  }

  /** Whether an action event unselects `b`: its source is selected and
      `b` is the other half of the source's pair. */
  predicate Unselects(event: Option<Action>, cbs: Checkboxes, b: Action)
    requires event.Some? ==> event.value in cbs
  {
    event.Some? && cbs[event.value].selected && PartnerOf(event.value) == Some(b)
  }

  /** What the checkbox listener `updateCheckboxEnabled(event)` does, per
      checkbox: it gets the enablement rule's flag, and it is unselected
      exactly when it is the partner of the selected event source. */
  function AfterAction(scope: Scope, cbs: Checkboxes, event: Option<Action>): Checkboxes
    requires HasNamedKeys(scope, cbs)
    requires event.Some? ==> event.value in cbs
  {
    map b | b in cbs :: Checkbox(cbs[b].selected && !Unselects(event, cbs, b), EnabledFlag(scope, cbs, b))
  }

  /** `setSelected(!isSelected())` on the checkbox of `a`. */
  function Flip(cbs: Checkboxes, a: Action): Checkboxes
    requires a in cbs
  {
    cbs[a := cbs[a].(selected := !cbs[a].selected)]
  }

  /** A click on the checkbox of `a`: Swing flips its selection, then
      notifies the listener with that checkbox as the event source. */
  function Click(scope: Scope, cbs: Checkboxes, a: Action): Checkboxes
    requires HasNamedKeys(scope, cbs) && a in cbs
  {
    AfterAction(scope, Flip(cbs, a), Some(a))
  }

  // ---------------------------------------------------------------------
  // Loading, dirty check, applying

  /** `initFirstLaunch`: on the first launch the default actions are
      selected and the flag is cleared; afterwards nothing happens. */
  function FirstLaunch(cbs: Checkboxes, s: Stored, defaults: set<Action>): (Checkboxes, Stored) {
    if s.firstLaunch then (WithSelection(cbs, defaults), s.(firstLaunch := false))
    else (cbs, s)
  }

  /** `reset()`: the working copy as loaded from storage. */
  function Reset(scope: Scope, w: Working, s: Stored): Working
    requires HasNamedKeys(scope, w.checkboxes)
  {
    Working(AfterAction(scope, WithSelection(w.checkboxes, s.actions), None),
            s.exclusions, s.inclusions, s.quickLists, s.path)
  }

  /** `isModified()`: some checkbox disagrees with storage, or storage has a
      path and the panel shows another one, or a collection differs. */
  predicate Modified(w: Working, s: Stored) {
    || (exists a :: a in w.checkboxes && w.checkboxes[a].selected != s.IsEnabled(a))
    || (s.path.Some? && s.path != w.path)
    || s.exclusions != w.exclusions
    || s.inclusions != w.inclusions
    || s.quickLists != w.quickLists
  }

  /** The first half of `apply()`: storage after every field of the working
      copy has been written into it. */
  function Written(w: Working, s: Stored): Stored {
    s.(actions := (s.actions - w.checkboxes.Keys) + SelectedActions(w.checkboxes),
       exclusions := w.exclusions,
       inclusions := w.inclusions,
       quickLists := w.quickLists,
       path := w.path)
  }

  /** The profile lookup: given a path and the actions of the fallback
      storage, the action set of the external settings profile at that path,
      or `None` when there is none (no path, unreadable, invalid). */
  type ProfileLookup = (Option<string>, set<Action>) -> Option<set<Action>>

  /** `getStorageOrDefault(path, fallback).getActions()`. */
  function ProfileOrDefault(lookup: ProfileLookup, path: Option<string>, fallback: set<Action>): set<Action> {
    match lookup(path, fallback)
    case Some(profile) => profile
    case None => fallback
  }

  /** The second half of `apply()`: the working copy re-selected from the
      profile and enablement recomputed; storage is not touched. */
  function Previewed(scope: Scope, w: Working, profile: set<Action>): Working
    requires HasNamedKeys(scope, w.checkboxes)
  {
    w.(checkboxes := AfterAction(scope, WithSelection(w.checkboxes, profile), None))
  }

  /** The working copy after `apply()`. */
  function Applied(scope: Scope, w: Working, s: Stored, lookup: ProfileLookup): Working
    requires HasNamedKeys(scope, w.checkboxes)
  {
    Previewed(scope, w, ProfileOrDefault(lookup, w.path, Written(w, s).actions))
  }
}
