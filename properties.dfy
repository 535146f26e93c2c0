/**
 * What the reconciler's rules guarantee: the step-by-step listener meets
 * its per-checkbox rule, the enablement rule, the exclusive pairs, reset and
 * apply leaving the working copy clean, the first-launch switch, and the
 * dirty check's treatment of an absent storage path.
 */
module Properties {
  import opened Wrappers
  import opened Actions
  import opened Store
  import opened Rules

  // ---------------------------------------------------------------------
  // The listener, step by step

  /** One exclusive pair: only the other half of a selected source changes,
      and only its selection, to false. */
  lemma ExclusiveAt(cbs: Checkboxes, event: Option<Action>, pair: Pair, b: Action)
    requires pair == ReformatGroup || pair == StaticGroup
    requires pair.first in cbs && pair.second in cbs && b in cbs
    requires event.Some? ==> event.value in cbs
    ensures var r := Exclusive(cbs, event, pair);
      && r.Keys == cbs.Keys
      && r[b].enabled == cbs[b].enabled
      && (r[b].selected <==>
            cbs[b].selected && !(Unselects(event, cbs, b) && pair.Has(event.value)))
  {
    if event.Some? {
      GroupsArePartners(event.value, b);
    }
  }

  /** One checkbox through the three steps of the listener. */
  lemma ListenerStepsAt(scope: Scope, cbs: Checkboxes, event: Option<Action>, b: Action)
    requires HasNamedKeys(scope, cbs) && b in cbs
    requires event.Some? ==> event.value in cbs
    ensures var e := WithEnablement(scope, cbs);
      var m := Exclusive(e, event, ReformatGroup);
      var r := Exclusive(m, event, StaticGroup);
      && r.Keys == cbs.Keys
      && r[b] == Checkbox(cbs[b].selected && !Unselects(event, cbs, b), EnabledFlag(scope, cbs, b))
  {
    var e := WithEnablement(scope, cbs);
    var m := Exclusive(e, event, ReformatGroup);
    assert e.Keys == cbs.Keys && e[b] == cbs[b].(enabled := EnabledFlag(scope, cbs, b));
    assert event.Some? ==> e[event.value].selected == cbs[event.value].selected;
    ExclusiveAt(e, event, ReformatGroup, b);
    if event.Some? {
      ExclusiveAt(e, event, ReformatGroup, event.value);
      GroupsArePartners(event.value, event.value);
      assert m[event.value].selected == cbs[event.value].selected;
    }
    ExclusiveAt(m, event, StaticGroup, b);
    if event.Some? {
      GroupsArePartners(event.value, b);
    }
  }

  /** `updateCheckboxEnabled(event)` as the source writes it (enablement,
      then the reformat pair, then the static-access pair) meets the
      per-checkbox rule `AfterAction`. */
  lemma ListenerSteps(scope: Scope, cbs: Checkboxes, event: Option<Action>)
    requires HasNamedKeys(scope, cbs)
    requires event.Some? ==> event.value in cbs
    ensures var e := WithEnablement(scope, cbs);
      var m := Exclusive(e, event, ReformatGroup);
      Exclusive(m, event, StaticGroup) == AfterAction(scope, cbs, event)
  {
    var e := WithEnablement(scope, cbs);
    var m := Exclusive(e, event, ReformatGroup);
    var r := Exclusive(m, event, StaticGroup);
    var want := AfterAction(scope, cbs, event);
    forall b | b in cbs
      ensures b in r && r[b] == want[b]
    {
      ListenerStepsAt(scope, cbs, event, b);
    }
    ListenerStepsAt(scope, cbs, event, activate);
    assert r.Keys == want.Keys;
  }

  // ---------------------------------------------------------------------
  // Enablement

  /** After the listener: the scope switch keeps its flag, the three
      activations are enabled iff the options are editable, every other
      action iff they are editable and an activation is selected. */
  lemma EnablementRule(scope: Scope, cbs: Checkboxes, event: Option<Action>, a: Action)
    requires HasNamedKeys(scope, cbs) && a in cbs
    requires event.Some? ==> event.value in cbs
    ensures var r := AfterAction(scope, cbs, event);
      && r.Keys == cbs.Keys
      && (a == useGlobalConfiguration ==> r[a].enabled == cbs[a].enabled)
      && (IsActivation(a) ==> (r[a].enabled <==> Editable(scope, cbs)))
      && (a != useGlobalConfiguration && !IsActivation(a) ==>
            (r[a].enabled <==> Editable(scope, cbs) && ActiveSelected(cbs)))
  {
  }

  /** A null event (reset, apply) changes no selection. */
  lemma NullEventKeepsSelection(scope: Scope, cbs: Checkboxes, a: Action)
    requires HasNamedKeys(scope, cbs) && a in cbs
    ensures var r := AfterAction(scope, cbs, None);
      r.Keys == cbs.Keys && r[a].selected == cbs[a].selected
  {
  }

  /** A project that defers to the global settings disables every other
      checkbox; a global configuration has no scope switch and is always
      editable. */
  lemma DeferringProjectLocksOptions(scope: Scope, cbs: Checkboxes, event: Option<Action>)
    requires WellKeyed(scope, cbs)
    requires event.Some? ==> event.value in cbs
    ensures scope == Project ==> useGlobalConfiguration in cbs
    ensures scope == Project && cbs[useGlobalConfiguration].selected ==>
      forall a :: a in cbs && a != useGlobalConfiguration ==> !AfterAction(scope, cbs, event)[a].enabled
    ensures scope == Global ==> useGlobalConfiguration !in cbs && Editable(scope, cbs)
  {
  }

  /** Selecting the scope switch of a project by a click leaves only the
      switch clickable: every other checkbox is disabled, and the switch keeps
      its own enabled flag, so a second click can undo the choice. */
  lemma DeferringProjectRefusesClicks(cbs: Checkboxes, a: Action)
    requires WellKeyed(Project, cbs) && a in cbs
    requires !cbs[useGlobalConfiguration].selected
    ensures var r := Click(Project, cbs, useGlobalConfiguration);
      && r[useGlobalConfiguration].selected
      && r[useGlobalConfiguration].enabled == cbs[useGlobalConfiguration].enabled
      && (a != useGlobalConfiguration ==> !r[a].enabled)
  {
    ClickFlipsTarget(Project, cbs, useGlobalConfiguration);
  }

  /** With no activation selected, every option other than the activations
      and the scope switch is disabled. */
  lemma ActivationGatesOptions(scope: Scope, cbs: Checkboxes, event: Option<Action>, a: Action)
    requires HasNamedKeys(scope, cbs) && a in cbs
    requires event.Some? ==> event.value in cbs
    requires !ActiveSelected(cbs)
    requires !IsActivation(a) && a != useGlobalConfiguration
    ensures !AfterAction(scope, cbs, event)[a].enabled
  {
  }

  // ---------------------------------------------------------------------
  // Clicks and the exclusive pairs

  /** A click flips the selection of the clicked checkbox. */
  lemma ClickFlipsTarget(scope: Scope, cbs: Checkboxes, a: Action)
    requires HasNamedKeys(scope, cbs) && a in cbs
    ensures var r := Click(scope, cbs, a); r.Keys == cbs.Keys && (r[a].selected <==> !cbs[a].selected)
  {
    GroupsArePartners(a, a);
  }

  /** Elsewhere a click only unselects: the other half of the clicked
      checkbox's pair, when the click has selected it. */
  lemma ClickElsewhere(scope: Scope, cbs: Checkboxes, a: Action, b: Action)
    requires HasNamedKeys(scope, cbs) && a in cbs && b in cbs && b != a
    ensures var r := Click(scope, cbs, a);
      r[b].selected <==> cbs[b].selected && !(!cbs[a].selected && PartnerOf(a) == Some(b))
  {
  }

  predicate Apart(cbs: Checkboxes, pair: Pair)
    requires pair.first in cbs && pair.second in cbs
  {
    !(cbs[pair.first].selected && cbs[pair.second].selected)
  }

  /** A click on one half of a pair leaves the pair apart; a click elsewhere
      keeps a pair that was apart apart. */
  lemma ClickKeepsPairsApart(scope: Scope, cbs: Checkboxes, a: Action, pair: Pair)
    requires HasNamedKeys(scope, cbs) && a in cbs
    requires pair == ReformatGroup || pair == StaticGroup
    requires pair.Has(a) || Apart(cbs, pair)
    ensures Apart(Click(scope, cbs, a), pair)
  {
    ClickFlipsTarget(scope, cbs, a);
    if a != pair.first {
      ClickElsewhere(scope, cbs, a, pair.first);
    }
    if a != pair.second {
      ClickElsewhere(scope, cbs, a, pair.second);
    }
    GroupsArePartners(a, pair.first);
    GroupsArePartners(a, pair.second);
  }

  /** Two clicks that select both halves of a pair, one after the other,
      leave only the second selected. */
  lemma SecondClickWins(scope: Scope, cbs: Checkboxes, pair: Pair)
    requires HasNamedKeys(scope, cbs)
    requires pair == ReformatGroup || pair == StaticGroup
    requires !cbs[pair.first].selected && !cbs[pair.second].selected
    ensures
      var once := Click(scope, cbs, pair.first);
      var twice := Click(scope, once, pair.second);
      twice[pair.second].selected && !twice[pair.first].selected
  {
    var once := Click(scope, cbs, pair.first);
    ClickFlipsTarget(scope, cbs, pair.first);
    ClickElsewhere(scope, cbs, pair.first, pair.second);
    ClickFlipsTarget(scope, once, pair.second);
    ClickElsewhere(scope, once, pair.second, pair.first);
    GroupsArePartners(pair.second, pair.first);
  }

  /** Exclusivity is enforced only on clicks: loading a storage that has
      both halves of a pair selects both. */
  lemma ResetMayLoadBothHalves(scope: Scope, w: Working, s: Stored, pair: Pair)
    requires HasNamedKeys(scope, w.checkboxes)
    requires pair == ReformatGroup || pair == StaticGroup
    requires pair.first in s.actions && pair.second in s.actions
    ensures var r := Reset(scope, w, s).checkboxes;
      pair.first in r && pair.second in r && r[pair.first].selected && r[pair.second].selected
  {
  }

  // ---------------------------------------------------------------------
  // Reset

  /** `reset()` loads every checkbox, collection and the path from storage. */
  lemma ResetLoadsStorage(scope: Scope, w: Working, s: Stored)
    requires HasNamedKeys(scope, w.checkboxes)
    ensures var r := Reset(scope, w, s);
      && r.checkboxes.Keys == w.checkboxes.Keys
      && (forall a :: a in r.checkboxes ==> (r.checkboxes[a].selected <==> s.IsEnabled(a)))
      && r.exclusions == s.exclusions && r.inclusions == s.inclusions
      && r.quickLists == s.quickLists && r.path == s.path
  {
    var sel := WithSelection(w.checkboxes, s.actions);
    var r := Reset(scope, w, s);
    forall a | a in r.checkboxes
      ensures r.checkboxes[a].selected <==> s.IsEnabled(a)
    {
      assert r.checkboxes[a].selected == sel[a].selected;
    }
  }

  /** Right after `reset()` the working copy is not modified. */
  lemma ResetIsClean(scope: Scope, w: Working, s: Stored)
    requires HasNamedKeys(scope, w.checkboxes)
    ensures !Modified(Reset(scope, w, s), s)
  {
    ResetLoadsStorage(scope, w, s);
  }

  // ---------------------------------------------------------------------
  // Apply

  /** The writes of `apply()`: each checkbox's selection lands in storage,
      actions without a checkbox keep their stored flag, the collections and
      the path are copied, the first-launch flag is left alone; storage then
      equals the working copy as it was before any override. */
  lemma WrittenMatchesWorking(w: Working, s: Stored)
    ensures var t := Written(w, s);
      && (forall a :: a in w.checkboxes ==> (t.IsEnabled(a) <==> w.checkboxes[a].selected))
      && (forall a :: a !in w.checkboxes ==> (t.IsEnabled(a) <==> s.IsEnabled(a)))
      && t.exclusions == w.exclusions && t.inclusions == w.inclusions
      && t.quickLists == w.quickLists && t.path == w.path
      && t.firstLaunch == s.firstLaunch
      && !Modified(w, t)
  {
  }

  /** After `apply()` the working copy differs from storage exactly where the
      profile selects differently from what was written. */
  lemma AppliedDirtyExactlyOnProfileDifference(scope: Scope, w: Working, s: Stored, lookup: ProfileLookup)
    requires HasNamedKeys(scope, w.checkboxes)
    ensures var t := Written(w, s);
      var profile := ProfileOrDefault(lookup, w.path, t.actions);
      Modified(Applied(scope, w, s, lookup), t) <==>
        exists a :: a in w.checkboxes && (a in profile) != t.IsEnabled(a)
  {
    var t := Written(w, s);
    var profile := ProfileOrDefault(lookup, w.path, t.actions);
    var r := Applied(scope, w, s, lookup);
    if Modified(r, t) {
      var a :| a in r.checkboxes && r.checkboxes[a].selected != t.IsEnabled(a);
      assert a in w.checkboxes && (a in profile) != t.IsEnabled(a);
    }
  }

  /** When no external profile is found, `apply()` leaves the working copy
      equal to what it wrote: not modified. */
  lemma AppliedWithoutProfileIsClean(scope: Scope, w: Working, s: Stored, lookup: ProfileLookup)
    requires HasNamedKeys(scope, w.checkboxes)
    requires lookup(w.path, Written(w, s).actions).None?
    ensures !Modified(Applied(scope, w, s, lookup), Written(w, s))
  {
    AppliedDirtyExactlyOnProfileDifference(scope, w, s, lookup);
  }

  // ---------------------------------------------------------------------
  // Dirty check and first launch

  /** An absent storage path never makes the working copy modified, whatever
      path the panel shows. */
  lemma AbsentStoredPathIgnored(w: Working, s: Stored, shown: Option<string>)
    requires s.path.None?
    ensures Modified(w.(path := shown), s) == Modified(w, s)
  {
  }

  /** The first launch selects exactly the defaults and clears the flag;
      once cleared, the switch does nothing, so it happens once. */
  lemma FirstLaunchHappensOnce(cbs: Checkboxes, s: Stored, defaults: set<Action>)
    ensures var (c, t) := FirstLaunch(cbs, s, defaults);
      && c.Keys == cbs.Keys
      && !t.firstLaunch
      && (s.firstLaunch ==>
            (forall a :: a in c ==> (c[a].selected <==> a in defaults) && c[a].enabled == cbs[a].enabled)
            && t == s.(firstLaunch := false))
      && (!s.firstLaunch ==> c == cbs && t == s)
      && FirstLaunch(c, t, defaults) == (c, t)
  {
  }

  // ---------------------------------------------------------------------
  // A session

  /** Clicking an unselected checkbox selects it and unselects the other
      half of its pair; every other checkbox keeps its selection. */
  lemma ClickSelects(scope: Scope, cbs: Checkboxes, a: Action)
    requires HasNamedKeys(scope, cbs) && a in cbs && !cbs[a].selected
    ensures var r := Click(scope, cbs, a);
      && r.Keys == cbs.Keys
      && forall b :: b in r ==> (r[b].selected <==> b == a || (cbs[b].selected && PartnerOf(a) != Some(b)))
  {
    var r := Click(scope, cbs, a);
    ClickFlipsTarget(scope, cbs, a);
    forall b | b in r
      ensures r[b].selected <==> b == a || (cbs[b].selected && PartnerOf(a) != Some(b))
    {
      if b != a {
        ClickElsewhere(scope, cbs, a, b);
      }
    }
  }

  /** Whether exactly activate and reformatChangedCode are selected. */
  predicate OnlyActivateAndChangedCode(cbs: Checkboxes) {
    forall a :: a in cbs ==> (cbs[a].selected <==> a == activate || a == reformatChangedCode)
  }

  /** Storage selects activate and reformat; a click on reformatChangedCode
      unselects reformat and makes the working copy modified. */
  lemma ReformatSessionClick(built: Checkboxes)
    requires WellKeyed(Project, built)
    ensures
      var s := Stored(false, {activate, reformat}, {}, {}, [], None);
      var w0 := Reset(Project, Working(built, {}, {}, [], None), s);
      var w1 := w0.(checkboxes := Click(Project, w0.checkboxes, reformatChangedCode));
      && !Modified(w0, s)
      && w1.checkboxes.Keys == built.Keys
      && OnlyActivateAndChangedCode(w1.checkboxes)
      && Modified(w1, s)
  {
    var s := Stored(false, {activate, reformat}, {}, {}, [], None);
    var w := Working(built, {}, {}, [], None);
    var w0 := Reset(Project, w, s);
    ResetLoadsStorage(Project, w, s);
    ResetIsClean(Project, w, s);
    LoadedThenClicked(w0.checkboxes, {activate, reformat}, reformatChangedCode);
  }

  /** The selection arithmetic of the session above. */
  lemma LoadedThenClicked(c0: Checkboxes, sel: set<Action>, a: Action)
    requires WellKeyed(Project, c0)
    requires sel == {activate, reformat} && a == reformatChangedCode
    requires forall b :: b in c0 ==> (c0[b].selected <==> b in sel)
    ensures var c1 := Click(Project, c0, a);
      && c1.Keys == c0.Keys
      && OnlyActivateAndChangedCode(c1)
      && c1[a].selected != (a in sel)
  {
    assert !c0[a].selected;
    ClickSelects(Project, c0, a);
  }

  /** Applying that working copy (no external profile) stores the new
      choice and leaves the working copy clean. */
  lemma ReformatSessionApply(lookup: ProfileLookup, w1: Working)
    requires WellKeyed(Project, w1.checkboxes)
    requires OnlyActivateAndChangedCode(w1.checkboxes)
    requires w1.path.None? && lookup(None, {activate, reformatChangedCode}).None?
    ensures var s := Stored(false, {activate, reformat}, {}, {}, [], None);
      var t := Written(w1, s);
      && t.actions == {activate, reformatChangedCode}
      && !Modified(Applied(Project, w1, s, lookup), t)
  {
    var s := Stored(false, {activate, reformat}, {}, {}, [], None);
    forall a ensures a in Written(w1, s).actions <==> a in {activate, reformatChangedCode} {
      KeySetByScope(a);
    }
    assert Written(w1, s).actions == {activate, reformatChangedCode};
    AppliedWithoutProfileIsClean(Project, w1, s, lookup);
  }
}
