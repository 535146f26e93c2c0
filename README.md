# Save-actions settings page, modelled in Dafny

This project models the settings reconciler of the save-actions IDE plugin
(`com.dubreuia.ui.Configuration`). The page keeps an editable working copy of
the plugin's settings:

- one checkbox per save action, holding a `selected` flag and an `enabled` flag;
- the exclusion and inclusion file-mask sets;
- the ordered quick lists;
- the path of an external settings profile, shown by the IDE-support panel.

The page reconciles that working copy with the persisted `Storage` of its
scope (one IDE-wide scope, or one scope per project).

Modules:

- `Wrappers`: `Option`.
- `Actions`: the `Action` enumeration, its ordinal order (the order in which an
  `EnumMap` iterates), the three activation actions and the two exclusive pairs.
- `Store`: the persisted record as a value (`Stored`) and the `Storage` class
  with the getters and setters the page uses.
- `Rules`: the reconciler's rules as functions on values. These say which
  checkboxes a scope has, how a selection is loaded, how enablement is derived,
  and how the pairs react to a click. They also say what `apply` writes,
  what it previews, and what `isModified` compares.
- `Properties`: lemmas about those rules. These cover the enablement rule,
  the exclusive pairs, and reset leaving the copy clean. They also cover what
  apply writes and when it leaves the copy dirty, the first-launch switch,
  and a short click-then-apply session.
- `Ui`: the class `Configuration`. It holds the checkbox map, the three
  collections and the panel path as fields. Each of its methods, loops
  included, is proved to produce exactly the state the `Rules` functions
  describe.

The iteration order of the Java `EnumMap` is modelled by looping over
`Actions.Values` (ordinal order) and skipping actions that have no checkbox.

## Model

| member | source | states |
|---|---|---|
| `Ui.Configuration.constructor` | src/main/java/com/dubreuia/ui/Configuration.java:43-46 | the page starts with no checkboxes, empty collections, no path, and the storage of its scope |
| `Ui.Configuration.CreateComponent` | src/main/java/com/dubreuia/ui/Configuration.java:50-55 | after building the page, the checkboxes and storage are the first-launch switch applied to fresh checkboxes for the scope's key set; the collections are untouched |
| `Ui.Configuration.InitComponent` | src/main/java/com/dubreuia/ui/Configuration.java:138-144 | the page now exists and holds exactly one fresh (unselected, enabled) checkbox per action of the scope's key set |
| `Ui.Configuration.CreateCheckboxes` | src/main/java/com/dubreuia/ui/Configuration.java:139-144 | the loop over `Action.values()` leaves the map equal to the scope's key set, each entry a fresh checkbox |
| `Rules.KeySetByScope` | src/main/java/com/dubreuia/ui/Configuration.java:139-144 | GLOBAL scope has a checkbox for every action except `useGlobalConfiguration`; PROJECT scope has one for every action |
| `Rules.WellKeyedHasNamedKeys` | src/main/java/com/dubreuia/ui/Configuration.java:139-144 | in either scope, every checkbox the enablement and exclusion code looks up exists |
| `Ui.Configuration.InitFirstLaunch` | src/main/java/com/dubreuia/ui/Configuration.java:57-62 | checkboxes and storage become the first-launch switch of the old ones |
| `Properties.FirstLaunchHappensOnce` | src/main/java/com/dubreuia/ui/Configuration.java:57-62 | on a first launch each checkbox is selected iff its action is a default, enabled flags are kept, and the flag is cleared with nothing else in storage changed; otherwise nothing changes; a second run is a no-op |
| `Ui.Configuration.IsModified` | src/main/java/com/dubreuia/ui/Configuration.java:71-84 | the result is true iff one of these holds: some checkbox's selection differs from storage; storage has a path other than the panel's; one of the three collections differs. It changes nothing |
| `Properties.AbsentStoredPathIgnored` | src/main/java/com/dubreuia/ui/Configuration.java:77-80 | when storage has no path, the panel's path never affects the dirty check |
| `Ui.Configuration.Apply` | src/main/java/com/dubreuia/ui/Configuration.java:87-98 | storage becomes the working copy as it was before the call; the working copy becomes the preview of the profile at the panel's path, falling back to what was just written |
| `Ui.Configuration.WriteCheckboxes` | src/main/java/com/dubreuia/ui/Configuration.java:88-90 | each action with a checkbox is stored enabled iff its checkbox is selected; the other actions and every other stored field are kept |
| `Ui.Configuration.WritePanels` | src/main/java/com/dubreuia/ui/Configuration.java:91-94 | storage takes the three collections and the panel's path; nothing else changes |
| `Properties.WrittenMatchesWorking` | src/main/java/com/dubreuia/ui/Configuration.java:87-94 | after the writes, storage agrees with every checkbox, keeps the flags of actions without one, holds the collections and the path, keeps the first-launch flag, and the copy is not modified against it |
| `Properties.AppliedDirtyExactlyOnProfileDifference` | src/main/java/com/dubreuia/ui/Configuration.java:95-98 | after apply the copy is modified against storage iff the previewed profile selects some checkbox's action differently from storage |
| `Properties.AppliedWithoutProfileIsClean` | src/main/java/com/dubreuia/ui/Configuration.java:95-98 | when no profile is found at the panel's path, the copy is clean after apply |
| `Properties.NullEventKeepsSelection` | src/main/java/com/dubreuia/ui/Configuration.java:253-256 | the null event that reset and apply pass changes no selection |
| `Ui.Configuration.Reset` | src/main/java/com/dubreuia/ui/Configuration.java:101-108 | the working copy becomes the storage-loaded copy of the rules, and storage is unchanged |
| `Ui.Configuration.Reselect` | src/main/java/com/dubreuia/ui/Configuration.java:102-103 | selecting from a set and then running the listener with the null event gives the listener's result on the reselected checkboxes |
| `Properties.ResetLoadsStorage` | src/main/java/com/dubreuia/ui/Configuration.java:101-108 | after reset, each checkbox is selected iff storage enables its action; the collections and the path equal storage's; the key set is kept |
| `Properties.ResetIsClean` | src/main/java/com/dubreuia/ui/Configuration.java:101-108 | right after reset the copy is not modified |
| `Properties.ResetMayLoadBothHalves` | src/main/java/com/dubreuia/ui/Configuration.java:101-108 | reset selects both halves of a pair when storage enables both: pairs are kept apart only on clicks |
| `Ui.Configuration.UpdateSelectedStateOfCheckboxes` | src/main/java/com/dubreuia/ui/Configuration.java:110-115 | each checkbox is selected iff its action is in the given set; enabled flags and the key set are kept |
| `Ui.Configuration.DisposeUIResources` | src/main/java/com/dubreuia/ui/Configuration.java:118-130 | the checkboxes and the collections are emptied, the path is dropped, and the page no longer exists |
| `Ui.Configuration.EditInPanels` | src/main/java/com/dubreuia/ui/Configuration.java:147-151 | a user edit in the panels, which share the collections and the path, replaces them and leaves the checkboxes alone |
| `Ui.Configuration.UpdateExclusions` | src/main/java/com/dubreuia/ui/Configuration.java:211-215 | after clear-then-add, the exclusions equal storage's |
| `Ui.Configuration.UpdateInclusions` | src/main/java/com/dubreuia/ui/Configuration.java:205-209 | after clear-then-add, the inclusions equal storage's |
| `Ui.Configuration.UpdateQuickLists` | src/main/java/com/dubreuia/ui/Configuration.java:217-221 | after clear-then-add, the quick lists equal storage's, in order |
| `Ui.Configuration.UpdateCheckboxEnabled` | src/main/java/com/dubreuia/ui/Configuration.java:223-227 | the three steps of the listener leave the checkboxes as the per-checkbox listener rule gives them |
| `Properties.ListenerSteps` | src/main/java/com/dubreuia/ui/Configuration.java:223-265 | enablement, then the reformat pair, then the static-access pair equals the per-checkbox rule: each checkbox gets the rule's enabled flag; it is unselected only when it is the partner of the selected event source |
| `Properties.ListenerStepsAt` | src/main/java/com/dubreuia/ui/Configuration.java:223-265 | the same, for one checkbox |
| `Ui.Configuration.UpdateCheckboxEnabledIfActiveSelected` | src/main/java/com/dubreuia/ui/Configuration.java:229-243 | every checkbox gets the enabled flag of the enablement rule; selections are kept |
| `Ui.Configuration.SetEnabledFlags` | src/main/java/com/dubreuia/ui/Configuration.java:230-242 | the loop skips the scope switch, enables the activations iff the options are editable, and enables the rest iff they are editable and an activation is selected |
| `Properties.EnablementRule` | src/main/java/com/dubreuia/ui/Configuration.java:229-243 | after the listener, the scope switch keeps its flag, the activations are enabled iff `isEnabled()`, and every other action is enabled iff `isEnabled()` and an activation is selected |
| `Properties.DeferringProjectLocksOptions` | src/main/java/com/dubreuia/ui/Configuration.java:229-243 | a project that uses the global settings disables every checkbox but the switch; GLOBAL scope has no switch and is always editable |
| `Properties.ActivationGatesOptions` | src/main/java/com/dubreuia/ui/Configuration.java:239-241 | with no activation selected, every option other than the activations and the switch is disabled |
| `Actions.GroupsArePartners` | src/main/java/com/dubreuia/ui/Configuration.java:245-251 | the two groups, read either way, are exactly the partner relation, and no action is its own partner |
| `Ui.Configuration.UpdateCheckboxGroupExclusive` | src/main/java/com/dubreuia/ui/Configuration.java:253-265 | when the event source is selected and is one half of the pair, the other half is unselected; otherwise nothing changes |
| `Properties.ExclusiveAt` | src/main/java/com/dubreuia/ui/Configuration.java:253-265 | one pair step changes only the selection of the selected source's partner, and only to false |
| `Ui.Configuration.Toggle` | src/main/java/com/dubreuia/ui/Configuration.java:223-227 | a click on an enabled checkbox (a disabled one ignores clicks) flips it, then the listener runs with it as the source |
| `Properties.DeferringProjectRefusesClicks` | src/main/java/com/dubreuia/ui/Configuration.java:229-243 | a click that selects a project's scope switch disables every other checkbox, so only the switch still takes clicks |
| `Properties.ClickFlipsTarget` | src/main/java/com/dubreuia/ui/Configuration.java:253-265 | a click flips the selection of the clicked checkbox |
| `Properties.ClickElsewhere` | src/main/java/com/dubreuia/ui/Configuration.java:253-265 | any other checkbox keeps its selection, unless it is the partner of a checkbox the click has just selected; then it is unselected |
| `Properties.ClickKeepsPairsApart` | src/main/java/com/dubreuia/ui/Configuration.java:253-265 | a click on one half of a pair leaves the pair apart; a click elsewhere keeps an apart pair apart |
| `Properties.SecondClickWins` | src/main/java/com/dubreuia/ui/Configuration.java:253-265 | selecting both halves of a pair one after the other leaves only the second selected |
| `Properties.ClickSelects` | src/main/java/com/dubreuia/ui/Configuration.java:253-265 | clicking an unselected checkbox selects it, unselects its partner, and keeps every other selection |
| `Properties.LoadedThenClicked` | src/main/java/com/dubreuia/ui/Configuration.java:258-263 | with activate and reformat loaded, a click on reformatChangedCode leaves exactly activate and reformatChangedCode selected |
| `Properties.ReformatSessionClick` | src/main/java/com/dubreuia/ui/Configuration.java:71-108 | a reset copy is clean; after the click it is modified and selects exactly activate and reformatChangedCode |
| `Properties.ReformatSessionApply` | src/main/java/com/dubreuia/ui/Configuration.java:87-98 | applying that copy with no profile stores exactly activate and reformatChangedCode and leaves the copy clean |
| `Ui.Configuration.IsEnabled` | src/main/java/com/dubreuia/ui/Configuration.java:267-269 | always true in GLOBAL scope; in PROJECT scope true iff `useGlobalConfiguration` is unselected |
| `Ui.Configuration.IsActiveSelected` | src/main/java/com/dubreuia/ui/Configuration.java:271-276 | true iff some activation checkbox is selected |
| `Store.Storage.StopFirstLaunch` | src/main/java/com/dubreuia/ui/Configuration.java:60 | only the first-launch flag changes, to false |
| `Store.Storage.SetEnabled` | src/main/java/com/dubreuia/ui/Configuration.java:89 | the action is enabled afterwards iff `on`; nothing else changes |
| `Store.Storage.SetExclusions` | src/main/java/com/dubreuia/ui/Configuration.java:91 | only the stored exclusions change, to the given masks |
| `Store.Storage.SetInclusions` | src/main/java/com/dubreuia/ui/Configuration.java:92 | only the stored inclusions change, to the given masks |
| `Store.Storage.SetQuickLists` | src/main/java/com/dubreuia/ui/Configuration.java:93 | only the stored quick lists change, to the given sequence |
| `Store.Storage.SetConfigurationPath` | src/main/java/com/dubreuia/ui/Configuration.java:94 | only the stored path changes, to the given one |

## Left out

- Swing layout and panel construction are left out: `initRootPanel`, the `BOX_LAYOUT_*` constants, and the panel objects `initComponent` builds. They are UI geometry with nothing to state.
- `initActionListeners` is left out. `Ui.Configuration.Toggle` plays a click and calls the listener directly.
- `getHelpTopic` is left out; it only returns null.
- The panels' own `update(...)` calls are left out. They only refresh what the panels display.
- The internals of `Storage` are not part of this model. Its getters and setters are fields and assignments. `isEnabled(a)` is taken to mean that `a` is in `getActions()`.
- `Action.getDefaults()` is the parameter `defaults` of `CreateComponent`.
- Only the nine `Action` constants the page names are modelled. Any further constant would behave like `noActionIfCompileErrors`.
- `EpfStorage.getStorageOrDefault(path, storage)` is the parameter `lookup`. Given the path and the fallback storage's actions, it gives the profile's action set, or none. `Rules.ProfileOrDefault` then falls back to storage's actions.
- `IdeSupportPanel` is reduced to the path it shows. The path it shows once built is the parameter `shownPath`.
- The defensive copies that `apply` hands to storage are values here, so copying is implicit.
- An action event is an optional source action; `None` is the null event. Events whose source is not one of the page's checkboxes are not modelled, since the listener is only registered on them.
- Calls made before `createComponent` or after `disposeUIResources` would dereference null panels in the source. The model instead requires the page to exist (`created`) for every operation that touches the panels.
- `Ui.Configuration.UpdateCheckboxEnabledIfActiveSelected` asks `isEnabled()` and `isActiveSelected()` once, not on every iteration. The loop changes only enabled flags and both queries read only selections, so the answers are the same.
- The exclusive pairs are enforced only when a checkbox is clicked. `reset` and `apply` can load both halves selected, as `Properties.ResetMayLoadBothHalves` shows, so "the pairs are never both selected" is not stated as an invariant.
- Threading (the Swing event thread) and the IDE's settings framework, which decides when these methods are called, are left out.
