/**
 * The persisted settings of one scope. Only the getters and setters the
 * settings UI uses are modelled; `isEnabled(a)` is taken to mean that `a` is
 * one of `getActions()`, which is how the UI reads the two interchangeably.
 */
module Store {
  import opened Wrappers
  import opened Actions

  /** The persisted record as a value. */
  datatype Stored = Stored(
    firstLaunch: bool,
    actions: set<Action>,
    exclusions: set<string>,
    inclusions: set<string>,
    quickLists: seq<string>,
    path: Option<string>)
  {
    predicate IsEnabled(a: Action) { a in actions }
  }

  class Storage {
    var firstLaunch: bool
    var actions: set<Action>
    var exclusions: set<string>
    var inclusions: set<string>
    var quickLists: seq<string>
    var configurationPath: Option<string>

    function Value(): Stored
      reads this
    {
      Stored(firstLaunch, actions, exclusions, inclusions, quickLists, configurationPath)
    }

    constructor (initial: Stored)
      ensures Value() == initial
    {
      firstLaunch := initial.firstLaunch;
      actions := initial.actions;
      exclusions := initial.exclusions;
      inclusions := initial.inclusions;
      quickLists := initial.quickLists;
      configurationPath := initial.path;
    }

    /** `isEnabled(a)`, read through the stored record. */
    predicate IsEnabled(a: Action)
      reads this
    {
      Value().IsEnabled(a)
    }

    method StopFirstLaunch()
      modifies this
      ensures Value() == old(Value()).(firstLaunch := false)
    {
      firstLaunch := false;
    }

    method SetEnabled(a: Action, on: bool)
      modifies this
      ensures Value() == old(Value()).(actions := if on then old(actions) + {a} else old(actions) - {a})
      ensures IsEnabled(a) == on
    {
      actions := if on then actions + {a} else actions - {a};
    }

    method SetExclusions(masks: set<string>)
      modifies this
      ensures Value() == old(Value()).(exclusions := masks)
    {
      exclusions := masks;
    }

    method SetInclusions(masks: set<string>)
      modifies this
      ensures Value() == old(Value()).(inclusions := masks)
    {
      inclusions := masks;
    }

    method SetQuickLists(ids: seq<string>)
      modifies this
      ensures Value() == old(Value()).(quickLists := ids)
    {
      quickLists := ids;
    }

    method SetConfigurationPath(p: Option<string>)
      modifies this
      ensures Value() == old(Value()).(path := p)
    {
      configurationPath := p;
    }
  }
}
