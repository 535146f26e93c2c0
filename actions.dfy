/**
 * The save actions a settings checkbox can stand for. The enumeration itself
 * lives outside the settings UI; only the constants the UI names are listed.
 * Every further constant of the real enumeration would behave like
 * `noActionIfCompileErrors`: it is neither an activation nor the scope switch
 * nor part of an exclusive pair.
 */
module Actions {
  import opened Wrappers

  datatype Action =
    | activate
    | activateOnShortcut
    | activateOnBatch
    | noActionIfCompileErrors
    | reformat
    | reformatChangedCode
    | unqualifiedStaticMemberAccess
    | customUnqualifiedStaticMemberAccess
    | useGlobalConfiguration

  /** `Action.values()`: every constant, in declaration (ordinal) order.
      An `EnumMap` iterates its entries in this order too. */
  const Values: seq<Action> := [
    activate, activateOnShortcut, activateOnBatch, noActionIfCompileErrors,
    reformat, reformatChangedCode, unqualifiedStaticMemberAccess,
    customUnqualifiedStaticMemberAccess, useGlobalConfiguration
  ]

  const All: set<Action> := {
    activate, activateOnShortcut, activateOnBatch, noActionIfCompileErrors,
    reformat, reformatChangedCode, unqualifiedStaticMemberAccess,
    customUnqualifiedStaticMemberAccess, useGlobalConfiguration
  }

  /** `Action.ordinal()`: the position of `a` in `Values`. */
  function Ordinal(a: Action): (r: nat)
    ensures r < |Values| && Values[r] == a
  {
    match a
    case activate => 0
    case activateOnShortcut => 1
    case activateOnBatch => 2
    case noActionIfCompileErrors => 3
    case reformat => 4
    case reformatChangedCode => 5
    case unqualifiedStaticMemberAccess => 6
    case customUnqualifiedStaticMemberAccess => 7
    case useGlobalConfiguration => 8
  }

  /** `Values` lists no constant twice. */
  lemma OrdinalOfValue(i: nat)
    requires i < |Values|
    ensures Ordinal(Values[i]) == i
  {
    if i == 0 {} else if i == 1 {} else if i == 2 {} else if i == 3 {}
    else if i == 4 {} else if i == 5 {} else if i == 6 {} else if i == 7 {}
  }

  lemma ValuesComplete(a: Action)
    ensures a in Values && a in All
  {
    match a
    case activate =>
    case activateOnShortcut =>
    case activateOnBatch =>
    case noActionIfCompileErrors =>
    case reformat =>
    case reformatChangedCode =>
    case unqualifiedStaticMemberAccess =>
    case customUnqualifiedStaticMemberAccess =>
    case useGlobalConfiguration =>
  }

  /** The three actions that switch the plugin on; every other option is
      only editable while one of them is selected. */
  predicate IsActivation(a: Action) {
    a == activate || a == activateOnShortcut || a == activateOnBatch
  }

  /** The two groups of which at most one member may be switched on by a click:
      reformat against reformatChangedCode, and the two static-member-access
      fixes against each other. */
  datatype Pair = Pair(first: Action, second: Action) {
    predicate Has(a: Action) { a == first || a == second }
    function Partner(a: Action): Action
      requires Has(a)
    {
      if a == first then second else first
    }
  }

  const ReformatGroup := Pair(reformat, reformatChangedCode)
  const StaticGroup := Pair(unqualifiedStaticMemberAccess, customUnqualifiedStaticMemberAccess)

  /** The other half of the exclusive pair `a` belongs to, if any: the two
      groups above, looked up by action rather than by group, which is the
      form the per-checkbox listener rule needs (`GroupsArePartners`). */
  function PartnerOf(a: Action): Option<Action> {
    match a
    case reformat => Some(reformatChangedCode)
    case reformatChangedCode => Some(reformat)
    case unqualifiedStaticMemberAccess => Some(customUnqualifiedStaticMemberAccess)
    case customUnqualifiedStaticMemberAccess => Some(unqualifiedStaticMemberAccess)
    case _ => None
  }

  /** The two groups, read either way round, are exactly the partner
      relation, and nothing is its own partner. */
  lemma GroupsArePartners(a: Action, b: Action)
    ensures (|| (ReformatGroup.Has(a) && b == ReformatGroup.Partner(a))
             || (StaticGroup.Has(a) && b == StaticGroup.Partner(a))) <==> PartnerOf(a) == Some(b)
    ensures PartnerOf(a) != Some(a)
  {
  }
}
