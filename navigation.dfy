/** The four presentation bindings that the `Navigation` container builds in its
    initializer (Sources/Navigation/Navigation.swift). Each one says whether an
    alert or a confirmation dialog is shown over the root view or inside the
    sheet. Writing `false` to a binding clears the matching slot, and writing
    `true` does nothing. The getters are functions of the navigator's state.
    The setters are a pure function per slot plus one method per binding that
    writes through a reference to the navigator, as the Swift closures do. */
module Navigation {
  import opened Wrappers
  import opened Navigator

  /** Where an overlay is shown: not at all, over the root view, or inside the sheet. */
  datatype Placement = Hidden | AtRoot | InSheet

  /** The placement rule: an overlay is attached to the sheet when a sheet is
      showing and to the root view otherwise. */
  function PlacementOf(present: bool, sheetShown: bool): Placement
  {
    if !present then Hidden else if sheetShown then InSheet else AtRoot
  }

  function AlertPlacement<Route, View, Callback>(s: NavState<Route, View, Callback>): Placement
  {
    PlacementOf(s.alert.Some?, s.sheet.Some?)
  }

  function ConfirmPlacement<Route, View, Callback>(s: NavState<Route, View, Callback>): Placement
  {
    PlacementOf(s.confirmDialog.Some?, s.sheet.Some?)
  }

  // ---------------------------------------------------------------------------
  // Getters
  // ---------------------------------------------------------------------------

  /** `isAppAlertPresented`: alert present and no sheet. */
  function IsAppAlertPresented<Route, View, Callback>(s: NavState<Route, View, Callback>): (b: bool)
    ensures b <==> AlertPlacement(s) == AtRoot
  {
    s.alert.Some? && s.sheet.None?
  }

  /** `isSheetAlertPresented`: alert present and a sheet present. */
  function IsSheetAlertPresented<Route, View, Callback>(s: NavState<Route, View, Callback>): (b: bool)
    ensures b <==> AlertPlacement(s) == InSheet
  {
    s.alert.Some? && s.sheet.Some?
  }

  /** `isAppConfirmPresented`: dialog present and no sheet. */
  function IsAppConfirmPresented<Route, View, Callback>(s: NavState<Route, View, Callback>): (b: bool)
    ensures b <==> ConfirmPlacement(s) == AtRoot
  {
    s.confirmDialog.Some? && s.sheet.None?
  }

  /** `isSheetConfirmPresented` as written: both operands of the conjunction test
      the dialog slot, so the sheet slot is never consulted and the binding holds
      whenever a dialog is present, over the root view as well. */
  function IsSheetConfirmPresented<Route, View, Callback>(s: NavState<Route, View, Callback>): (b: bool)
    ensures b <==> ConfirmPlacement(s) != Hidden
  {
    s.confirmDialog.Some? && s.confirmDialog.Some?
  }

  /** The in-sheet dialog binding as the alert bindings evidently intend it:
      dialog present and a sheet present. */
  function IsSheetConfirmPresentedIntended<Route, View, Callback>(s: NavState<Route, View, Callback>): (b: bool)
    ensures b <==> ConfirmPlacement(s) == InSheet
  {
    s.confirmDialog.Some? && s.sheet.Some?
  }

  /** An existing alert is bound in exactly one context, and a missing alert in none. */
  lemma AlertBindingsPartition<Route, View, Callback>(s: NavState<Route, View, Callback>)
    ensures s.alert.Some? ==> IsAppAlertPresented(s) != IsSheetAlertPresented(s)
    ensures s.alert.None? ==> !IsAppAlertPresented(s) && !IsSheetAlertPresented(s)
  {
  }

  /** With the corrected in-sheet binding, dialogs follow the same pattern as alerts. */
  lemma ConfirmBindingsPartitionIntended<Route, View, Callback>(s: NavState<Route, View, Callback>)
    ensures s.confirmDialog.Some? ==> IsAppConfirmPresented(s) != IsSheetConfirmPresentedIntended(s)
    ensures s.confirmDialog.None? ==> !IsAppConfirmPresented(s) && !IsSheetConfirmPresentedIntended(s)
  {
  }

  /** As written, a dialog shown over the root view with no sheet makes both
      dialog bindings true. This is the state that shows the overlap. */
  lemma ConfirmBindingsOverlap<Route, View, Callback>(path: seq<Route>, d: ConfirmDialogRequest<View>)
    ensures var s: NavState<Route, View, Callback> := NavState(path, None, None, Some(d));
            IsAppConfirmPresented(s) && IsSheetConfirmPresented(s) &&
            !IsSheetConfirmPresentedIntended(s)
  {
  }

  // ---------------------------------------------------------------------------
  // Setters
  // ---------------------------------------------------------------------------

  /** What writing `newValue` to either alert binding does to the navigator. */
  function AlertBindingSet<Route, View, Callback>(s: NavState<Route, View, Callback>, newValue: bool): (r: NavState<Route, View, Callback>)
    ensures newValue ==> r == s
    ensures !newValue ==> !IsAppAlertPresented(r) && !IsSheetAlertPresented(r)
    ensures r.path == s.path && r.sheet == s.sheet && r.confirmDialog == s.confirmDialog
  {
    if newValue == false then s.(alert := None) else s
  }

  /** What writing `newValue` to either dialog binding does to the navigator. */
  function ConfirmBindingSet<Route, View, Callback>(s: NavState<Route, View, Callback>, newValue: bool): (r: NavState<Route, View, Callback>)
    ensures newValue ==> r == s
    ensures !newValue ==> !IsAppConfirmPresented(r) && !IsSheetConfirmPresented(r)
    ensures !newValue ==> !IsSheetConfirmPresentedIntended(r)
    ensures r.path == s.path && r.alert == s.alert && r.sheet == s.sheet
  {
    if newValue == false then s.(confirmDialog := None) else s
  }

  /** Writing `false` to a binding while it shows its overlay closes that overlay
      exactly as `dismiss` would when nothing of higher precedence is showing. */
  lemma ClearingAgreesWithDismiss<Route, View, Callback>(s: NavState<Route, View, Callback>)
    ensures s.alert.Some? ==> AlertBindingSet(s, false) == Dismissed(s)
    ensures s.alert.None? && s.confirmDialog.Some? ==> ConfirmBindingSet(s, false) == Dismissed(s)
  {
  }

  /** The `set` closure of `isAppAlertPresented`. */
  method SetAppAlertPresented<Route, View, Callback>(navigator: Navigator<Route, View, Callback>, newValue: bool)
    requires navigator.Valid()
    modifies navigator
    ensures navigator.Valid() && navigator.nextId == old(navigator.nextId)
    ensures navigator.State() == AlertBindingSet(old(navigator.State()), newValue)
  {
    if newValue == false {
      navigator.alert := None;
    }
  }

  /** The `set` closure of `isSheetAlertPresented`. */
  method SetSheetAlertPresented<Route, View, Callback>(navigator: Navigator<Route, View, Callback>, newValue: bool)
    requires navigator.Valid()
    modifies navigator
    ensures navigator.Valid() && navigator.nextId == old(navigator.nextId)
    ensures navigator.State() == AlertBindingSet(old(navigator.State()), newValue)
  {
    if newValue == false {
      navigator.alert := None;
    }
  }

  /** The `set` closure of `isAppConfirmPresented`. */
  method SetAppConfirmPresented<Route, View, Callback>(navigator: Navigator<Route, View, Callback>, newValue: bool)
    requires navigator.Valid()
    modifies navigator
    ensures navigator.Valid() && navigator.nextId == old(navigator.nextId)
    ensures navigator.State() == ConfirmBindingSet(old(navigator.State()), newValue)
  {
    if newValue == false {
      navigator.confirmDialog := None;
    }
  }

  /** The `set` closure of `isSheetConfirmPresented`. */
  method SetSheetConfirmPresented<Route, View, Callback>(navigator: Navigator<Route, View, Callback>, newValue: bool)
    requires navigator.Valid()
    modifies navigator
    ensures navigator.Valid() && navigator.nextId == old(navigator.nextId)
    ensures navigator.State() == ConfirmBindingSet(old(navigator.State()), newValue)
  {
    if newValue == false {
      navigator.confirmDialog := None;
    }
  }
}
