/** Properties of the navigator's transitions that relate several calls:
    round trips, idempotence, dismissal precedence and repeated dismissal. */
module NavigatorProperties {
  import opened Wrappers
  import opened Navigator

  // ---------------------------------------------------------------------------
  // Path operations
  // ---------------------------------------------------------------------------

  /** `removeLast(1)` undoes `append`. */
  lemma WithoutLastUndoesAppended<Route, View, Callback>(s: NavState<Route, View, Callback>, value: Route)
    ensures WithoutLast(Appended(s, value), 1) == s
  {
  }

  /** Removing `i` routes and then `j` more is removing `i + j` at once. */
  lemma WithoutLastComposes<Route, View, Callback>(s: NavState<Route, View, Callback>, i: nat, j: nat)
    requires i + j <= |s.path|
    ensures WithoutLast(WithoutLast(s, i), j) == WithoutLast(s, i + j)
  {
  }

  /** `popToRoot` is idempotent, and its result does not depend on the state it starts from. */
  lemma PoppedToRootIdempotent<Route, View, Callback>(s: NavState<Route, View, Callback>, t: NavState<Route, View, Callback>)
    ensures PoppedToRoot(PoppedToRoot(s)) == PoppedToRoot(s)
    ensures PoppedToRoot(s) == PoppedToRoot(t) == Initial([])
  {
  }

  // ---------------------------------------------------------------------------
  // Dismissal
  // ---------------------------------------------------------------------------

  /** The precedence of `dismiss`, one case per branch. */
  lemma DismissPrecedence<Route, View, Callback>(s: NavState<Route, View, Callback>)
    requires CanDismiss(s)
    ensures s.alert.Some? ==> Dismissed(s) == s.(alert := None)
    ensures s.alert.None? && s.confirmDialog.Some? ==> Dismissed(s) == s.(confirmDialog := None)
    ensures s.alert.None? && s.confirmDialog.None? && s.sheet.Some? ==> Dismissed(s) == s.(sheet := None)
    ensures s.alert.None? && s.confirmDialog.None? && s.sheet.None? ==> Dismissed(s) == WithoutLast(s, 1)
  {
  }

  /** Presenting an alert into an empty alert slot and dismissing gives back the
      state before; over an existing alert, dismissing leaves no alert at all. */
  lemma DismissUndoesAlert<Route, View, Callback>(s: NavState<Route, View, Callback>, a: AlertRequest<View>)
    ensures Dismissed(WithAlert(s, a)) == s.(alert := None)
    ensures s.alert.None? ==> Dismissed(WithAlert(s, a)) == s
  {
  }

  /** A dialog presented with no alert showing is what the next `dismiss` closes. */
  lemma DismissUndoesConfirmDialog<Route, View, Callback>(s: NavState<Route, View, Callback>, d: ConfirmDialogRequest<View>)
    requires s.alert.None?
    ensures Dismissed(WithConfirmDialog(s, d)) == s.(confirmDialog := None)
    ensures s.confirmDialog.None? ==> Dismissed(WithConfirmDialog(s, d)) == s
  {
  }

  /** A sheet presented with no alert or dialog showing is what the next `dismiss` closes. */
  lemma DismissUndoesSheet<Route, View, Callback>(s: NavState<Route, View, Callback>, sh: SheetRequest<View, Callback>)
    requires s.alert.None? && s.confirmDialog.None?
    ensures Dismissed(WithSheet(s, sh)) == s.(sheet := None)
    ensures s.sheet.None? ==> Dismissed(WithSheet(s, sh)) == s
  {
  }

  /** `dismiss` called `n` times in a row. */
  function DismissedTimes<Route, View, Callback>(s: NavState<Route, View, Callback>, n: nat): (r: NavState<Route, View, Callback>)
    requires n <= Depth(s)
    ensures Depth(r) == Depth(s) - n
    ensures Narrows(s, r)
    decreases n
  {
    if n == 0 then s else DismissedTimes(Dismissed(s), n - 1)
  }

  /** Where `n` dismissals leave `s`, stated without iterating: the first
      dismissals clear the alert, the next the dialog, the next the sheet, and
      the rest pop routes from the top of the path. */
  function Unwound<Route, View, Callback>(s: NavState<Route, View, Callback>, n: nat): NavState<Route, View, Callback>
    requires n <= Depth(s)
  {
    var a := Occupancy(s.alert);
    var c := a + Occupancy(s.confirmDialog);
    var h := c + Occupancy(s.sheet);
    NavState(
      if n <= h then s.path else s.path[..|s.path| - (n - h)],
      if a <= n then None else s.alert,
      if h <= n then None else s.sheet,
      if c <= n then None else s.confirmDialog)
  }

  /** One dismissal followed by `n - 1` more unwinds as far as `n` from the start. */
  lemma UnwoundStep<Route, View, Callback>(s: NavState<Route, View, Callback>, n: nat)
    requires 1 <= n <= Depth(s)
    ensures Unwound(Dismissed(s), n - 1) == Unwound(s, n)
  {
  }

  /** Repeated dismissal follows the precedence order: the iterated `dismiss`
      agrees with the closed form at every count. */
  lemma {:induction false} DismissedTimesIsUnwound<Route, View, Callback>(s: NavState<Route, View, Callback>, n: nat)
    requires n <= Depth(s)
    ensures DismissedTimes(s, n) == Unwound(s, n)
    decreases n
  {
    if n == 0 {
      assert Unwound(s, 0) == s;
    } else {
      DismissedTimesIsUnwound(Dismissed(s), n - 1);
      UnwoundStep(s, n);
    }
  }

  /** Dismissing `Depth(s)` times closes every overlay and empties the path:
      exactly the state `popToRoot` produces. It follows from the contracts of
      `DismissedTimes` and `Depth`. */
  lemma DismissAllReachesRoot<Route, View, Callback>(s: NavState<Route, View, Callback>)
    ensures DismissedTimes(s, Depth(s)) == PoppedToRoot(s)
  {
  }
}
