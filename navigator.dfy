/** The navigator of Sources/Navigation/Navigator.swift: a navigation path stack
    and three single-occupancy overlay slots (alert, sheet, confirmation dialog).

    Routes, view payloads (`AnyView`) and sheet callbacks are opaque type
    parameters: the navigator stores them and never inspects them. `UUID()` is
    replaced by a fresh-id supply, the counter `nextId` of the class. */
module Navigator {
  import opened Wrappers

  /** An alert request: a fresh id, a title, and opaque message and actions views. */
  datatype AlertRequest<View> = AlertRequest(id: nat, title: string, message: View, actions: View)

  /** A sheet request: a fresh id, opaque content and an optional dismissal callback. */
  datatype SheetRequest<View, Callback> = SheetRequest(id: nat, content: View, onDismiss: Option<Callback>)

  /** A confirmation dialog request: a fresh id, a title, and opaque message and actions views. */
  datatype ConfirmDialogRequest<View> = ConfirmDialogRequest(id: nat, title: string, message: View, actions: View)

  /** The four published components of a navigator, as one value. */
  datatype NavState<Route, View, Callback> = NavState(
    path: seq<Route>,
    alert: Option<AlertRequest<View>>,
    sheet: Option<SheetRequest<View, Callback>>,
    confirmDialog: Option<ConfirmDialogRequest<View>>)

  // ---------------------------------------------------------------------------
  // Transitions, one per operation of the class
  // ---------------------------------------------------------------------------

  /** The state a navigator is created in: the given path, no overlay. */
  function Initial<Route, View, Callback>(path: seq<Route>): (r: NavState<Route, View, Callback>)
    ensures r.path == path && Depth(r) == |path|
  {
    NavState(path, None, None, None)
  }

  /** `append`: push one route. */
  function Appended<Route, View, Callback>(s: NavState<Route, View, Callback>, value: Route): (r: NavState<Route, View, Callback>)
    ensures |r.path| == |s.path| + 1 && r.path[|s.path|] == value
    ensures r.path[..|s.path|] == s.path
    ensures SameOverlays(s, r)
    ensures Depth(r) == Depth(s) + 1
  {
    s.(path := s.path + [value])
  }

  /** `removeLast(count)`: drop the last `count` routes. */
  function WithoutLast<Route, View, Callback>(s: NavState<Route, View, Callback>, count: nat): (r: NavState<Route, View, Callback>)
    requires count <= |s.path|
    ensures |r.path| == |s.path| - count
    ensures r.path == s.path[..|r.path|]
    ensures SameOverlays(s, r)
  {
    s.(path := s.path[..|s.path| - count])
  }

  /** `popToRoot`: empty path and no overlay, whatever came before. */
  function PoppedToRoot<Route, View, Callback>(s: NavState<Route, View, Callback>): (r: NavState<Route, View, Callback>)
    ensures Depth(r) == 0
  {
    NavState([], None, None, None)
  }

  /** `alert(title:message:actions:)`: install `a`, replacing any previous alert. */
  function WithAlert<Route, View, Callback>(s: NavState<Route, View, Callback>, a: AlertRequest<View>): (r: NavState<Route, View, Callback>)
    ensures r.alert == Some(a)
    ensures r.path == s.path && r.sheet == s.sheet && r.confirmDialog == s.confirmDialog
  {
    s.(alert := Some(a))
  }

  /** `sheet(content:onDismiss:)`: install `sh`, replacing any previous sheet. */
  function WithSheet<Route, View, Callback>(s: NavState<Route, View, Callback>, sh: SheetRequest<View, Callback>): (r: NavState<Route, View, Callback>)
    ensures r.sheet == Some(sh)
    ensures r.path == s.path && r.alert == s.alert && r.confirmDialog == s.confirmDialog
  {
    s.(sheet := Some(sh))
  }

  /** `confirmDialog(title:message:actions:)`: install `d`, replacing any previous dialog. */
  function WithConfirmDialog<Route, View, Callback>(s: NavState<Route, View, Callback>, d: ConfirmDialogRequest<View>): (r: NavState<Route, View, Callback>)
    ensures r.confirmDialog == Some(d)
    ensures r.path == s.path && r.alert == s.alert && r.sheet == s.sheet
  {
    s.(confirmDialog := Some(d))
  }

  /** There is something for `dismiss` to close: an overlay or a route. Without
      one, `dismiss` would call `removeLast()` on an empty path. */
  predicate CanDismiss<Route, View, Callback>(s: NavState<Route, View, Callback>)
  {
    s.alert.Some? || s.confirmDialog.Some? || s.sheet.Some? || |s.path| > 0
  }

  /** `dismiss`: close the alert, else the dialog, else the sheet, else the top route. */
  function Dismissed<Route, View, Callback>(s: NavState<Route, View, Callback>): (r: NavState<Route, View, Callback>)
    requires CanDismiss(s)
    ensures Depth(r) + 1 == Depth(s)
    ensures Narrows(s, r) && |r.path| + 1 >= |s.path|
    ensures ChangedParts(s, r) == 1
  {
    if s.alert.Some? then s.(alert := None)
    else if s.confirmDialog.Some? then s.(confirmDialog := None)
    else if s.sheet.Some? then s.(sheet := None)
    else WithoutLast(s, 1)
  }

  // ---------------------------------------------------------------------------
  // Measures and relations used to state what the transitions promise
  // ---------------------------------------------------------------------------

  /** The number of things `dismiss` can close: the routes plus the occupied slots. */
  function Depth<Route, View, Callback>(s: NavState<Route, View, Callback>): (d: nat)
    ensures d == 0 <==> s == NavState([], None, None, None)
    ensures CanDismiss(s) <==> d > 0
  {
    |s.path| + Occupancy(s.alert) + Occupancy(s.confirmDialog) + Occupancy(s.sheet)
  }

  /** The three overlay slots of `s` and `r` agree. */
  ghost predicate SameOverlays<Route, View, Callback>(s: NavState<Route, View, Callback>, r: NavState<Route, View, Callback>)
  {
    r.alert == s.alert && r.sheet == s.sheet && r.confirmDialog == s.confirmDialog
  }

  /** `r` is `s` with only things taken away: its path is a prefix of `s`'s and
      each of its slots is either `s`'s occupant or empty. */
  ghost predicate Narrows<Route, View, Callback>(s: NavState<Route, View, Callback>, r: NavState<Route, View, Callback>)
  {
    |r.path| <= |s.path| && r.path == s.path[..|r.path|] &&
    (r.alert.None? || r.alert == s.alert) &&
    (r.confirmDialog.None? || r.confirmDialog == s.confirmDialog) &&
    (r.sheet.None? || r.sheet == s.sheet)
  }

  /** How many of the four components differ between `s` and `r`. */
  ghost function ChangedParts<Route, View, Callback>(s: NavState<Route, View, Callback>, r: NavState<Route, View, Callback>): nat
  {
    (if r.path != s.path then 1 else 0) +
    (if r.alert != s.alert then 1 else 0) +
    (if r.confirmDialog != s.confirmDialog then 1 else 0) +
    (if r.sheet != s.sheet then 1 else 0)
  }

  // ---------------------------------------------------------------------------
  // Request ids: the fresh-id supply standing in for UUID()
  // ---------------------------------------------------------------------------

  /** Every live request has an id below `bound` (was issued before it). */
  ghost predicate IdsBelow<Route, View, Callback>(s: NavState<Route, View, Callback>, bound: nat)
  {
    (s.alert.Some? ==> s.alert.value.id < bound) &&
    (s.sheet.Some? ==> s.sheet.value.id < bound) &&
    (s.confirmDialog.Some? ==> s.confirmDialog.value.id < bound)
  }

  /** No two live requests share an id. */
  ghost predicate DistinctIds<Route, View, Callback>(s: NavState<Route, View, Callback>)
  {
    (s.alert.Some? && s.sheet.Some? ==> s.alert.value.id != s.sheet.value.id) &&
    (s.alert.Some? && s.confirmDialog.Some? ==> s.alert.value.id != s.confirmDialog.value.id) &&
    (s.sheet.Some? && s.confirmDialog.Some? ==> s.sheet.value.id != s.confirmDialog.value.id)
  }

  /** The ids of the live requests. */
  ghost function LiveIds<Route, View, Callback>(s: NavState<Route, View, Callback>): set<nat>
  {
    (if s.alert.Some? then {s.alert.value.id} else {}) +
    (if s.sheet.Some? then {s.sheet.value.id} else {}) +
    (if s.confirmDialog.Some? then {s.confirmDialog.value.id} else {})
  }

  // ---------------------------------------------------------------------------
  // The navigator object
  // ---------------------------------------------------------------------------

  /** The navigator: its published fields are updated in place by its methods. */
  class Navigator<Route, View, Callback> {
    var path: seq<Route>
    var alert: Option<AlertRequest<View>>
    var sheet: Option<SheetRequest<View, Callback>>
    var confirmDialog: Option<ConfirmDialogRequest<View>>
    /** The fresh-id supply: the id the next request will carry. */
    var nextId: nat

    /** The navigator's four components as one value. */
    ghost function State(): NavState<Route, View, Callback>
      reads this
    {
      NavState(path, alert, sheet, confirmDialog)
    }

    /** Ids are unique: every live request's id was issued before `nextId`, and
        no two live requests share one. */
    ghost predicate Valid()
      reads this
    {
      IdsBelow(State(), nextId) && DistinctIds(State())
    }

    /** `init(path:)` and its two convenience forms over sequences of routes;
        the default argument is the empty path. */
    constructor (initialPath: seq<Route> := [])
      ensures Valid()
      ensures State() == Initial(initialPath)
    {
      path := initialPath;
      alert := None;
      sheet := None;
      confirmDialog := None;
      nextId := 0;
    }

    method Append(value: Route)
      requires Valid()
      modifies this
      ensures Valid() && nextId == old(nextId)
      ensures State() == Appended(old(State()), value)
    {
      path := path + [value];
    }

    method RemoveLast(count: nat := 1)
      requires Valid()
      requires count <= |path|
      modifies this
      ensures Valid() && nextId == old(nextId)
      ensures State() == WithoutLast(old(State()), count)
    {
      path := path[..|path| - count];
    }

    method PopToRoot()
      requires Valid()
      modifies this
      ensures Valid() && nextId == old(nextId)
      ensures State() == PoppedToRoot(old(State()))
    {
      alert := None;
      sheet := None;
      confirmDialog := None;
      path := [];
    }

    /** `alert(title:message:actions:)`. The new alert carries a fresh id, one
        no live request had. */
    method Alert(title: string, message: View, actions: View)
      requires Valid()
      modifies this
      ensures Valid() && nextId == old(nextId) + 1
      ensures State() == WithAlert(old(State()), AlertRequest(old(nextId), title, message, actions))
      ensures old(nextId) !in LiveIds(old(State()))
    {
      alert := Some(AlertRequest(nextId, title, message, actions));
      nextId := nextId + 1;
    }

    /** `sheet(content:onDismiss:)`. The callback is stored, not called. */
    method Sheet(content: View, onDismiss: Option<Callback> := None)
      requires Valid()
      modifies this
      ensures Valid() && nextId == old(nextId) + 1
      ensures State() == WithSheet(old(State()), SheetRequest(old(nextId), content, onDismiss))
      ensures old(nextId) !in LiveIds(old(State()))
    {
      sheet := Some(SheetRequest(nextId, content, onDismiss));
      nextId := nextId + 1;
    }

    /** `confirmDialog(title:message:actions:)`. */
    method ConfirmDialog(title: string, message: View, actions: View)
      requires Valid()
      modifies this
      ensures Valid() && nextId == old(nextId) + 1
      ensures State() == WithConfirmDialog(old(State()), ConfirmDialogRequest(old(nextId), title, message, actions))
      ensures old(nextId) !in LiveIds(old(State()))
    {
      confirmDialog := Some(ConfirmDialogRequest(nextId, title, message, actions));
      nextId := nextId + 1;
    }

    /** `dismiss`: alert first, then the dialog, then the sheet, then the top route. */
    method Dismiss()
      requires Valid()
      requires CanDismiss(State())
      modifies this
      ensures Valid() && nextId == old(nextId)
      ensures State() == Dismissed(old(State()))
    {
      if alert.Some? {
        alert := None;
      } else if confirmDialog.Some? {
        confirmDialog := None;
      } else if sheet.Some? {
        sheet := None;
      } else {
        RemoveLast();
      }
    }
  }
}
