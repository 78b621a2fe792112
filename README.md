# Navigator: a verified model of a navigation and presentation coordinator

This project models the core of the Swift package *Navigation*. The core is
the `Navigator` object. It owns a navigation path, which is a stack of routes.
It also owns three single-occupancy overlay slots: an alert, a sheet and a
confirmation dialog. Its operations are:

- `append` pushes a route and `removeLast` pops routes;
- `popToRoot` resets everything;
- `alert`, `sheet` and `confirmDialog` each install a fresh request in their own slot;
- `dismiss` closes exactly one thing, in a fixed order: the alert, else the dialog,
  else the sheet, else the top route.

The model also covers the four presentation bindings that the `Navigation`
container derives from the navigator. They decide whether an alert or dialog is
shown over the root view or inside the sheet. Writing `false` to one of them
clears its slot.

Layout:

- `wrappers.dfy`: module `Wrappers`, the `Option` type used for the slots.
- `navigator.dfy`: module `Navigator`. It holds the request records, the
  navigator state as a value (`NavState`), and one pure transition per
  operation. It also holds the class `Navigator`, whose fields are updated in
  place. Each method of the class promises `State() == F(old(State()))` for its
  transition `F`. The class also keeps its request ids unique: `Valid()` says
  every live id is below the counter `nextId` and no two live ids are equal.
- `navigator_properties.dfy`: module `NavigatorProperties`, with the laws that
  relate several calls. These are the round trips, idempotence, dismissal
  precedence, and where repeated `dismiss` ends up.
- `navigation.dfy`: module `Navigation`, with the four binding getters and
  setters.
- `navigator_clients.dfy`: module `NavigatorClients`. It replays the package's
  test scenarios against the class contracts alone.

Routes, views (`AnyView`) and sheet callbacks are opaque type parameters.
`UUID()` is modelled as a counter field that supplies fresh ids.

The model follows the code in three places:

- `removeLast(count)` forwards to `NavigationPath.removeLast`, which is not part
  of this model. The model does not assume clamping; it requires
  `count <= |path|`.
- `dismiss()` with nothing to close calls `removeLast()` on an empty path. The
  code does not make this case a no-op, so the model requires that there is
  something to dismiss (`CanDismiss`).
- `dismiss()` only empties the sheet slot; it never calls the sheet's
  `onDismiss` callback. The only call site
  (Sources/Navigation/Navigation.swift:100-102) reads the slot when the toolkit
  dismisses the sheet. The model stores the callback and makes no claim about
  whether or when it runs.

## Model

| member | source | states |
|---|---|---|
| Navigator.Navigator.constructor | Sources/Navigation/Navigator.swift:104-123 | a new navigator has the given path (empty by default) and no alert, sheet or dialog |
| Navigator.Navigator.Append | Sources/Navigation/Navigator.swift:129-131 | the new state is `Appended` of the old; ids and id supply unchanged |
| Navigator.Appended | Sources/Navigation/Navigator.swift:129-131 | the path grows by exactly one with the value last, the earlier entries and all three slots are unchanged |
| Navigator.Navigator.RemoveLast | Sources/Navigation/Navigator.swift:135-137 | the new state is `WithoutLast` of the old, for `count <= |path|` (default 1) |
| Navigator.WithoutLast | Sources/Navigation/Navigator.swift:135-137 | exactly the last `count` routes are dropped, the prefix is kept, the slots are untouched |
| NavigatorProperties.WithoutLastUndoesAppended | Sources/Navigation/Navigator.swift:129-137 | `removeLast(1)` after `append(v)` restores the state exactly |
| NavigatorProperties.WithoutLastComposes | Sources/Navigation/Navigator.swift:135-137 | removing `i` then `j` routes equals removing `i + j` |
| Navigator.Navigator.PopToRoot | Sources/Navigation/Navigator.swift:140-145 | the new state is `PoppedToRoot` of the old |
| Navigator.PoppedToRoot | Sources/Navigation/Navigator.swift:140-145 | the result has nothing left to dismiss: empty path, all three slots empty |
| NavigatorProperties.PoppedToRootIdempotent | Sources/Navigation/Navigator.swift:140-145 | `popToRoot` is idempotent and reaches the same state from any state, the state of a fresh navigator |
| Navigator.Navigator.Alert | Sources/Navigation/Navigator.swift:157-167 | installs an alert with the given title and payloads and a fresh id, distinct from every live request's id; path and the other slots unchanged |
| Navigator.WithAlert | Sources/Navigation/Navigator.swift:157-167 | the alert slot holds the new request, replacing any previous one; path, sheet and dialog unchanged |
| Navigator.Navigator.Sheet | Sources/Navigation/Navigator.swift:178-186 | installs a sheet with the given content and optional callback (stored, not called) and a fresh id; path and the other slots unchanged |
| Navigator.WithSheet | Sources/Navigation/Navigator.swift:178-186 | the sheet slot holds the new request, replacing any previous one; path, alert and dialog unchanged |
| Navigator.Navigator.ConfirmDialog | Sources/Navigation/Navigator.swift:198-208 | installs a dialog with the given title and payloads and a fresh id; path and the other slots unchanged |
| Navigator.WithConfirmDialog | Sources/Navigation/Navigator.swift:198-208 | the dialog slot holds the new request, replacing any previous one; path, alert and sheet unchanged |
| Navigator.Navigator.Dismiss | Sources/Navigation/Navigator.swift:211-221 | the new state is `Dismissed` of the old; requires something to dismiss |
| Navigator.Dismissed | Sources/Navigation/Navigator.swift:211-221 | dismiss changes exactly one of the four components, never fills a slot, keeps the path a prefix shortened by at most one, and lowers `Depth` by exactly one |
| Navigator.Depth | Sources/Navigation/Navigator.swift:211-221 | the number of things dismiss can close is zero exactly in the root state, and positive exactly when dismiss may be called |
| NavigatorProperties.DismissPrecedence | Sources/Navigation/Navigator.swift:211-221 | alert first, then dialog, then sheet, then `removeLast(1)`; each branch clears only its own component |
| NavigatorProperties.DismissUndoesAlert | Sources/Navigation/Navigator.swift:211-213 | dismiss right after presenting an alert closes that alert, and gives back the earlier state if no alert was showing |
| NavigatorProperties.DismissUndoesConfirmDialog | Sources/Navigation/Navigator.swift:211-215 | with no alert showing, dismiss right after presenting a dialog closes it, and gives back the earlier state if no dialog was showing |
| NavigatorProperties.DismissUndoesSheet | Sources/Navigation/Navigator.swift:211-217 | with no alert or dialog showing, dismiss right after presenting a sheet closes it, and gives back the earlier state if no sheet was showing |
| NavigatorProperties.DismissedTimes | Sources/Navigation/Navigator.swift:211-221 | `n` dismissals in a row lower `Depth` by exactly `n` and only take things away |
| NavigatorProperties.DismissedTimesIsUnwound | Sources/Navigation/Navigator.swift:211-221 | `n` dismissals equal the closed form: alert, then dialog, then sheet, then routes from the top |
| NavigatorProperties.DismissAllReachesRoot | Sources/Navigation/Navigator.swift:211-221 | dismissing `Depth(s)` times ends in the `popToRoot` state |
| Navigation.IsAppAlertPresented | Sources/Navigation/Navigation.swift:22-25 | true exactly when the placement rule puts the alert over the root view (alert present, no sheet) |
| Navigation.IsSheetAlertPresented | Sources/Navigation/Navigation.swift:32-35 | true exactly when the placement rule puts the alert inside the sheet (alert and sheet present) |
| Navigation.IsAppConfirmPresented | Sources/Navigation/Navigation.swift:42-45 | true exactly when the placement rule puts the dialog over the root view (dialog present, no sheet) |
| Navigation.IsSheetConfirmPresented | Sources/Navigation/Navigation.swift:52-55 | as written, true whenever a dialog is present, wherever it is placed |
| Navigation.IsSheetConfirmPresentedIntended | Sources/Navigation/Navigation.swift:52-55 | the corrected binding: true exactly when the dialog is placed inside the sheet |
| Navigation.AlertBindingsPartition | Sources/Navigation/Navigation.swift:22-41 | with an alert, exactly one of the two alert bindings holds; with none, neither holds |
| Navigation.ConfirmBindingsPartitionIntended | Sources/Navigation/Navigation.swift:42-61 | with the corrected in-sheet binding, the dialog bindings partition like the alert bindings |
| Navigation.ConfirmBindingsOverlap | Sources/Navigation/Navigation.swift:42-61 | as written, a dialog with no sheet makes both dialog bindings true |
| Navigation.AlertBindingSet | Sources/Navigation/Navigation.swift:26-30 | writing `false` turns both alert bindings off and clears only the alert; writing `true` changes nothing |
| Navigation.ConfirmBindingSet | Sources/Navigation/Navigation.swift:46-50 | writing `false` turns both dialog bindings off and clears only the dialog; writing `true` changes nothing |
| Navigation.ClearingAgreesWithDismiss | Sources/Navigation/Navigation.swift:26-30 | clearing a showing alert (or a showing dialog with no alert) through its binding is the same step as `dismiss` |
| Navigation.SetAppAlertPresented | Sources/Navigation/Navigation.swift:26-30 | the navigator's new state is `AlertBindingSet` of the old; ids unchanged |
| Navigation.SetSheetAlertPresented | Sources/Navigation/Navigation.swift:36-40 | the navigator's new state is `AlertBindingSet` of the old; ids unchanged |
| Navigation.SetAppConfirmPresented | Sources/Navigation/Navigation.swift:46-50 | the navigator's new state is `ConfirmBindingSet` of the old; ids unchanged |
| Navigation.SetSheetConfirmPresented | Sources/Navigation/Navigation.swift:56-60 | the navigator's new state is `ConfirmBindingSet` of the old; ids unchanged |

## Left out

- Navigator.Navigator.RemoveLast: requires `count <= |path|` and takes `count` as a `nat`. What `NavigationPath.removeLast` does with a larger count, or a negative one, is not part of this model.
- Navigator.Navigator.Dismiss: requires something to dismiss, because with no overlay and an empty path it calls `removeLast()` on an empty path.
- Sheet `onDismiss` invocation: the only call site (Sources/Navigation/Navigation.swift:100-102) reads the slot when the toolkit dismisses the sheet. By then `dismiss()`, `popToRoot()` or a binding may already have emptied the slot, and a replaced sheet's slot holds the new callback. The model stores the callback and makes no claim about whether or when it runs.
- The SwiftUI `body` of `Navigation` (Sources/Navigation/Navigation.swift:79-123): view rendering done by the host toolkit.
- `AnyView` payloads and `@ViewBuilder` closures: opaque type parameters, stored and never inspected. The builder closures are evaluated once at presentation time, so the model takes their results as values.
- `UUID()`: a foreign call. It is modelled as a counter (`nextId`). Uniqueness holds among requests of one navigator, not globally.
- `NavigationPath` internals and its `Hashable`/`Codable` type erasure: the path is a plain sequence of one opaque route type. That type stands for every route type the path holds, so the two convenience initializers become one constructor.
- `@MainActor`, `ObservableObject` and `@Published`: the model is single-threaded, and change notification is left out.
- Sources/Navigation/NavigatorButton.swift and Package.swift: no navigator logic.

## Findings

| source | as written | input that shows it | evidently intended | confidence | as-written member | corrected member |
|---|---|---|---|---|---|---|
| Sources/Navigation/Navigation.swift:54 | `isSheetConfirmPresented` tests `confirmDialog != nil` twice, so it holds whenever a dialog exists | any path, no alert, no sheet, one confirmation dialog: `isAppConfirmPresented` and `isSheetConfirmPresented` are both true | `confirmDialog != nil && sheet != nil`, mirroring the alert binding at line 34 | medium, not executed; the in-sheet binding is read only inside the sheet's content, so the overlap may never be visible | Navigation.ConfirmBindingsOverlap | Navigation.IsSheetConfirmPresentedIntended |

`Navigation.IsSheetConfirmPresented` keeps the code as written. The corrected
binding is proved to partition the dialog cases like the alert bindings
(`Navigation.ConfirmBindingsPartitionIntended`). In the source, nothing outside the
left-out view body reads the in-sheet dialog binding. The setters'
contracts hold for both versions.
