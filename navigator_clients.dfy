/** Callers of the navigator that use nothing but its contracts: the scenarios of
    Tests/NavigationTests/NavigationTests.swift, plus a precedence walk through
    every kind of overlay. Routes and view payloads are strings here, and a
    sheet callback is the unit value. */
module NavigatorClients {
  import opened Wrappers
  import opened Navigator

  method InitializationAndPopToRoot()
  {
    var empty := new Navigator<string, string, ()>();
    assert empty.path == [] && empty.alert.None? && empty.sheet.None? && empty.confirmDialog.None?;

    var seeded := new Navigator<string, string, ()>(["TestPath"]);
    assert seeded.path == ["TestPath"];
    assert seeded.alert.None? && seeded.sheet.None? && seeded.confirmDialog.None?;

    seeded.Append("Path2");
    assert seeded.path == ["TestPath", "Path2"];
    seeded.PopToRoot();
    assert seeded.path == [] && seeded.alert.None? && seeded.sheet.None? && seeded.confirmDialog.None?;
  }

  method AppendThenDismiss()
  {
    var nav := new Navigator<string, string, ()>();
    nav.Append("TestPath");
    assert |nav.path| == 1;
    nav.Dismiss();
    assert nav.path == [];
  }

  method AlertsReplaceAndDismiss()
  {
    var nav := new Navigator<string, string, ()>();
    nav.Alert("Test Alert", "", "OK");
    assert nav.alert.Some? && nav.alert.value.title == "Test Alert";
    var first := nav.alert.value.id;
    nav.Alert("Second", "", "OK");
    assert nav.alert.value.title == "Second" && nav.alert.value.id != first;
    nav.Dismiss();
    assert nav.alert.None?;
  }

  /** Alert, dialog and sheet all showing over a two-route path: four dismissals
      close them in precedence order and then pop one route. */
  method PrecedenceWalk()
  {
    var nav := new Navigator<string, string, ()>();
    nav.Append("A");
    nav.Append("B");
    nav.Sheet("Sheet Content", Some(()));
    assert nav.sheet.Some?;
    nav.ConfirmDialog("Q", "Are you sure?", "Yes");
    assert nav.confirmDialog.Some? && nav.confirmDialog.value.title == "Q";
    nav.Alert("Dismiss Alert", "", "");
    var sheet, dialog := nav.sheet, nav.confirmDialog;

    nav.Dismiss();
    assert nav.alert.None? && nav.confirmDialog == dialog && nav.sheet == sheet && nav.path == ["A", "B"];
    nav.Dismiss();
    assert nav.confirmDialog.None? && nav.sheet == sheet && nav.path == ["A", "B"];
    nav.Dismiss();
    assert nav.sheet.None? && nav.path == ["A", "B"];
    nav.Dismiss();
    assert nav.path == ["A"];
  }
}
