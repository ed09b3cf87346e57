/** Client code that drives the launcher through the flows a user performs, using only the contracts above. */
module Scenarios {
  import opened Types
  import opened Launcher
  import Catalog
  import AddAppForm

  /** With an empty search term the grid holds the seven built-ins and every user shortcut. */
  lemma GridSize(app: App)
    requires app.searchTerm == ""
    ensures |app.Grid()| == 7 + |app.customApps|
  {
    Catalog.EmptySearchShowsAll(app.iconKeys, app.customApps);
  }

  /** The form stores "github.com" as "https://github.com" and "https://gitlab.com" as typed. */
  lemma GitUrls()
    ensures AddAppForm.NormalizeUrl("github.com") == "https://github.com"
    ensures AddAppForm.NormalizeUrl("https://gitlab.com") == "https://gitlab.com"
  {
    assert "https://" + "github.com" == "https://github.com";
    assert "github.com"[0] != "http://"[0];
    assert "https://gitlab.com"[..8] == "https://";
  }

  /**
   * From an empty store the grid shows the seven built-ins; adding a
   * shortcut makes eight; deleting it returns to seven.
   */
  method AddThenDelete(iconKeys: seq<string>, added: StoredApp)
  {
    var app := new App(map[], iconKeys);
    assert |app.Grid()| == 7 by { GridSize(app); }

    app.OpenAddForm();
    app.HandleSaveApp(added);
    assert app.customApps == [added];
    assert |app.Grid()| == 8 by { GridSize(app); }

    app.HandleDeleteApp(added.id, true);
    assert app.customApps == [];
    assert |app.Grid()| == 7 by { GridSize(app); }
  }

  /**
   * With one stored shortcut, editing it keeps one entry, now the edited
   * record (the form gives an edit the stored id: `AddAppForm.EditKeepsId`).
   */
  method EditOne(iconKeys: seq<string>, stored: StoredApp, edited: StoredApp)
    requires edited.id == stored.id
  {
    var app := new App(map[AppsKey := AppList([stored])], iconKeys);
    assert app.customApps == [stored];
    FindByIdFirst(app.customApps, stored.id, 0);
    app.BeginEdit(stored.id);
    assert app.editingApp == Some(stored);

    app.HandleSaveApp(edited);
    assert app.customApps == [edited];
    assert |app.Grid()| == 8 by { GridSize(app); }
  }

  /**
   * A two-digit passcode is refused; "4242" is accepted and does not lock;
   * once locked, "0000" is refused and "4242" unlocks.
   */
  method SetPasscodeThenUnlock()
  {
    var app := new App(map[], []);
    assert !app.isLocked && !app.settings.passwordEnabled;

    var ok := app.HandleSetPasscode("12");
    assert !ok && !app.settings.passwordEnabled;

    ok := app.HandleSetPasscode("4242");
    assert ok && app.settings.passwordEnabled && !app.isLocked;

    app.LockFromHeader();
    AcceptsOnlyThePasscode("4242", "0000");
    ok := app.HandleUnlockAttempt("0000");
    assert !ok && app.isLocked;

    AcceptsOnlyThePasscode("4242", "4242");
    ok := app.HandleUnlockAttempt("4242");
    assert ok && !app.isLocked;
  }
}
