/**
 * The launcher's state manager (the `App` component): the user's shortcut
 * list, the lock settings and the lock flag, kept in step with a key/value
 * store, plus the handlers that change them.
 */
module Launcher {
  import opened Types
  import opened Base64
  import Catalog
  import Header
  import LockScreen

  const AppsKey := "plus-launcher-custom-apps"
  const SettingsKey := "plus-launcher-settings"

  /**
   * What reading a key and parsing its text yields. A key that is absent is
   * not in the store's map. JSON text is not modelled: a write stores the
   * parse result of the value written.
   */
  datatype StoredValue =
    | Unparseable                                  // the text is not JSON: `JSON.parse` throws
    | AppList(apps: seq<StoredApp>)                // an array (of shortcut records)
    | SettingsRecord(settings: LauncherSettings)   // an object with the two settings fields
    | OtherJson                                    // any other JSON value

  type Store = map<string, StoredValue>

  /** `loadApps`: the list is replaced only by a stored array; anything else keeps `current`. */
  function LoadedApps(store: Store, current: seq<StoredApp>): (r: seq<StoredApp>)
    ensures r == current || (AppsKey in store && store[AppsKey] == AppList(r))
    ensures AppsKey in store && store[AppsKey].AppList? ==> store[AppsKey] == AppList(r)
  {
    if AppsKey in store && store[AppsKey].AppList? then store[AppsKey].apps else current
  }

  /** The initial settings: the stored record, or the defaults when none can be read. */
  function InitialSettings(store: Store): (s: LauncherSettings)
    ensures s == DefaultSettings || (SettingsKey in store && store[SettingsKey] == SettingsRecord(s))
    ensures s.passwordEnabled ==> SettingsKey in store && store[SettingsKey].SettingsRecord?
    ensures SettingsKey in store && store[SettingsKey].SettingsRecord? ==> s == store[SettingsKey].settings
  {
    if SettingsKey in store && store[SettingsKey].SettingsRecord? then store[SettingsKey].settings
    else DefaultSettings
  }

  /** The initial lock flag: set when the stored record enables protection and holds a hash. */
  function InitialLocked(store: Store): (locked: bool)
    ensures locked <==> InitialSettings(store).passwordEnabled && InitialSettings(store).passwordHash != ""
  {
    SettingsKey in store && store[SettingsKey].SettingsRecord?
    && store[SettingsKey].settings.passwordEnabled && store[SettingsKey].settings.passwordHash != ""
  }

  /** Startup with nothing usable stored: unlocked, with the default settings. */
  lemma StartupWithoutSettings(store: Store)
    requires SettingsKey !in store || !store[SettingsKey].SettingsRecord?
    ensures !InitialLocked(store) && InitialSettings(store) == DefaultSettings
  {
  }

  /** At startup the lock flag agrees with the settings read, whenever those satisfy the settings invariant. */
  lemma StartupLockMatchesSettings(store: Store)
    requires Consistent(InitialSettings(store))
    ensures InitialLocked(store) <==> InitialSettings(store).passwordEnabled
  {
  }

  /** The list a reload sees after a write of `apps` is `apps`, whatever was in memory. */
  lemma ReloadAfterSave(store: Store, apps: seq<StoredApp>, current: seq<StoredApp>)
    ensures LoadedApps(store[AppsKey := AppList(apps)], current) == apps
  {
  }

  /** A reload whose stored value is absent, unparseable or not an array changes nothing. */
  lemma ReloadKeepsOnFailure(store: Store, current: seq<StoredApp>)
    requires AppsKey !in store || store[AppsKey].Unparseable? || store[AppsKey].SettingsRecord? || store[AppsKey].OtherJson?
    ensures LoadedApps(store, current) == current
  {
  }

  /** A restart after a settings write reads those settings back, and locks exactly when they enable protection. */
  lemma RestartAfterSettingsWrite(store: Store, s: LauncherSettings)
    requires Consistent(s)
    ensures InitialSettings(store[SettingsKey := SettingsRecord(s)]) == s
    ensures InitialLocked(store[SettingsKey := SettingsRecord(s)]) <==> s.passwordEnabled
  {
  }

  /** `map(a => a.id === app.id ? app : a)`: every entry with the id is replaced, in place. */
  function ReplaceById(apps: seq<StoredApp>, app: StoredApp): (r: seq<StoredApp>)
    ensures |r| == |apps|
    ensures forall i :: 0 <= i < |apps| ==> r[i] == if apps[i].id == app.id then app else apps[i]
  {
    if apps == [] then []
    else [if apps[0].id == app.id then app else apps[0]] + ReplaceById(apps[1..], app)
  }

  /** An edit whose id is not in the list leaves the list as it is. */
  lemma ReplaceUnknownId(apps: seq<StoredApp>, app: StoredApp)
    requires forall a :: a in apps ==> a.id != app.id
    ensures ReplaceById(apps, app) == apps
  {
  }

  /** Replacing twice with the same record is replacing once. */
  lemma ReplaceIdempotent(apps: seq<StoredApp>, app: StoredApp)
    ensures ReplaceById(ReplaceById(apps, app), app) == ReplaceById(apps, app)
  {
  }

  /** `filter(a => a.id !== id)`. */
  function RemoveById(apps: seq<StoredApp>, id: string): (r: seq<StoredApp>)
    ensures |r| <= |apps|
    ensures forall a :: a in r <==> a in apps && a.id != id
  {
    if apps == [] then []
    else (if apps[0].id == id then [] else [apps[0]]) + RemoveById(apps[1..], id)
  }

  /** Removal works piecewise over a concatenation, so the survivors keep their relative order. */
  lemma {:induction false} RemoveConcat(a: seq<StoredApp>, b: seq<StoredApp>, id: string)
    ensures RemoveById(a + b, id) == RemoveById(a, id) + RemoveById(b, id)
  {
    if a == [] {
      assert a + b == b;
    } else {
      assert (a + b)[1..] == a[1..] + b;
      RemoveConcat(a[1..], b, id);
    }
  }

  /** Removing an id that is not present changes nothing. */
  lemma {:induction false} RemoveAbsent(apps: seq<StoredApp>, id: string)
    requires forall a :: a in apps ==> a.id != id
    ensures RemoveById(apps, id) == apps
  {
    if apps != [] {
      RemoveAbsent(apps[1..], id);
    }
  }

  /** Deleting twice has the same result as deleting once. */
  lemma RemoveIdempotent(apps: seq<StoredApp>, id: string)
    ensures RemoveById(RemoveById(apps, id), id) == RemoveById(apps, id)
  {
    RemoveAbsent(RemoveById(apps, id), id);
  }

  /** The number of entries carrying an id. */
  function CountId(apps: seq<StoredApp>, id: string): nat {
    if apps == [] then 0 else (if apps[0].id == id then 1 else 0) + CountId(apps[1..], id)
  }

  /** Exactly the entries with the id go: the length drops by their number. */
  lemma {:induction false} RemoveCount(apps: seq<StoredApp>, id: string)
    ensures |RemoveById(apps, id)| == |apps| - CountId(apps, id)
  {
    if apps != [] {
      RemoveCount(apps[1..], id);
    }
  }

  /** `find(a => a.id === id)`: the first entry carrying the id, if any. */
  function FindById(apps: seq<StoredApp>, id: string): (r: Option<StoredApp>)
    ensures r.None? <==> forall a :: a in apps ==> a.id != id
    ensures r.Some? ==> r.value in apps && r.value.id == id
  {
    if apps == [] then None
    else if apps[0].id == id then Some(apps[0])
    else FindById(apps[1..], id)
  }

  /** The entry found is the first one with the id. */
  lemma {:induction false} FindByIdFirst(apps: seq<StoredApp>, id: string, i: nat)
    requires i < |apps| && apps[i].id == id
    requires forall j :: 0 <= j < i ==> apps[j].id != id
    ensures FindById(apps, id) == Some(apps[i])
  {
    if i > 0 {
      FindByIdFirst(apps[1..], id, i - 1);
    }
  }

  /** The settings a successful passcode set-up writes. */
  function PasscodeSettings(passcode: string): (s: LauncherSettings)
    requires IsLatin1(passcode) && passcode != ""
    ensures s.passwordEnabled && Consistent(s)
  {
    LauncherSettings(true, Btoa(passcode))
  }

  /** An unlock attempt succeeds when its encoding equals the stored hash. */
  predicate Accepts(s: LauncherSettings, attempt: string)
    requires IsLatin1(attempt)
    ensures Accepts(s, attempt) ==> |s.passwordHash| == 4 * ((|attempt| + 2) / 3)
    ensures Accepts(s, attempt) && attempt != "" ==> s.passwordHash != ""
  {
    Btoa(attempt) == s.passwordHash
  }

  /** After a passcode is set, that passcode unlocks and every other attempt is refused. */
  lemma AcceptsOnlyThePasscode(passcode: string, attempt: string)
    requires IsLatin1(passcode) && passcode != "" && IsLatin1(attempt)
    ensures Accepts(PasscodeSettings(passcode), attempt) <==> attempt == passcode
  {
    BtoaInjective(attempt, passcode);
  }

  /** With protection disabled no attempt the keypad can send (four digits or more) is accepted. */
  lemma DisabledAcceptsNoPin(attempt: string)
    requires IsLatin1(attempt) && |attempt| >= LockScreen.MinDigits
    ensures !Accepts(DefaultSettings, attempt)
  {
  }

  /** The launcher's state. */
  class App {
    /** The key names of the icon map. */
    const iconKeys: seq<string>
    var store: Store
    var customApps: seq<StoredApp>
    var settings: LauncherSettings
    var isLocked: bool
    var isLockSetupOpen: bool
    var isModalOpen: bool
    var isSettingsOpen: bool
    var isEditMode: bool
    var editingApp: Option<StoredApp>
    var searchTerm: string

    /** The in-memory list is the one persisted. */
    ghost predicate AppsSynced()
      reads this
    {
      AppsKey in store && store[AppsKey] == AppList(customApps)
    }

    /** The in-memory settings are the ones persisted, and they satisfy the settings invariant. */
    ghost predicate SettingsSynced()
      reads this
    {
      SettingsKey in store && store[SettingsKey] == SettingsRecord(settings) && Consistent(settings)
    }

    /** Start-up: settings and lock flag read from the store, then the mount effect loads the list. */
    constructor (initial: Store, iconKeys: seq<string>)
      ensures this.iconKeys == iconKeys && store == initial
      ensures settings == InitialSettings(initial) && isLocked == InitialLocked(initial)
      ensures customApps == LoadedApps(initial, [])
      ensures !isLockSetupOpen && !isModalOpen && !isSettingsOpen && !isEditMode
      ensures editingApp == None && searchTerm == ""
    {
      this.iconKeys := iconKeys;
      store := initial;
      settings := InitialSettings(initial);
      isLocked := InitialLocked(initial);
      customApps := [];
      isLockSetupOpen, isModalOpen, isSettingsOpen, isEditMode := false, false, false, false;
      editingApp, searchTerm := None, "";
      new;
      LoadApps();
    }

    /** `loadApps` (also the header's reload button). */
    method LoadApps()
      modifies this`customApps
      ensures customApps == LoadedApps(store, old(customApps))
      ensures AppsKey in store && store[AppsKey].AppList? ==> AppsSynced()
    {
      if AppsKey in store && store[AppsKey].AppList? {
        customApps := store[AppsKey].apps;
      }
    }

    /** `saveApps`: memory and store get the same list. */
    method SaveApps(newApps: seq<StoredApp>)
      modifies this`customApps, this`store
      ensures customApps == newApps && store == old(store)[AppsKey := AppList(newApps)]
      ensures AppsSynced()
    {
      customApps := newApps;
      store := store[AppsKey := AppList(newApps)];
    }

    /** `saveSettings`: memory and store get the same record. */
    method SaveSettings(next: LauncherSettings)
      modifies this`settings, this`store
      ensures settings == next && store == old(store)[SettingsKey := SettingsRecord(next)]
    {
      settings := next;
      store := store[SettingsKey := SettingsRecord(next)];
    }

    /**
     * `handleSaveApp`: while a shortcut is being edited, every entry with the
     * saved id is replaced; otherwise the shortcut is appended, even when its
     * id is already present. The form then closes.
     */
    method HandleSaveApp(app: StoredApp)
      modifies this`customApps, this`store, this`isModalOpen, this`editingApp
      ensures old(editingApp).Some? ==> customApps == ReplaceById(old(customApps), app)
      ensures old(editingApp).None? ==> customApps == old(customApps) + [app]
      ensures store == old(store)[AppsKey := AppList(customApps)]
      ensures !isModalOpen && editingApp == None
    {
      var newApps;
      if editingApp.Some? {
        newApps := ReplaceById(customApps, app);
      } else {
        newApps := customApps + [app];
      }
      SaveApps(newApps);
      isModalOpen := false;
      editingApp := None;
    }

    /** `handleDeleteApp`: only when the user confirms, every entry with the id is removed. */
    method HandleDeleteApp(id: string, confirmed: bool)
      modifies this`customApps, this`store
      ensures confirmed ==> customApps == RemoveById(old(customApps), id) && AppsSynced()
      ensures confirmed ==> store == old(store)[AppsKey := AppList(customApps)]
      ensures confirmed ==> forall a :: a in customApps ==> a.id != id
      ensures !confirmed ==> customApps == old(customApps) && store == old(store)
    {
      if confirmed {
        SaveApps(RemoveById(customApps, id));
      }
    }

    /** `handleUnlockAttempt`: a matching attempt clears the lock flag; a wrong one changes nothing. */
    method HandleUnlockAttempt(attempt: string) returns (ok: bool)
      requires IsLatin1(attempt)
      modifies this`isLocked
      ensures ok <==> Accepts(settings, attempt)
      ensures ok ==> !isLocked
      ensures !ok ==> isLocked == old(isLocked)
    {
      ok := Btoa(attempt) == settings.passwordHash;
      if ok {
        isLocked := false;
      }
    }

    /**
     * `handleSetPasscode`: a passcode shorter than four characters is refused
     * and nothing changes; otherwise protection is enabled with its encoding
     * and the set-up overlay closes. It does not lock.
     */
    method HandleSetPasscode(passcode: string) returns (ok: bool)
      requires IsLatin1(passcode)
      modifies this`settings, this`store, this`isLockSetupOpen
      ensures ok <==> |passcode| >= 4
      ensures !ok ==> settings == old(settings) && store == old(store) && isLockSetupOpen == old(isLockSetupOpen)
      ensures ok ==> settings == PasscodeSettings(passcode) && SettingsSynced() && !isLockSetupOpen
      ensures ok ==> store == old(store)[SettingsKey := SettingsRecord(settings)]
    {
      if |passcode| < 4 {
        return false;
      }
      SaveSettings(PasscodeSettings(passcode));
      isLockSetupOpen := false;
      return true;
    }

    /**
     * `togglePasswordFeature`: with protection on, a confirmed request turns
     * it off and clears the hash; with protection off, it opens the set-up overlay.
     */
    method TogglePasswordFeature(confirmed: bool)
      modifies this`settings, this`store, this`isLockSetupOpen
      ensures old(settings).passwordEnabled && confirmed ==>
        settings == DefaultSettings && SettingsSynced() && store == old(store)[SettingsKey := SettingsRecord(DefaultSettings)]
        && isLockSetupOpen == old(isLockSetupOpen)
      ensures old(settings).passwordEnabled && !confirmed ==>
        settings == old(settings) && store == old(store) && isLockSetupOpen == old(isLockSetupOpen)
      ensures !old(settings).passwordEnabled ==>
        settings == old(settings) && store == old(store) && isLockSetupOpen
    {
      if settings.passwordEnabled {
        if confirmed {
          SaveSettings(DefaultSettings);
        }
      } else {
        isLockSetupOpen := true;
      }
    }

    /** The header's lock button, offered only while protection is on. */
    method LockFromHeader()
      requires settings.passwordEnabled
      modifies this`isLocked
      ensures isLocked
    {
      isLocked := true;
    }

    /** The settings panel's "lock now", offered only while protection is on: closes the panel and locks. */
    method LockFromSettings()
      requires settings.passwordEnabled
      modifies this`isLocked, this`isSettingsOpen
      ensures isLocked && !isSettingsOpen
    {
      isSettingsOpen := false;
      isLocked := true;
    }

    /** The "Add App" tile: the form opens with nothing being edited. */
    method OpenAddForm()
      modifies this`editingApp, this`isModalOpen
      ensures editingApp == None && isModalOpen
    {
      editingApp := None;
      isModalOpen := true;
    }

    /** A tile's edit control: the form opens on the first stored shortcut with that id, if there is one. */
    method BeginEdit(id: string)
      modifies this`editingApp, this`isModalOpen
      ensures FindById(customApps, id).Some? ==> editingApp == FindById(customApps, id) && isModalOpen
      ensures FindById(customApps, id).None? ==> editingApp == old(editingApp) && isModalOpen == old(isModalOpen)
    {
      var i := 0;
      while i < |customApps|
        invariant 0 <= i <= |customApps|
        invariant forall j :: 0 <= j < i ==> customApps[j].id != id
      {
        if customApps[i].id == id {
          FindByIdFirst(customApps, id, i);
          editingApp := Some(customApps[i]);
          isModalOpen := true;
          return;
        }
        i := i + 1;
      }
    }

    method CloseForm()
      modifies this`isModalOpen
      ensures !isModalOpen
    {
      isModalOpen := false;
    }

    method ToggleEditMode()
      modifies this`isEditMode
      ensures isEditMode == !old(isEditMode)
    {
      isEditMode := !isEditMode;
    }

    method SetSearchTerm(term: string)
      modifies this`searchTerm
      ensures searchTerm == term
    {
      searchTerm := term;
    }

    method OpenSettings()
      modifies this`isSettingsOpen
      ensures isSettingsOpen
    {
      isSettingsOpen := true;
    }

    method CloseSettings()
      modifies this`isSettingsOpen
      ensures !isSettingsOpen
    {
      isSettingsOpen := false;
    }

    /** The grid shown: the catalog's tiles whose names match the search term, and only those. */
    function Grid(): (g: seq<Catalog.CatalogEntry>)
      reads this
      ensures |g| <= 7 + |customApps|
      ensures forall e :: e in g <==> e in Catalog.AllApps(iconKeys, customApps) && Catalog.Matches(e, searchTerm)
    {
      Catalog.FilteredApps(iconKeys, customApps, searchTerm)
    }

    /** The header's buttons: Edit/Done with shortcuts present, lock while protection is on, reload always. */
    function HeaderButtonsShown(): (b: Header.HeaderButtons)
      reads this
      ensures b.editToggle <==> |customApps| > 0
      ensures b.lock <==> settings.passwordEnabled
      ensures b.reload
    {
      Header.Buttons(|customApps| > 0, settings.passwordEnabled, true)
    }
  }

  /**
   * The lock screen's submit key: the pad's four to eight digits go to
   * `handleUnlockAttempt`, and its answer settles the pad.
   */
  method SubmitUnlock(app: App, pad: LockScreen.PinPad) returns (ok: bool)
    requires pad.Valid() && pad.CanSubmit()
    modifies app`isLocked, pad`input, pad`error, pad`success
    ensures ok <==> Accepts(app.settings, old(pad.input))
    ensures ok ==> !app.isLocked && pad.success
    ensures ok ==> pad.input == old(pad.input) && pad.error == old(pad.error)
    ensures !ok ==> app.isLocked == old(app.isLocked) && pad.error && pad.input == ""
    ensures !ok ==> pad.success == old(pad.success)
    ensures pad.Valid()
  {
    var pin := pad.Attempt();
    LockScreen.AllDigitsLatin1(pin);
    ok := app.HandleUnlockAttempt(pin);
    pad.Settle(ok);
  }

  /** The set-up overlay's submit key: the pad's digits go to `handleSetPasscode`. */
  method SubmitNewPasscode(app: App, pad: LockScreen.PinPad) returns (ok: bool)
    requires pad.Valid() && pad.CanSubmit()
    modifies app`settings, app`store, app`isLockSetupOpen, pad`input, pad`error, pad`success
    ensures ok && app.settings == PasscodeSettings(old(pad.input)) && app.SettingsSynced()
    ensures app.isLocked == old(app.isLocked) && !app.isLockSetupOpen && pad.success
    ensures app.store == old(app.store)[SettingsKey := SettingsRecord(app.settings)]
    ensures pad.Valid() && pad.input == old(pad.input) && pad.error == old(pad.error)
  {
    var pin := pad.Attempt();
    LockScreen.AllDigitsLatin1(pin);
    ok := app.HandleSetPasscode(pin);
    pad.Settle(ok);
  }
}
