# Plus Launcher — a Dafny model of the start-page core

Plus Launcher is a browser start page. It shows a grid of shortcut tiles: seven
built-in tiles first, then the shortcuts the user has added. A search box filters
the grid by name. Shortcuts can be added, edited and deleted through a form. The
page can be protected by a numeric passcode, entered on an on-screen keypad. The
shortcut list and the lock settings persist in the browser's key/value store
under `plus-launcher-custom-apps` and `plus-launcher-settings`.

This project models that core and proves properties of it.

- `types.dfy` (`Types`) — the stored shortcut record and the lock settings. It
  also holds the settings invariant: protection is on exactly when a hash is
  stored.
- `strings.dfy` (`Strings`) — the string operations the source relies on:
  `startsWith`, ASCII `toLowerCase`, `includes`, and `trim` with the JavaScript
  whitespace set.
- `base64.dfy` (`Base64`) — `btoa`, the encoding of section 4 of RFC 4648 over
  Latin-1 text, which the launcher uses as its passcode "hash". It includes a
  decoder and the round trip, from which the encoding is injective.
- `catalog.dfy` (`Catalog`) — the grid pipeline of `App.tsx`: the built-in
  tiles, the custom tiles with their resolved icon, their concatenation and the
  case-insensitive name filter.
- `header.dfy` (`Header`) — the time-of-day greeting and which header buttons
  appear.
- `app_card.dfy` (`AppCard`) — what pressing a tile or its edit and delete
  controls does, and the edit-mode decorations.
- `lock_screen.dfy` (`LockScreen`) — the keypad. `PinPad` is a class whose
  fields are the component's `input`, `error` and `success` state.
- `add_app_form.dfy` (`AddAppForm`) — the add/edit form.
  - `Submit` is the form's submit step as a function of the fields.
  - `FaviconUrl` is the favicon lookup.
  - `Form` is a class holding the form's six state variables.
- `launcher.dfy` (`Launcher`) — the state manager. `App` is a class whose fields
  are the component's state variables plus the key/value store. Its methods are
  the handlers: load, save (add or edit), delete, unlock, set passcode, toggle
  protection, lock, and the form, edit-mode, search and settings toggles.
- `scenarios.dfy` (`Scenarios`) — verified scenarios that call the handlers:
  - add then delete a shortcut;
  - edit a shortcut;
  - set a passcode, then unlock with it.

Three behaviours of the code are worth stating plainly:

- Saving is an add or an edit depending on `editingApp` (App.tsx:99), not on
  whether the id is already present. An add can create a duplicate id, and an
  edit whose id is no longer in the list changes nothing. See
  `Launcher.App.HandleSaveApp`.
- The page starts locked only when the stored settings enable protection and
  also hold a non-empty hash (App.tsx:54). See `Launcher.InitialLocked` and
  `Launcher.StartupLockMatchesSettings`.
- Nothing in the code keeps shortcut ids unique, and the model does not assume
  it. Replace and delete act on every entry with the id, as the source's `map`
  and `filter` do.

## Model

| member | source | states |
|---|---|---|
| Strings.Lower | App.tsx:229 | `toLowerCase` keeps the length and lowers each character independently (ASCII letters only) |
| Strings.Includes | App.tsx:229 | `includes` holds exactly when the needle occurs at some position of the haystack |
| Strings.TrimStart | components/AddAppModal.tsx:88 | the result is a suffix of the input, whose dropped part is all whitespace, and it does not start with whitespace |
| Strings.TrimEnd | components/AddAppModal.tsx:88 | the result is a prefix of the input, whose dropped part is all whitespace, and it does not end with whitespace |
| Strings.Trim | components/AddAppModal.tsx:88 | `trim` yields a piece of the input that neither starts nor ends with whitespace, and everything before and after that piece is whitespace |
| Strings.TrimEmptyIffBlank | components/AddAppModal.tsx:88 | `s.trim()` is empty exactly when every character of `s` is JavaScript whitespace |
| Base64.Btoa | App.tsx:117 | `btoa` yields four characters per started group of three input characters, and is empty only for empty input |
| Base64.AtobBtoa | App.tsx:117 | decoding the encoding of any Latin-1 string gives the string back |
| Base64.BtoaInjective | App.tsx:116-123 | two Latin-1 strings have the same encoding exactly when they are equal |
| Base64.Rfc4648Vectors | App.tsx:127 | the encoding agrees with the test vectors of section 10 of RFC 4648 |
| Catalog.BuiltIns | App.tsx:149-206 | exactly seven built-in tiles, none custom, and only the last ("Launcher Settings") opens the settings panel rather than a URL |
| Catalog.ResolveIcon | App.tsx:208-214 | a non-empty icon-map key gives that icon; an identifier that is not a key and starts with "http" gives a remote image of itself; anything else, the empty string included, gives the link glyph |
| Catalog.CustomEntry | App.tsx:208-224 | a shortcut's tile is custom, opens the shortcut's URL, and carries its id, name and colour |
| Catalog.MapCustom | App.tsx:208-224 | one tile per shortcut in list order, with the shortcut's id and name; none of them opens the settings panel |
| Catalog.AllApps | App.tsx:208-226 | the grid is the seven built-ins followed by one custom tile per stored shortcut, in order, with the shortcut's id, name and colour, its resolved icon, and an action that opens its URL |
| Catalog.Filter | App.tsx:228-230 | the filter keeps exactly the tiles whose lower-cased name contains the lower-cased term, and never adds any |
| Catalog.FilteredApps | App.tsx:228-230 | the grid holds exactly the catalog's tiles whose names match the term, and never more than the catalog |
| Catalog.FilterConcat | App.tsx:226-230 | filtering the concatenation is filtering each part, so the order of the grid is kept |
| Catalog.FilterSingleton | App.tsx:228-230 | a single tile survives the filter exactly when its name matches |
| Catalog.FilterEmptyTerm | App.tsx:228-230 | the empty term keeps every tile |
| Catalog.FilterIdempotent | App.tsx:228-230 | filtering twice by the same term is filtering once |
| Catalog.EmptySearchShowsAll | App.tsx:226-230 | with an empty search box the grid is all seven built-ins followed by every custom tile |
| Catalog.SearchSplits | App.tsx:226-230 | the filtered grid is the matching built-ins followed by the matching custom tiles |
| Header.Greeting | components/Header.tsx:4-9 | before 12 the greeting is "Good morning", from 12 to 17 "Good afternoon", from 18 "Good evening" |
| Header.GreetingNeverGoesBack | components/Header.tsx:4-9 | over a day the greeting is always one of the three and never moves back to an earlier one |
| Header.Buttons | components/Header.tsx:34-53 | Edit/Done appears exactly with custom shortcuts present, the lock button exactly when a lock action is supplied, reload exactly when a reload action is supplied |
| AppCard.ShowsControls | components/AppCard.tsx:42 | edit and delete controls appear only on custom tiles |
| AppCard.Wiggles | components/AppCard.tsx:27 | only custom tiles in edit mode wiggle |
| AppCard.Dimmed | components/AppCard.tsx:33 | only built-in tiles in edit mode are dimmed |
| AppCard.Effects | components/AppCard.tsx:16-52 | a press has at most one effect; the tile's action runs only from the tile body, and never for a custom tile in edit mode, where a body press does nothing at all; the edit control requests the edit and the delete control the delete (lines 45, 52) |
| AppCard.ActionRunsOnce | components/AppCard.tsx:16-52 | a press of the tile body runs the action exactly once unless the tile is custom and edit mode is on; the edit and delete controls never run it |
| AppCard.DecorationsAgree | components/AppCard.tsx:27-42 | a tile wiggles exactly when it shows edit and delete controls, and a tile in edit mode is either controlled or dimmed, never both |
| LockScreen.PinDots | components/LockScreen.tsx:67-71 | the display has a dot per typed digit at least, and a dot is filled exactly when its position is below the number of typed digits |
| LockScreen.PinDotsShowInput | components/LockScreen.tsx:67-71 | the pin display has exactly max(length, 4) dots, and exactly as many are filled as digits have been typed |
| LockScreen.PinPad.constructor | components/LockScreen.tsx:12-14 | the pad starts empty, with neither error nor success |
| LockScreen.PinPad.PressKey | components/LockScreen.tsx:16-21 | below eight digits a key appends its digit and clears the error; at eight nothing changes |
| LockScreen.PinPad.Backspace | components/LockScreen.tsx:23-26 | backspace drops the last digit, if any, and clears the error |
| LockScreen.PinPad.CanSubmit | components/LockScreen.tsx:110 | when the submit key is enabled the pad holds four to eight digits |
| LockScreen.PinPad.Attempt | components/LockScreen.tsx:28-29 | the submit key, enabled from four digits (line 110), hands over exactly the typed input: four to eight digits |
| LockScreen.PinPad.Settle | components/LockScreen.tsx:30-35 | an accepted attempt sets success; a refused one sets the error and then clears the input |
| AddAppForm.IconNames | components/AddAppModal.tsx:13 | the selectable icons are exactly the icon-map keys other than PencilIcon and TrashIcon |
| AddAppForm.FirstIcon | components/AddAppModal.tsx:18 | the default icon is the first key in map order other than PencilIcon and TrashIcon, and is one of the offered icons; with none offered it is "" (the source's `undefined`) |
| AddAppForm.NormalizeUrl | components/AddAppModal.tsx:90 | the saved URL starts with `http://` or `https://`; a URL that already does is kept, any other gets `https://` in front |
| AddAppForm.NormalizeUrlIdempotent | components/AddAppModal.tsx:90 | normalising a normalised URL changes nothing |
| AddAppForm.FaviconTarget | components/AddAppModal.tsx:34 | the address given to the URL parser is the URL itself when it starts with "http" and the URL with `https://` in front otherwise, so it always starts with "http"; for a URL with a scheme it is the URL the save step stores |
| AddAppForm.FaviconTargetMayLackScheme | components/AddAppModal.tsx:34 | for every URL that starts with "http" but has no `http://` or `https://` scheme, the favicon step parses it unprefixed while the save step stores it with `https://` in front |
| AddAppForm.HttpbinLacksScheme | components/AddAppModal.tsx:34 | `httpbin.org` is such a URL |
| AddAppForm.FaviconAddress | components/AddAppModal.tsx:37 | the favicon address starts with "http", so a tile saved with it resolves to a remote image when the address is not an icon-map key |
| AddAppForm.FaviconUrl | components/AddAppModal.tsx:26-44 | there is no favicon when favicon mode is off, when the URL is blank, or when no non-empty host name can be read; in favicon mode with a non-blank URL and a non-empty host name it is the favicon service's address for that host |
| AddAppForm.ChosenIcon | components/AddAppModal.tsx:92 | the saved icon is the favicon address when favicon mode is on and one was found, otherwise the selected icon key |
| AddAppForm.ChosenId | components/AddAppModal.tsx:95 | an edit keeps the edited shortcut's non-empty id; an add, or an edited record with an empty id, takes the fresh timestamp id |
| AddAppForm.Submit | components/AddAppModal.tsx:86-101 | nothing is saved exactly when the name or the URL is blank; otherwise the record holds the name and colour as typed, the normalised URL, the chosen id and the chosen icon |
| AddAppForm.EditKeepsId | components/AddAppModal.tsx:95 | saving an edit of a shortcut with a non-empty id yields a record with the same id |
| AddAppForm.FaviconShowsAsRemote | App.tsx:210-213 | a record saved with a found favicon is shown with a remote image of that address, when the address is not an icon-map key |
| AddAppForm.Form.constructor | components/AddAppModal.tsx:16-21 | the form starts blank, with the first icon, the first colour, favicon mode on and no favicon |
| AddAppForm.Form.Open | components/AddAppModal.tsx:51-72 | opening for an edit loads the name, URL and colour, and turns favicon mode on exactly when the stored icon starts with "http", in which case the first icon is selected, otherwise the stored icon; opening for an add resets to blank, the first icon, the first colour and favicon mode on |
| AddAppForm.Form.SetName | components/AddAppModal.tsx:132 | typing replaces the name field and nothing else |
| AddAppForm.Form.SetUrl | components/AddAppModal.tsx:144 | typing replaces the URL field and nothing else |
| AddAppForm.Form.ToggleFavicon | components/AddAppModal.tsx:154 | the toggle flips favicon mode and nothing else |
| AddAppForm.Form.SelectIcon | components/AddAppModal.tsx:178 | picking one of the offered icons selects it |
| AddAppForm.Form.SelectColor | components/AddAppModal.tsx:191 | picking one of the twelve colours selects it |
| AddAppForm.Form.SettleFavicon | components/AddAppModal.tsx:26-49 | once the lookup settles, the favicon field is the lookup's result for the current URL and mode, and holds an "http" address only in favicon mode |
| AddAppForm.Form.CanSubmit | components/AddAppModal.tsx:196 | the submit button is enabled exactly when neither the name nor the URL is empty or all whitespace |
| AddAppForm.Form.Submission | components/AddAppModal.tsx:86-101 | submitting yields the record `Submit` describes for the current fields, and yields one exactly when the submit button is enabled |
| Launcher.InitialLocked | App.tsx:49-58 | the page starts locked exactly when the settings read at start-up enable protection and hold a non-empty hash |
| Launcher.InitialSettings | App.tsx:62-69 | the start-up settings are the stored record whenever one is stored, and the defaults otherwise; protection is on only when a record is stored |
| Launcher.LoadedApps | App.tsx:71-81 | a load yields the list in memory or the stored list, and yields the stored list whenever an array is stored |
| Launcher.StartupWithoutSettings | App.tsx:48-69 | with no readable settings record the page starts unlocked with protection off and no hash |
| Launcher.StartupLockMatchesSettings | App.tsx:48-69 | for settings that satisfy the invariant, the page starts locked exactly when protection is enabled |
| Launcher.ReloadAfterSave | App.tsx:71-90 | a reload after a write of a list yields that list, whatever is in memory |
| Launcher.ReloadKeepsOnFailure | App.tsx:71-81 | a reload whose stored value is absent, not JSON, or not an array keeps the list in memory |
| Launcher.RestartAfterSettingsWrite | App.tsx:48-95 | a restart after a settings write reads those settings back, and starts locked exactly when they enable protection |
| Launcher.ReplaceById | App.tsx:100 | an edit keeps the list's length and replaces, in place, exactly the entries carrying the saved id |
| Launcher.ReplaceUnknownId | App.tsx:99-100 | an edit whose id is in no entry leaves the list unchanged |
| Launcher.ReplaceIdempotent | App.tsx:100 | saving the same edit twice is saving it once |
| Launcher.RemoveById | App.tsx:111 | after a delete an entry is in the list exactly when it was before and does not carry the id |
| Launcher.RemoveConcat | App.tsx:111 | deletion works piecewise over a concatenation, so the survivors keep their order |
| Launcher.RemoveAbsent | App.tsx:111 | deleting an id that is in no entry changes nothing |
| Launcher.RemoveIdempotent | App.tsx:111 | deleting twice is deleting once |
| Launcher.RemoveCount | App.tsx:111 | a delete shortens the list by exactly the number of entries carrying the id |
| Launcher.FindById | App.tsx:261 | the lookup finds nothing exactly when no entry carries the id, and what it finds is an entry with that id |
| Launcher.FindByIdFirst | App.tsx:261 | the lookup finds the first entry carrying the id |
| Launcher.PasscodeSettings | App.tsx:127-131 | setting a passcode enables protection with a non-empty hash, so the settings invariant holds |
| Launcher.Accepts | App.tsx:117-118 | an accepted attempt's encoding has the stored hash's length, and a non-empty attempt is never accepted by an empty hash |
| Launcher.AcceptsOnlyThePasscode | App.tsx:116-131 | after a passcode is set, an unlock attempt succeeds exactly when it equals that passcode |
| Launcher.DisabledAcceptsNoPin | App.tsx:116-118 | with protection off (empty hash) no keypad entry of four or more digits unlocks |
| Launcher.App.constructor | App.tsx:42-85 | start-up reads the settings and the lock flag from the store, loads the list, and opens nothing |
| Launcher.App.LoadApps | App.tsx:71-81 | a reload replaces the list only with a stored array, and then memory and store agree |
| Launcher.App.SaveApps | App.tsx:87-90 | memory and store both get the new list, and the other keys are untouched |
| Launcher.App.SaveSettings | App.tsx:92-95 | memory and store both get the new settings, and the other keys are untouched |
| Launcher.App.HandleSaveApp | App.tsx:97-107 | while editing, the entries with the saved id are replaced; otherwise the record is appended; the list is persisted, the form closes and nothing is being edited |
| Launcher.App.HandleDeleteApp | App.tsx:109-114 | a confirmed delete removes every entry with the id and persists the list under the apps key, leaving the other keys untouched; an unconfirmed one changes nothing |
| Launcher.App.HandleUnlockAttempt | App.tsx:116-123 | an attempt succeeds exactly when its encoding equals the stored hash; success clears the lock, failure changes nothing, and the lock is never set here |
| Launcher.App.HandleSetPasscode | App.tsx:125-134 | a passcode under four characters is refused with nothing changed; otherwise protection is enabled with its encoding, persisted, and the set-up overlay closes without locking |
| Launcher.App.TogglePasswordFeature | App.tsx:136-147 | with protection on, a confirmed toggle disables it and clears the hash in memory and store, an unconfirmed one changes nothing; with protection off it opens the set-up overlay |
| Launcher.App.LockFromHeader | App.tsx:246 | the header's lock, offered only with protection on, locks the page |
| Launcher.App.LockFromSettings | App.tsx:299 | the settings panel's lock, offered only with protection on, closes the panel and locks the page |
| Launcher.App.OpenAddForm | App.tsx:272 | the Add App tile opens the form with nothing being edited |
| Launcher.App.BeginEdit | App.tsx:260-266 | a tile's edit control opens the form on the first stored shortcut with the tile's id, and does nothing when there is none |
| Launcher.App.CloseForm | App.tsx:287 | closing the form hides it |
| Launcher.App.ToggleEditMode | App.tsx:243 | the edit toggle flips edit mode |
| Launcher.App.SetSearchTerm | App.tsx:251 | typing in the search box sets the search term |
| Launcher.App.OpenSettings | App.tsx:203 | the Launcher Settings tile opens the settings panel |
| Launcher.App.CloseSettings | App.tsx:294 | closing the settings panel hides it |
| Launcher.App.Grid | App.tsx:226-230 | the grid shown holds exactly the catalog's tiles, for the App's shortcuts, whose names match the App's search term, and never more than the catalog |
| Launcher.App.HeaderButtonsShown | App.tsx:241-247 | the header shows Edit/Done exactly when custom shortcuts exist, the lock button exactly when protection is on, and reload always |
| Launcher.SubmitUnlock | App.tsx:235 | the lock screen's submit succeeds exactly when the typed digits are the passcode; success unlocks and sets the pad's success flag, leaving its input and error as they were; failure keeps the lock, sets the error, clears the pad and leaves its success flag as it was |
| Launcher.SubmitNewPasscode | App.tsx:238 | the set-up screen's submit always succeeds (the pad holds at least four digits), enables protection with those digits, rewrites only the settings key of the store, closes the overlay and does not lock; the pad shows success and keeps its digits and error flag |
| Scenarios.GridSize | App.tsx:226-230 | with an empty search box the grid shows seven tiles plus one per stored shortcut |
| Scenarios.GitUrls | components/AddAppModal.tsx:90 | `github.com` is saved as `https://github.com`, and `https://gitlab.com` is kept as typed |

## Left out

- Rendering, styling, animation classes and the JSX tree are not modelled. Only
  the decorations that carry behaviour (wiggle, dimming, which controls and
  buttons appear) are.
- The clock, the search bar and the settings panel are presentation components
  and are not part of this model. Their callbacks are modelled in `Launcher.App`.
- Stored values are not modelled as JSON text. A write stores the parse result of
  the value written. A read sees either nothing, unparseable text, an array,
  a settings record or some other JSON value. A stored empty string reads as
  absent, which is how the source's truthiness test treats it.
- Launcher.InitialSettings: when the settings key holds JSON that is not a
  settings record, the source puts that value itself into state. The model uses
  the default settings instead.
- Launcher.LoadedApps: every element of a stored array is assumed to be a
  shortcut record. The source accepts any array (App.tsx:76). An element
  without a string `name`, as in a stored `[1]` or `[{}]`, makes the name
  filter (App.tsx:229) throw on every render. The page then stays blank until
  the storage is cleared. The model does not represent such arrays.
- Launcher.InitialLocked: a stored settings object whose fields are truthy but
  of the wrong type, such as `{"passwordEnabled":1,"passwordHash":"x"}`, locks
  the page in the source (App.tsx:54). The model reads such a value as
  `OtherJson` and starts unlocked. A stored `null` becomes the settings in the
  source (App.tsx:65), and the render then fails reading
  `settings.passwordEnabled` (App.tsx:246). The model uses the defaults
  instead.
- The debounce timer of the favicon lookup, the 300 ms clearing of a refused pin
  and the greeting's one-minute refresh are not modelled. The model keeps the
  state once each timer has fired.
- `new URL(...).hostname` is not modelled. It is the parameter `hostOf`, where
  `None` stands for a parse that throws.
- `Date.now()` is not modelled. It is the parameter `freshId`.
- `confirm(...)` is not modelled. It is the boolean parameter `confirmed`.
- `window.open` is not modelled. It is an `OpenUrl` action value, which is never
  executed.
- The image-load error fallback of the remote icon component happens at render
  time and is not modelled.
- The icon map's components are not modelled. Only its key names are (`iconKeys`).
  A lookup under an inherited object property such as `toString` is not modelled.
- `toLowerCase` is modelled for ASCII letters only. Unicode case mapping is not
  modelled.
- Launcher.App.HandleSetPasscode: requires a Latin-1 passcode, even though the
  source refuses a short passcode before calling `btoa`. Every caller sends
  keypad digits.
- Launcher.App.HandleUnlockAttempt: requires a Latin-1 attempt, because `btoa`
  throws on other text. Every caller sends keypad digits.
- The Escape-key handler of the form (components/AddAppModal.tsx:74-84) closes
  the form. It is the same transition as `Launcher.App.CloseForm`, so it is not
  modelled separately.
- The lock screen's empty auto-attempt effect (components/LockScreen.tsx:38-43)
  does nothing and is not modelled.
- React's batched state updates are not modelled. Each handler's updates are
  applied at once. No modelled handler reads a value it has just written.
