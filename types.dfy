/** Records shared by the launcher's state manager and its components. */
module Types {

  /** The conventional Some/None wrapper, used for nullable values (`T | null`). */
  datatype Option<T> = None | Some(value: T)

  /** A user-defined shortcut as it is kept in memory and persisted. */
  datatype StoredApp = StoredApp(
    id: string,
    name: string,
    url: string,
    /** A key of the named-icon map, or an http(s) URL of a remote image. */
    iconIdentifier: string,
    color: string)

  /** The persisted lock settings; `passwordHash` is the Base64 text of the passcode. */
  datatype LauncherSettings = LauncherSettings(passwordEnabled: bool, passwordHash: string)

  /** The settings used when nothing usable is stored: protection off, no hash. */
  const DefaultSettings := LauncherSettings(false, "")

  /** The settings invariant every write keeps: protection is on exactly when a hash is present. */
  predicate Consistent(s: LauncherSettings) {
    s.passwordEnabled <==> s.passwordHash != ""
  }
}
