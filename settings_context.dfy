/**
 * The settings context (contexts/SettingsContext.tsx): four preferences with defaults, filled
 * from the user's `user_settings` row, whose columns may be null, and written back as one
 * record for the signed-in profile.
 */
module SettingsContext {
  import opened Wrappers

  const DefaultHospital: string := "City Hospital"

  /** The four values the context holds. */
  datatype Settings = Settings(hospitalName: string, notificationsEnabled: bool, autoLogout: bool, darkMode: bool)

  /** The state before anything is loaded. */
  const Initial := Settings(DefaultHospital, true, true, false)

  /** A `user_settings` row as read: every preference column is nullable. */
  datatype SettingsRow = SettingsRow(
    hospitalName: Option<string>,
    notificationsEnabled: Option<bool>,
    autoLogout: Option<bool>,
    darkMode: Option<bool>)

  /** The mapping in `loadSettings`: `||` for the name, `!== false` and `=== true` for the flags. */
  function FromRow(row: SettingsRow): (s: Settings)
    ensures s.hospitalName != ""
    ensures row.hospitalName.Some? && row.hospitalName.value != "" ==> s.hospitalName == row.hospitalName.value
    ensures row.hospitalName.None? || row.hospitalName.value == "" ==> s.hospitalName == DefaultHospital
    ensures !s.notificationsEnabled <==> row.notificationsEnabled == Some(false)
    ensures !s.autoLogout <==> row.autoLogout == Some(false)
    ensures s.darkMode <==> row.darkMode == Some(true)
  {
    Settings(
      if row.hospitalName.Some? && row.hospitalName.value != "" then row.hospitalName.value else DefaultHospital,
      row.notificationsEnabled != Some(false),
      row.autoLogout != Some(false),
      row.darkMode == Some(true))
  }

  /** A row of nulls maps to the initial state. */
  lemma NullRowIsInitial()
    ensures FromRow(SettingsRow(None, None, None, None)) == Initial
  {
  }

  /** The record `saveSettings` upserts. */
  datatype SavedRecord = SavedRecord(
    userId: string,
    hospitalName: string,
    notificationsEnabled: bool,
    autoLogout: bool,
    darkMode: bool,
    updatedAt: string)

  /** The row a saved record reads back as. */
  function RowOf(r: SavedRecord): SettingsRow {
    SettingsRow(Some(r.hospitalName), Some(r.notificationsEnabled), Some(r.autoLogout), Some(r.darkMode))
  }

  function Save(userId: string, s: Settings, now: string): (r: SavedRecord)
    ensures r.userId == userId && r.updatedAt == now
    ensures RowOf(r) == SettingsRow(Some(s.hospitalName), Some(s.notificationsEnabled), Some(s.autoLogout), Some(s.darkMode))
  {
    SavedRecord(userId, s.hospitalName, s.notificationsEnabled, s.autoLogout, s.darkMode, now)
  }

  /** Saving and loading again gives the same settings, unless the name was emptied. */
  lemma SaveThenLoad(userId: string, s: Settings, now: string)
    ensures s.hospitalName != "" ==> FromRow(RowOf(Save(userId, s, now))) == s
    ensures s.hospitalName == "" ==> FromRow(RowOf(Save(userId, s, now))) == s.(hospitalName := DefaultHospital)
  {
  }

  /** How the `user_settings` query ends. */
  datatype Load = Row(row: SettingsRow) | NoRow | Failed(code: string) | Threw

  /** A profile id that is present and non-empty (`userProfile?.id`). */
  predicate HasId(profileId: Option<string>) {
    profileId.Some? && profileId.value != ""
  }

  /** The context's state. */
  class Store {
    var hospitalName: string
    var notificationsEnabled: bool
    var autoLogout: bool
    var darkMode: bool

    function Current(): Settings
      reads this
    {
      Settings(hospitalName, notificationsEnabled, autoLogout, darkMode)
    }

    constructor ()
      ensures Current() == Initial
    {
      hospitalName, notificationsEnabled, autoLogout, darkMode := DefaultHospital, true, true, false;
    }

    method SetHospitalName(name: string)
      modifies this`hospitalName
      ensures Current() == old(Current()).(hospitalName := name)
    {
      hospitalName := name;
    }

    method SetNotificationsEnabled(enabled: bool)
      modifies this`notificationsEnabled
      ensures Current() == old(Current()).(notificationsEnabled := enabled)
    {
      notificationsEnabled := enabled;
    }

    method SetAutoLogout(enabled: bool)
      modifies this`autoLogout
      ensures Current() == old(Current()).(autoLogout := enabled)
    {
      autoLogout := enabled;
    }

    method SetDarkMode(enabled: bool)
      modifies this`darkMode
      ensures Current() == old(Current()).(darkMode := enabled)
    {
      darkMode := enabled;
    }

    /**
     * `loadSettings`, with the query's outcome as input: only a returned row for a signed-in
     * profile changes anything; errors and the missing row leave the values as they were.
     */
    method LoadSettings(profileId: Option<string>, result: Load)
      modifies this
      ensures HasId(profileId) && result.Row? ==> Current() == FromRow(result.row)
      ensures !(HasId(profileId) && result.Row?) ==> Current() == old(Current())
    {
      if !HasId(profileId) {
        return;
      }
      match result {
        case Failed(code) =>
          return;
        case NoRow =>
        case Threw =>
        case Row(row) =>
          var s := FromRow(row);
          hospitalName := s.hospitalName;
          notificationsEnabled := s.notificationsEnabled;
          autoLogout := s.autoLogout;
          darkMode := s.darkMode;
      }
    }

    /** `saveSettings`: nothing without a profile id, else the record of the current values. */
    method SaveSettings(profileId: Option<string>, now: string) returns (record: Option<SavedRecord>)
      ensures record.Some? <==> HasId(profileId)
      ensures record.Some? ==> record.value == Save(profileId.value, Current(), now)
    {
      if !HasId(profileId) {
        return None;
      }
      record := Some(SavedRecord(profileId.value, hospitalName, notificationsEnabled, autoLogout, darkMode, now));
    }
  }
}
