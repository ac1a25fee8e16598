/**
 * The settings half of the application object (miniprogram/app.js): the
 * `userSettings` record both pages share, its defaults, and the shallow
 * merge of a stored blob over them at launch. The platform's key-value
 * storage is the field `storage` of `App`.
 */
module AppState {
  import opened Wrappers
  import opened Theory

  /** A settings value: the record holds strings and booleans. */
  datatype SettingValue = Text(text: string) | Flag(flag: bool)

  /** A settings object, field name to value. */
  type Settings = map<string, SettingValue>

  /** The initial `globalData.userSettings`. */
  const DefaultSettings: Settings := map[
    "selectedKey" := Text("C大调"),
    "selectedScale" := Text("major"),
    "showNoteNames" := Flag(true),
    "showIntervals" := Flag(false),
    "darkMode" := Flag(false)]

  /**
   * `{ ...current, ...stored }` when a blob was stored, `current` otherwise:
   * every stored field overrides, every field only in `current` keeps its
   * value, and nothing else appears.
   */
  function MergeSettings(current: Settings, stored: Option<Settings>): (r: Settings)
    ensures stored.None? ==> r == current
    ensures stored.Some? ==> r.Keys == current.Keys + stored.value.Keys
    ensures stored.Some? ==> forall k :: k in stored.value ==> r[k] == stored.value[k]
    ensures forall k :: k in current && (stored.None? || k !in stored.value) ==> r[k] == current[k]
  {
    if stored.Some? then current + stored.value else current
  }

  /** Merging what was just saved changes nothing: saving then loading is the identity. */
  lemma MergeSaved(s: Settings)
    ensures MergeSettings(s, Some(s)) == s
  {
  }

  /** Merging is idempotent: loading the same blob twice is loading it once. */
  lemma MergeTwice(current: Settings, stored: Option<Settings>)
    ensures MergeSettings(MergeSettings(current, stored), stored) == MergeSettings(current, stored)
  {
  }

  /** A stored blob that lacks a field leaves its default in place. */
  lemma MergeKeepsDefault(stored: Settings, field: string)
    requires field in DefaultSettings && field !in stored
    ensures MergeSettings(DefaultSettings, Some(stored))[field] == DefaultSettings[field]
  {
  }

  /** The application object: its session settings and the persisted blob. */
  class App {
    /** `globalData.circleOfFifths`, which nothing reassigns. */
    const circleOfFifths: seq<Key>
    /** `globalData.guitarStrings`, which nothing reassigns. */
    const guitarStrings: seq<GuitarString>
    /** `globalData.userSettings`. */
    var userSettings: Settings
    /** What `wx.getStorageSync('userSettings')` would return; `None` when nothing was stored. */
    var storage: Option<Settings>

    constructor (persisted: Option<Settings>)
      ensures circleOfFifths == Catalog() && guitarStrings == Strings()
      ensures userSettings == DefaultSettings && storage == persisted
    {
      circleOfFifths := Catalog();
      guitarStrings := Strings();
      userSettings := DefaultSettings;
      storage := persisted;
    }

    /** `onLaunch`, which only loads the settings. */
    method OnLaunch()
      modifies this`userSettings
      ensures userSettings == MergeSettings(old(userSettings), storage)
    {
      LoadUserSettings();
    }

    /** `loadUserSettings`: merge the stored blob, if any, over the current settings. */
    method LoadUserSettings()
      modifies this`userSettings
      ensures userSettings == MergeSettings(old(userSettings), storage)
    {
      var stored := storage;
      if stored.Some? {
        userSettings := userSettings + stored.value;
      }
    }

    /** `saveUserSettings`: write the whole settings record to storage. */
    method SaveUserSettings()
      modifies this`storage
      ensures storage == Some(userSettings)
    {
      storage := Some(userSettings);
    }
  }
}
