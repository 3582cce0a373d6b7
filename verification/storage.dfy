/**
 * The generic settings store of the shared library: an in-memory record
 * seeded from defaults, loaded by spreading the persisted blob over the
 * defaults, and written back on every save and update. Each asynchronous
 * method is one state transition; the host backend is the `disk` field.
 */
module Storage {
  import opened Wrappers
  import opened Json
  import opened Persistence
  import opened ShallowMerge

  /** A settings record: property name to value. */
  type Settings = map<string, Value>

  /** The record the plugin entry point hands to the store. */
  const DefaultSettings: Settings := map["exampleSetting" := Str("default value")]

  /** The store's state together with the host's persisted blob. */
  datatype Store = Store(defaults: Settings, settings: Settings, disk: Blob)

  /** The store holds every key of its defaults. */
  predicate CoversDefaults(s: Store)
  {
    s.defaults.Keys <= s.settings.Keys
  }

  /** `new Storage(plugin, defaultSettings)`: the record starts as a copy of the defaults. */
  function New(defaults: Settings, disk: Blob): (s: Store)
    ensures s.settings == defaults && s.defaults == defaults
    ensures s.disk == disk
    ensures CoversDefaults(s)
  {
    Store(defaults, defaults, disk)
  }

  /**
   * `loadSettings()`: spreads the loaded blob over the defaults and returns
   * the new record. A rejected load leaves the store untouched.
   */
  function LoadSettings(s: Store, io: Io): (r: (Store, Result<Settings, IoError>))
    ensures io.Fails? ==> r.0 == s && r.1 == Failure(Rejected)
    ensures io.Succeeds? ==> r.1 == Success(r.0.settings)
    ensures r.0.defaults == s.defaults && r.0.disk == s.disk
    ensures io.Succeeds? ==> r.0.settings.Keys == s.defaults.Keys + Spread(s.disk).Keys
    ensures io.Succeeds? ==>
      forall k :: k in Spread(s.disk) ==> r.0.settings[k] == Spread(s.disk)[k]
    ensures io.Succeeds? ==>
      forall k :: k in s.defaults && k !in Spread(s.disk) ==> r.0.settings[k] == s.defaults[k]
    ensures io.Succeeds? && (s.disk.None? || s.disk == Some(Null)) ==> r.0.settings == s.defaults
  {
    match LoadData(s.disk, io)
    case Failure(e) => (s, Failure(e))
    case Success(data) =>
      var settings := Merge(s.defaults, Spread(data));
      (s.(settings := settings), Success(settings))
  }

  /**
   * `saveSettings(settings)`: replaces the record wholesale, then persists
   * it. The in-memory write happens before the host call and is kept if
   * the call rejects.
   */
  function SaveSettings(s: Store, settings: Settings, io: Io): (r: (Store, Outcome<IoError>))
    ensures r.0.settings == settings && r.0.defaults == s.defaults
    ensures io.Succeeds? ==> r.0.disk == Some(Obj(settings)) && r.1 == Pass
    ensures io.Fails? ==> r.0.disk == s.disk && r.1 == Fail(Rejected)
  {
    var (disk, outcome) := SaveData(s.disk, settings, io);
    (Store(s.defaults, settings, disk), outcome)
  }

  /**
   * `updateSettings(partial)`: overrides the keys of `partial`, keeps every
   * other key, and persists the whole new record.
   */
  function UpdateSettings(s: Store, partial: Settings, io: Io): (r: (Store, Outcome<IoError>))
    ensures r.0.defaults == s.defaults
    ensures r.0.settings.Keys == s.settings.Keys + partial.Keys
    ensures forall k :: k in partial ==> r.0.settings[k] == partial[k]
    ensures forall k :: k in s.settings && k !in partial ==> r.0.settings[k] == s.settings[k]
    ensures io.Succeeds? ==> r.0.disk == Some(Obj(r.0.settings)) && r.1 == Pass
    ensures io.Fails? ==> r.0.disk == s.disk && r.1 == Fail(Rejected)
  {
    var settings := Merge(s.settings, partial);
    var (disk, outcome) := SaveData(s.disk, settings, io);
    (Store(s.defaults, settings, disk), outcome)
  }

  /** `getSettings()`: a copy of the current record. */
  function GetSettings(s: Store): (r: Settings)
    ensures r.Keys == s.settings.Keys
    ensures forall k :: k in r ==> r[k] == s.settings[k]
    ensures CoversDefaults(s) ==> s.defaults.Keys <= r.Keys
  {
    s.settings
  }

  /** `getSetting(key)`: the value under `key`, or `undefined` (None) when the record lacks it. */
  function GetSetting(s: Store, key: string): (r: Option<Value>)
    ensures r.Some? <==> key in GetSettings(s)
    ensures r.Some? ==> r.value == GetSettings(s)[key]
  {
    if key in s.settings then Some(s.settings[key]) else None
  }

  /** A new store reads back exactly its defaults, and loading an empty backend keeps them. */
  lemma NewHoldsDefaults(defaults: Settings)
    ensures GetSettings(New(defaults, None)) == defaults
    ensures GetSettings(LoadSettings(New(defaults, None), Succeeds).0) == defaults
  {
  }

  /** Loading and updating keep every default key present; a load only ever adds keys to the defaults. */
  lemma CoversDefaultsKept(s: Store, partial: Settings, io: Io)
    ensures CoversDefaults(s) || io.Succeeds? ==> CoversDefaults(LoadSettings(s, io).0)
    ensures CoversDefaults(s) ==> CoversDefaults(UpdateSettings(s, partial, io).0)
  {
  }

  /** `saveSettings(x)` followed by `getSettings()` gives `x`; saving twice equals saving once. */
  lemma SaveThenGet(s: Store, x: Settings, io: Io)
    ensures GetSettings(SaveSettings(s, x, io).0) == x
    ensures SaveSettings(SaveSettings(s, x, io).0, x, io) == SaveSettings(s, x, io)
  {
  }

  /**
   * A successful save followed by a load gives the saved record with the
   * defaults filled in, and exactly the saved record when it already holds
   * every default key.
   */
  lemma SaveLoadRoundTrip(s: Store, x: Settings)
    ensures GetSettings(LoadSettings(SaveSettings(s, x, Succeeds).0, Succeeds).0) == Merge(s.defaults, x)
    ensures s.defaults.Keys <= x.Keys ==>
      GetSettings(LoadSettings(SaveSettings(s, x, Succeeds).0, Succeeds).0) == x
  {
    if s.defaults.Keys <= x.Keys {
      MergeCovered(s.defaults, x);
    }
  }

  /** `updateSettings(p)` then `getSettings()` yields the previous record overridden by `p`. */
  lemma UpdateThenGet(s: Store, p: Settings, io: Io)
    ensures GetSettings(UpdateSettings(s, p, io).0) == Merge(GetSettings(s), p)
  {
  }

  /** Applying the same update twice gives the same store as applying it once. */
  lemma UpdateIdempotent(s: Store, p: Settings, io: Io)
    ensures UpdateSettings(UpdateSettings(s, p, io).0, p, io) == UpdateSettings(s, p, io)
  {
    MergeIdempotent(s.settings, p);
  }

  /** An empty update leaves the record unchanged and persists it as it is. */
  lemma UpdateEmpty(s: Store)
    ensures GetSettings(UpdateSettings(s, map[], Succeeds).0) == GetSettings(s)
    ensures UpdateSettings(s, map[], Succeeds).0.disk == Some(Obj(GetSettings(s)))
  {
    MergeEmpty(s.settings);
  }

  /** Two updates in sequence keep both: the result is one update by their merge. */
  lemma UpdatesCompose(s: Store, p: Settings, q: Settings, io: Io)
    ensures GetSettings(UpdateSettings(UpdateSettings(s, p, io).0, q, io).0)
         == GetSettings(UpdateSettings(s, Merge(p, q), io).0)
  {
    MergeSequential(s.settings, p, q);
  }

  /** A successful update persists a blob that loads back to the updated record. */
  lemma UpdateThenLoad(s: Store, p: Settings)
    requires CoversDefaults(s)
    ensures GetSettings(LoadSettings(UpdateSettings(s, p, Succeeds).0, Succeeds).0)
         == GetSettings(UpdateSettings(s, p, Succeeds).0)
  {
    MergeCovered(s.defaults, UpdateSettings(s, p, Succeeds).0.settings);
  }

  /** The store does not check value types: a number persisted under a string setting is loaded as is. */
  lemma LoadKeepsMistypedValue()
    ensures GetSetting(LoadSettings(New(DefaultSettings, Some(Obj(map["exampleSetting" := Num(5)]))), Succeeds).0,
                       "exampleSetting") == Some(Num(5))
  {
  }

  /**
   * A persisted string is not rejected: it is spread into one entry per
   * character, keyed by the character's index, over the defaults.
   */
  lemma LoadSpreadsString(s: Store, text: string)
    requires s.disk == Some(Str(text))
    ensures forall i :: 0 <= i < |text| ==>
      GetSetting(LoadSettings(s, Succeeds).0, IndexKey(i)) == Some(Str([text[i]]))
    ensures forall k :: k in s.defaults && GetSetting(LoadSettings(s, Succeeds).0, k) != Some(s.defaults[k]) ==>
      exists i :: 0 <= i < |text| && k == IndexKey(i)
  {
  }
}
