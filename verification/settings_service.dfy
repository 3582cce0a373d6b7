/**
 * The dependency-injected settings service: the same store shape as the
 * shared library's store, but a load is guarded by `isValidSettings` and
 * falls back to the exact defaults with a warning. Each asynchronous method
 * is one state transition; the logger is an event trace appended to.
 */
module SettingsService {
  import opened Wrappers
  import opened Json
  import opened Persistence
  import opened ShallowMerge
  import opened SettingsTypes

  datatype Level = Info | Warn | Error

  /** One logger call: its level, message and further arguments. */
  datatype LogEvent = LogEvent(level: Level, message: string, args: seq<Value>)

  const SavedEvent := LogEvent(Info, "Settings saved", [])
  const LoadedEvent := LogEvent(Info, "Settings loaded", [])
  const InvalidDataEvent := LogEvent(Warn, "Invalid settings data, using defaults", [])

  function UpdatedEvent(partial: Settings): LogEvent
  {
    LogEvent(Info, "Settings updated", [Obj(partial)])
  }

  /** The service's record, the host's persisted blob, and everything logged so far. */
  datatype Service = Service(settings: Settings, disk: Blob, log: seq<LogEvent>)

  /** The invariant the typed record promises: `exampleSetting` holds a string. */
  predicate Valid(s: Service)
  {
    HasSettingsShape(s.settings)
  }

  /** No error-level event was logged. */
  predicate NoErrors(log: seq<LogEvent>)
  {
    forall i :: 0 <= i < |log| ==> log[i].level != Error
  }

  /** `new SettingsService(plugin, logger)`: the record is a copy of the defaults. */
  function New(disk: Blob): (s: Service)
    ensures s.settings == DefaultSettings && s.disk == disk && s.log == []
    ensures Valid(s)
  {
    Service(DefaultSettings, disk, [])
  }

  /** `getSettings()`: the current record, which has the declared shape while the invariant holds. */
  function GetSettings(s: Service): (r: Settings)
    ensures Valid(s) ==> HasSettingsShape(r)
    ensures forall k :: k in r <==> k in s.settings
    ensures forall k :: k in r ==> r[k] == s.settings[k]
  {
    s.settings
  }

  /** `saveSettings()`: persists the current record and logs it, leaving the record alone. */
  function SaveSettings(s: Service, io: Io): (r: (Service, Outcome<IoError>))
    ensures r.0.settings == s.settings
    ensures io.Succeeds? ==> r.0.disk == Some(Obj(s.settings)) && r.0.log == s.log + [SavedEvent] && r.1 == Pass
    ensures io.Fails? ==> r.0 == s && r.1 == Fail(Rejected)
  {
    var (disk, outcome) := SaveData(s.disk, s.settings, io);
    match outcome
    case Fail(e) => (s, Fail(e))
    case Pass => (s.(disk := disk, log := s.log + [SavedEvent]), Pass)
  }

  /**
   * `updateSettings(newSettings)`: overrides the keys of the partial, keeps
   * every other key, persists the whole record, then logs the update. A
   * rejected save keeps the new record and logs nothing.
   */
  function UpdateSettings(s: Service, partial: Settings, io: Io): (r: (Service, Outcome<IoError>))
    ensures r.0.settings.Keys == s.settings.Keys + partial.Keys
    ensures forall k :: k in partial ==> r.0.settings[k] == partial[k]
    ensures forall k :: k in s.settings && k !in partial ==> r.0.settings[k] == s.settings[k]
    ensures io.Succeeds? ==>
      && r.0.disk == Some(Obj(r.0.settings))
      && r.0.log == s.log + [SavedEvent, UpdatedEvent(partial)]
      && r.1 == Pass
    ensures io.Fails? ==> r.0.disk == s.disk && r.0.log == s.log && r.1 == Fail(Rejected)
  {
    var merged := s.(settings := Merge(s.settings, partial));
    var (saved, outcome) := SaveSettings(merged, io);
    match outcome
    case Fail(e) => (saved, Fail(e))
    case Pass => (saved.(log := saved.log + [UpdatedEvent(partial)]), Pass)
  }

  /** The guard of a load: the blob is present, truthy and passes `isValidSettings`. */
  function AcceptsBlob(data: Blob): (r: bool)
    ensures r <==> data.Some? && data.value.Obj? && HasSettingsShape(data.value.fields)
  {
    data.Some? && Truthy(data.value) && IsValidSettings(data.value)
  }

  /**
   * `loadSettings()`: a valid blob is merged over the defaults; an absent
   * or invalid one is replaced by exactly the defaults with a warning.
   * Either way "Settings loaded" is logged. A rejected load changes nothing.
   */
  function LoadSettings(s: Service, io: Io): (r: (Service, Outcome<IoError>))
    ensures io.Fails? ==> r.0 == s && r.1 == Fail(Rejected)
    ensures r.0.disk == s.disk
    ensures io.Succeeds? && AcceptsBlob(s.disk) ==>
      && r.0.settings == MergeSettings(s.disk.value.fields)
      && r.0.log == s.log + [LoadedEvent]
      && r.1 == Pass
    ensures io.Succeeds? && !AcceptsBlob(s.disk) ==>
      && r.0.settings == DefaultSettings
      && r.0.log == s.log + [InvalidDataEvent, LoadedEvent]
      && r.1 == Pass
  {
    match LoadData(s.disk, io)
    case Failure(e) => (s, Fail(e))
    case Success(data) =>
      if data.Some? && Truthy(data.value) && IsValidSettings(data.value) then
        (s.(settings := MergeSettings(OwnEntries(data.value)), log := s.log + [LoadedEvent]), Pass)
      else
        (s.(settings := DefaultSettings, log := s.log + [InvalidDataEvent, LoadedEvent]), Pass)
  }

  /** The truthiness test in the load guard never decides anything: validity alone does. */
  lemma TruthyGuardRedundant(data: Blob)
    ensures AcceptsBlob(data) <==> data.Some? && IsValidSettings(data.value)
  {
  }

  /**
   * After any successful load the record has the settings shape, whatever
   * it held before and whatever was persisted, and no error was logged.
   */
  lemma LoadEstablishesValid(s: Service)
    requires NoErrors(s.log)
    ensures Valid(LoadSettings(s, Succeeds).0)
    ensures NoErrors(LoadSettings(s, Succeeds).0.log)
  {
  }

  /** A load's result depends only on the persisted blob, not on the record it replaces. */
  lemma LoadIgnoresMemory(s: Service, t: Service)
    requires s.disk == t.disk
    ensures GetSettings(LoadSettings(s, Succeeds).0) == GetSettings(LoadSettings(t, Succeeds).0)
  {
  }

  /** An update with a partial the type admits keeps the record valid, whether or not the save resolves. */
  lemma UpdatePreservesValid(s: Service, partial: Settings, io: Io)
    requires Valid(s) && IsTypedPartial(partial)
    ensures Valid(UpdateSettings(s, partial, io).0)
  {
  }

  /** Saving keeps the record valid. */
  lemma SavePreservesValid(s: Service, io: Io)
    requires Valid(s)
    ensures Valid(SaveSettings(s, io).0)
  {
  }

  /** A valid record survives a successful save followed by a load unchanged. */
  lemma SaveLoadRoundTrip(s: Service)
    requires Valid(s)
    ensures GetSettings(LoadSettings(SaveSettings(s, Succeeds).0, Succeeds).0) == GetSettings(s)
  {
  }

  /** `updateSettings(p)` then `getSettings()` yields the previous record overridden by `p`. */
  lemma UpdateThenGet(s: Service, p: Settings, io: Io)
    ensures GetSettings(UpdateSettings(s, p, io).0) == Merge(GetSettings(s), p)
  {
  }

  /** Applying the same update twice leaves the same record and blob as applying it once. */
  lemma UpdateIdempotent(s: Service, p: Settings)
    ensures GetSettings(UpdateSettings(UpdateSettings(s, p, Succeeds).0, p, Succeeds).0)
         == GetSettings(UpdateSettings(s, p, Succeeds).0)
    ensures UpdateSettings(UpdateSettings(s, p, Succeeds).0, p, Succeeds).0.disk
         == UpdateSettings(s, p, Succeeds).0.disk
  {
    MergeIdempotent(s.settings, p);
  }

  /** Two updates in sequence keep both: the record is one update by their merge. */
  lemma UpdatesCompose(s: Service, p: Settings, q: Settings, io: Io)
    ensures GetSettings(UpdateSettings(UpdateSettings(s, p, io).0, q, io).0)
         == GetSettings(UpdateSettings(s, Merge(p, q), io).0)
  {
    MergeSequential(s.settings, p, q);
  }

  /** An empty update leaves the record unchanged. */
  lemma UpdateEmpty(s: Service, io: Io)
    ensures GetSettings(UpdateSettings(s, map[], io).0) == GetSettings(s)
  {
    MergeEmpty(s.settings);
  }
}
