# Settings persistence and lookup helpers of an Obsidian plugin template

This Dafny project models the part of the plugin template that has a contract
of its own:

- the generic settings store of the shared library (`Storage<T>`): an
  in-memory record seeded from defaults, loaded by spreading the persisted
  blob over the defaults, replaced wholesale by `saveSettings`, shallow-merged
  by `updateSettings`, and read back by `getSettings` / `getSetting`;
- the typed settings helpers: the default record, the `isValidSettings` type
  guard and `mergeSettings`;
- the dependency-injected `SettingsService`, whose load is guarded by
  `isValidSettings` and falls back to the exact defaults with a warning;
- the command-id guard `isValidCommandId` and the CSS class lookup
  `getCSSClass`.

Every asynchronous method is a pure transition over a state that pairs the
in-memory record with the host's persisted blob (`disk`). The host's
`loadData`/`saveData` primitives are the `Persistence` module; whether a call
resolves or rejects is an `Io` parameter, so the rejection paths are modelled:
a rejected load changes nothing, and a rejected save keeps the in-memory write
that happened before it (there is no rollback). Loaded blobs are JSON values
(`Json.Value`); object spread `{...v}` is modelled for every JSON value,
including strings and arrays, which spread into entries keyed "0", "1", …
(a string spreads one entry per Unicode character; see "## Left out").
The service's logger is an event trace (`SettingsService.LogEvent`).

Modules: `Wrappers` (Option/Result/Outcome), `Json`, `Persistence`,
`ShallowMerge` (`{...base, ...top}`), `Storage`, `SettingsTypes`,
`SettingsService`, `Commands`, `Styles`.

Behaviour of the code worth noting:

- `Storage.loadSettings` does no validation. A blob that is a string or has a
  mistyped `exampleSetting` is spread over the defaults, not replaced by them
  (`Storage.LoadSpreadsString`, `Storage.LoadKeepsMistypedValue`). Only the
  service falls back to the defaults.
- A save followed by a load gives back the saved record only when it holds
  every default key; otherwise the defaults fill the gaps
  (`Storage.SaveLoadRoundTrip`).
- `SettingsService.getSettings` returns the internal record itself, not a copy.

## Model

| member | source | states |
|---|---|---|
| Storage.New | src/shared/lib/storage.ts:25-30 | a new store holds exactly the given defaults and covers every default key |
| Storage.LoadSettings | src/shared/lib/storage.ts:36-40 | every key of the loaded blob takes its loaded value, every other default key keeps its default, no other keys appear; an absent or null blob yields exactly the defaults; the new record is returned; a rejected load changes nothing |
| Storage.SaveSettings | src/shared/lib/storage.ts:45-48 | the record becomes exactly the argument, unmerged, and is persisted verbatim; on rejection the record is still replaced and the blob is not |
| Storage.UpdateSettings | src/shared/lib/storage.ts:53-56 | keys of the partial take its values, every other key is unchanged, no key is dropped, and the persisted blob equals the new record |
| Storage.GetSetting | src/shared/lib/storage.ts:68-70 | a key's value is present exactly when the record returned by getSettings holds the key, and equals that entry |
| Storage.NewHoldsDefaults | src/shared/lib/storage.ts:25-40 | a new store reads back its defaults, and loading from an empty backend leaves them unchanged |
| Storage.CoversDefaultsKept | src/shared/lib/storage.ts:36-56 | a successful load always covers every default key, and an update never removes one |
| Storage.SaveThenGet | src/shared/lib/storage.ts:45-63 | saveSettings(x) then getSettings() gives x, and saving the same record twice equals saving it once |
| Storage.SaveLoadRoundTrip | src/shared/lib/storage.ts:36-48 | a saved record loads back with the defaults filled in, and unchanged when it already holds every default key |
| Storage.GetSettings | src/shared/lib/storage.ts:61-63 | the copy holds exactly the record's keys with the record's values, and every default key while the store covers its defaults |
| Storage.UpdateThenGet | src/shared/lib/storage.ts:53-63 | what getSettings() reads after updateSettings(p) is the previous record overridden by p; the key-by-key content is stated by Storage.UpdateSettings |
| Storage.UpdateIdempotent | src/shared/lib/storage.ts:53-56 | applying the same partial twice gives the same store (record and blob) as applying it once |
| Storage.UpdateEmpty | src/shared/lib/storage.ts:53-56 | an empty partial leaves the record unchanged and persists it as it is |
| Storage.UpdatesCompose | src/shared/lib/storage.ts:53-56 | two updates in sequence equal one update by their merge, so neither is lost |
| Storage.UpdateThenLoad | src/shared/lib/storage.ts:36-56 | after a successful update of a store that covers its defaults, a load reproduces the updated record |
| Storage.LoadKeepsMistypedValue | src/shared/lib/storage.ts:36-40 | a number persisted under exampleSetting is loaded as a number: the store does not check types |
| Storage.LoadSpreadsString | src/shared/lib/storage.ts:38 | a persisted string is spread into one entry per character keyed by its index; only index keys can differ from the defaults |
| Json.OwnEntries | src/shared/lib/storage.ts:38 | spreading an object copies its fields; an array spreads into its elements and a string into its one-character strings, keyed "0", "1", … by index; spreading null, a boolean or a number copies nothing |
| ShallowMerge.Merge | src/shared/lib/storage.ts:54 | the shallow merge has the union of keys, the top record wins on shared keys and the base keeps the rest |
| SettingsTypes.IsValidSettings | src/types/settings.ts:19-27 | false for every non-object and for null and arrays; for an object true exactly when exampleSetting holds a string; true implies truthy |
| SettingsTypes.MergeSettings | src/types/settings.ts:32-39 | every key of the partial comes from the partial, every other default key from the defaults, and nothing else appears |
| SettingsTypes.MergeSettingsEmpty | src/types/settings.ts:12-14 | merging an empty partial gives exactly the defaults |
| SettingsTypes.MergeSettingsCoversDefaults | src/types/settings.ts:35-38 | the merge result holds every default key |
| SettingsTypes.MergeSettingsIdempotent | src/types/settings.ts:32-39 | merging a merged record again changes nothing |
| SettingsTypes.MergeSettingsOfComplete | src/types/settings.ts:32-39 | a record that already has a string exampleSetting is its own merge |
| SettingsTypes.MergeSettingsHasShape | src/types/settings.ts:32-39 | merging a partial that the Partial type admits yields a string exampleSetting |
| SettingsService.New | src/core/SettingsService.ts:16-21 | a new service holds exactly the defaults, has logged nothing, and satisfies the record invariant |
| SettingsService.SaveSettings | src/core/SettingsService.ts:47-50 | the current record is persisted unchanged and "Settings saved" logged; a rejection changes nothing |
| SettingsService.UpdateSettings | src/core/SettingsService.ts:27-31 | keys of the partial take its values, others are unchanged; on success the full record is persisted and save then update are logged; on rejection the record is still changed but blob and log are not |
| SettingsService.LoadSettings | src/core/SettingsService.ts:33-45 | an accepted blob gives mergeSettings of its fields; an absent or invalid blob gives exactly the defaults after a warning; "Settings loaded" is logged on both paths; a rejected load changes nothing |
| SettingsService.TruthyGuardRedundant | src/core/SettingsService.ts:37 | the truthiness test in the load guard accepts exactly what isValidSettings accepts |
| SettingsService.LoadEstablishesValid | src/core/SettingsService.ts:37-42 | after any successful load exampleSetting holds a string, on both branches, and no error-level event is logged |
| SettingsService.LoadIgnoresMemory | src/core/SettingsService.ts:33-45 | the loaded record depends only on the persisted blob |
| SettingsService.UpdatePreservesValid | src/core/SettingsService.ts:27-29 | an update with a partial the type admits keeps exampleSetting a string, whether or not the save resolves |
| SettingsService.SavePreservesValid | src/core/SettingsService.ts:47-50 | saving keeps the record invariant |
| SettingsService.SaveLoadRoundTrip | src/core/SettingsService.ts:33-50 | a valid record survives a successful save followed by a load unchanged |
| SettingsService.GetSettings | src/core/SettingsService.ts:23-25 | the returned record is the current record, key for key and value for value, so it has a string exampleSetting while the record invariant holds |
| SettingsService.AcceptsBlob | src/core/SettingsService.ts:37 | the load guard accepts a blob exactly when it is present, an object, and holds a string exampleSetting |
| SettingsService.UpdateThenGet | src/core/SettingsService.ts:23-29 | what getSettings() reads after updateSettings(p) is the previous record overridden by p; the key-by-key content is stated by SettingsService.UpdateSettings |
| SettingsService.UpdateIdempotent | src/core/SettingsService.ts:27-29 | applying the same partial twice leaves the same record and blob as once |
| SettingsService.UpdatesCompose | src/core/SettingsService.ts:27-29 | two updates in sequence equal one update by their merge |
| SettingsService.UpdateEmpty | src/core/SettingsService.ts:27-29 | an empty partial leaves the record unchanged |
| Commands.Includes | src/types/commands.ts:39 | the scan finds the string exactly when the sequence contains it |
| Commands.IsValidCommandId | src/types/commands.ts:38-40 | true exactly for "open-example-modal" and "example-editor-command", false for every other string |
| Commands.CommandIdValues | src/types/commands.ts:11-16 | the values of COMMAND_IDS are exactly the ids of the CommandId type |
| Commands.CommandIdsDistinct | src/types/commands.ts:11-14 | no two entries of COMMAND_IDS share an id |
| Styles.Classes | src/styles/index.ts:12-19 | the modal table holds exactly example → "example-modal" and the settings table exactly container → "plugin-settings-container" |
| Styles.GetCSSClass | src/styles/index.ts:32-41 | succeeds exactly when the name is a key of the category's table, with a value stored in that table; otherwise fails naming the category and the name |
| Styles.NotFoundMessage | src/styles/index.ts:36-40 | a name missing from the category's table fails, and the error reads "CSS class <category>.<name> not found" |
| Styles.KnownClasses | src/styles/index.ts:12-19 | modal.example is "example-modal" and settings.container is "plugin-settings-container" |
| Styles.CategoriesAreSeparate | src/styles/index.ts:36-40 | a name from the other category's table is not found |
| Styles.ClassNamesIdentifyPath | src/styles/index.ts:12-19 | a found class name determines the category and name it was looked up by |

## Left out

- Host persistence: `loadData`/`saveData` are reduced to one stored JSON blob and a resolve-or-reject parameter; the host's file I/O and JSON serialisation are not modelled.
- Concurrency: overlapping `updateSettings` calls interleaving at `await` (the lost-update race) are not modelled; every operation is one sequential transition.
- Logger output: `src/core/Logger.ts` writes to the console; the model keeps only the sequence of logger calls.
- Storage.GetSetting: JavaScript property reads also find inherited prototype members (`toString`, …); the model reads own entries only and returns None for anything else.
- Styles.GetCSSClass: `name in classes` also holds for inherited prototype members such as "toString", for which the source returns a function rather than throwing; the model looks up own keys only.
- SettingsTypes.IsValidSettings: the property read sees own entries only; inherited members and the non-enumerable `length` of arrays are not JSON values and are not modelled, which does not change the result for `exampleSetting`.
- Partials whose keys are explicitly set to `undefined` are not modelled, because JSON values have no `undefined`; such a partial would erase a setting.
- Numbers are integers; floating point, `NaN` and `-0` (which affect truthiness) are left out.
- Aliasing: `SettingsService.getSettings` and `Storage.loadSettings` hand out the internal object, `Storage.saveSettings` keeps the caller's own object as its record (storage.ts:46), and `Storage.getSettings` copies only the top level (storage.ts:62), so nested values stay shared; `Storage` also keeps the caller's defaults object by reference (storage.ts:27) and spreads it again on every load (storage.ts:38), so mutating the exported `DEFAULT_SETTINGS` that the plugin entry point passes in would change later loads, which the fixed `defaults` field cannot express; a caller could mutate any of these, and immutable values cannot express that.
- Storage.LoadSpreadsString: a string spreads into one entry per Unicode character, not per UTF-16 code unit as in JavaScript, so a persisted string with characters outside the Basic Multilingual Plane gets fewer entries and shifted indices; Dafny's `char` cannot hold a lone surrogate.
- Json.OwnEntries: the same holds for spreading a string: one entry per Unicode character rather than per UTF-16 code unit.
- Storage.New / SettingsService.New: the plugin and logger references the constructors store are not modelled.
- UI adapters, command and ribbon registration, the plugin entry point, build and dev scripts, the `cn` class-name helper and declarations with no behaviour are not part of this model.
