/**
 * The typed settings record of the dependency-injected service: its one
 * declared key, its defaults, the runtime validity check on a loaded blob,
 * and the merge of a partial record over the defaults.
 */
module SettingsTypes {
  import opened Wrappers
  import opened Json
  import opened ShallowMerge

  /** A settings record: property name to value. */
  type Settings = map<string, Value>

  /** The one key the settings interface declares; its type is string. */
  const ExampleSetting: string := "exampleSetting"

  const DefaultSettings: Settings := map[ExampleSetting := Str("default value")]

  /** The record holds a string under `exampleSetting`, the shape the interface declares. */
  predicate HasSettingsShape(settings: Settings)
  {
    ExampleSetting in settings && settings[ExampleSetting].Str?
  }

  /** What the `Partial<PluginSettings>` type admits: `exampleSetting`, when given, is a string. */
  predicate IsTypedPartial(partial: Settings)
  {
    ExampleSetting in partial ==> partial[ExampleSetting].Str?
  }

  /**
   * `isValidSettings(settings)`: false for anything whose `typeof` is not
   * "object" and for `null`; otherwise whether its `exampleSetting`
   * property is a string.
   */
  function IsValidSettings(v: Value): (r: bool)
    ensures !v.Obj? ==> !r
    ensures v.Obj? ==> (r <==> HasSettingsShape(v.fields))
    ensures r ==> Truthy(v)
  {
    if TypeOf(v) != "object" || v == Null then
      false
    else
      match Field(v, ExampleSetting)
      case Some(Str(_)) => true
      case _ => false
  }

  /** `mergeSettings(partial)`: the defaults overridden by the keys of `partial`. */
  function MergeSettings(partial: Settings): (r: Settings)
    ensures r.Keys == DefaultSettings.Keys + partial.Keys
    ensures forall k :: k in partial ==> r[k] == partial[k]
    ensures forall k :: k in DefaultSettings && k !in partial ==> r[k] == DefaultSettings[k]
  {
    Merge(DefaultSettings, partial)
  }

  /** Merging nothing gives exactly the defaults. */
  lemma MergeSettingsEmpty()
    ensures MergeSettings(map[]) == DefaultSettings
  {
  }

  /** The merge result always holds every default key. */
  lemma MergeSettingsCoversDefaults(partial: Settings)
    ensures DefaultSettings.Keys <= MergeSettings(partial).Keys
  {
  }

  /** Merging twice is merging once. */
  lemma MergeSettingsIdempotent(partial: Settings)
    ensures MergeSettings(MergeSettings(partial)) == MergeSettings(partial)
  {
    MergeCovered(DefaultSettings, MergeSettings(partial));
  }

  /** A record that already has the settings shape is its own merge with the defaults. */
  lemma MergeSettingsOfComplete(settings: Settings)
    requires HasSettingsShape(settings)
    ensures MergeSettings(settings) == settings
  {
    MergeCovered(DefaultSettings, settings);
  }

  /** Merging a partial the type admits yields a record with the settings shape. */
  lemma MergeSettingsHasShape(partial: Settings)
    requires IsTypedPartial(partial)
    ensures HasSettingsShape(MergeSettings(partial))
  {
  }
}
