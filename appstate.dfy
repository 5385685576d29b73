/**
 * The application-wide state: the configuration being edited, the audio
 * switches and the saved-configuration list as last read from storage.
 */
module AppState {
  import opened Types
  import opened Text
  import opened Persistence

  /** `Partial<AudioSettings>`: each switch may be supplied or not. */
  datatype PartialSettings = PartialSettings(sound: Option<bool>, vibration: Option<bool>)

  /** `{ ...settings, ...partial }`: the supplied switches win, the others stay. */
  function Merge(settings: AudioSettings, partial: PartialSettings): (r: AudioSettings)
    ensures partial.sound.Some? ==> r.sound == partial.sound.value
    ensures partial.sound.None? ==> r.sound == settings.sound
    ensures partial.vibration.Some? ==> r.vibration == partial.vibration.value
    ensures partial.vibration.None? ==> r.vibration == settings.vibration
  {
    AudioSettings(
      if partial.sound.Some? then partial.sound.value else settings.sound,
      if partial.vibration.Some? then partial.vibration.value else settings.vibration)
  }

  /** Merging the same partial twice is merging it once; an empty one changes nothing. */
  lemma MergeLaws(settings: AudioSettings, partial: PartialSettings)
    ensures Merge(Merge(settings, partial), partial) == Merge(settings, partial)
    ensures Merge(settings, PartialSettings(None, None)) == settings
    ensures Merge(settings, PartialSettings(Some(settings.sound), Some(settings.vibration))) == settings
  {
  }

  /** Whether `saveCurrentConfig(name)` goes ahead: a non-blank name and at least one group. */
  predicate SaveAllowed(name: string, config: WorkoutConfig)
  {
    Trim(name) != [] && |config.groups| > 0
  }

  /** A blank name is exactly one made of whitespace only. */
  lemma SaveGuard(name: string, config: WorkoutConfig)
    ensures SaveAllowed(name, config) <==> !AllTrimmable(name) && |config.groups| > 0
  {
    TrimEmptyIff(name);
  }

  class GlobalState {
    var config: WorkoutConfig
    var settings: AudioSettings
    var savedConfigs: seq<SavedConfig>
    /** The local-storage slot the saved list is read from and written to. */
    const store: Store

    /** The initial state: no groups, sound on, vibration off, the saved list as stored. */
    constructor (store: Store)
      ensures this.store == store
      ensures config == WorkoutConfig([]) && settings == AudioSettings(true, false)
      ensures savedConfigs == LoadConfigs(store)
    {
      this.store := store;
      config := WorkoutConfig([]);
      settings := AudioSettings(true, false);
      savedConfigs := LoadConfigs(store);
    }

    method UpdateConfig(newConfig: WorkoutConfig)
      modifies this
      ensures config == newConfig && settings == old(settings) && savedConfigs == old(savedConfigs)
    {
      config := newConfig;
    }

    method UpdateSettings(newSettings: PartialSettings)
      modifies this
      ensures settings == Merge(old(settings), newSettings)
      ensures config == old(config) && savedConfigs == old(savedConfigs)
    {
      settings := Merge(settings, newSettings);
    }

    /**
     * `saveCurrentConfig(name)`: with a blank name or no groups nothing
     * happens; otherwise the configuration is saved under the trimmed name
     * and the saved list is read back from storage. When the write throws
     * (no local storage) the list is not reread.
     */
    method SaveCurrentConfig(name: string, idTime: nat, createdAt: int)
      modifies this, store
      ensures config == old(config) && settings == old(settings)
      ensures !SaveAllowed(name, old(config)) ==> savedConfigs == old(savedConfigs) && store.slot == old(store.slot)
      ensures SaveAllowed(name, old(config)) && store.hasWindow ==>
                && store.slot == Entries(SavedList(old(LoadConfigs(store)),
                                                   SavedConfig(NatToString(idTime), Trim(name), config, createdAt)))
                && savedConfigs == LoadConfigs(store)
      ensures SaveAllowed(name, old(config)) && !store.hasWindow ==>
                savedConfigs == old(savedConfigs) && store.slot == old(store.slot)
    {
      if Trim(name) == [] || |config.groups| == 0 {
        return;
      }
      var written := SaveConfig(store, Trim(name), config, idTime, createdAt);
      if written.None? {
        return;
      }
      savedConfigs := LoadConfigs(store);
    }

    /** `deleteSavedConfig(id)`: the stored list loses every entry with that id and is read back. */
    method DeleteSavedConfig(id: string)
      modifies this, store
      ensures config == old(config) && settings == old(settings)
      ensures store.hasWindow ==>
                store.slot == Entries(WithoutId(old(LoadConfigs(store)), id))
                && savedConfigs == LoadConfigs(store)
                && forall c :: c in savedConfigs ==> c.id != id
      ensures !store.hasWindow ==> savedConfigs == old(savedConfigs) && store.slot == old(store.slot)
    {
      var written := DeleteConfig(store, id);
      if written.None? {
        return;
      }
      savedConfigs := LoadConfigs(store);
    }

    /**
     * `loadSavedConfig(id)`: true, with the configuration of the first stored
     * entry with that id made current, exactly when there is one; otherwise
     * false and nothing changes.
     */
    method LoadSavedConfig(id: string) returns (found: bool)
      modifies this
      ensures found <==> LoadConfigById(store, id).Some?
      ensures found ==> config == LoadConfigById(store, id).value
      ensures !found ==> config == old(config)
      ensures settings == old(settings) && savedConfigs == old(savedConfigs)
    {
      var configs := LoadConfigs(store);
      var i := FindById(configs, id);
      if i.Some? {
        config := configs[i.value].config;
        return true;
      }
      return false;
    }
  }
}
