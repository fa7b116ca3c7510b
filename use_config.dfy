/** The configuration store (src/hooks/use-config.ts): one `Config` record in
    component state, mirrored into the `'config'` slot of local storage.

    The JSON text in the slot is modelled by the record it encodes
    (`Serialized`) or, for text that `JSON.parse` rejects, by that text
    (`Malformed`). Clock readings are parameters. */
module UseConfig {
  import opened Wrappers

  datatype Config = Config(
    id: int,
    url: string,
    apiKey: string,
    language: string,
    lastModification: string)

  /** The argument of `updateConfig`: a `Config` without `id` and
      `lastModification`. */
  datatype ConfigUpdate = ConfigUpdate(url: string, apiKey: string, language: string)

  /** What `localStorage.getItem('config')` returns when the slot is set. */
  datatype Stored = Serialized(config: Config) | Malformed(text: string)

  /** `initialConfig`, stamped with the time the module was loaded. */
  function InitialConfig(moduleLoadTime: string): (c: Config)
    ensures c.id == 1 && c.language == "en" && c.lastModification == moduleLoadTime
    ensures c.url == "" && c.apiKey == ""
  {
    Config(1, "", "", "en", moduleLoadTime)
  }

  /** Whether the load effect treats the slot as set: it holds something
      other than the empty string. The JSON text of a record is never empty. */
  predicate Truthy(slot: Option<Stored>): (b: bool)
    ensures b <==> slot != None && slot != Some(Malformed(""))
  {
    slot.Some? && (slot.value.Serialized? || slot.value.text != "")
  }

  /** The record `updateConfig` writes: the current one with the three
      submitted fields replaced and the timestamp set to `now`. */
  function Merge(config: Config, update: ConfigUpdate, now: string): (r: Config)
    ensures r.id == config.id
    ensures r.url == update.url && r.apiKey == update.apiKey && r.language == update.language
    ensures r.lastModification == now
  {
    config.(url := update.url, apiKey := update.apiKey, language := update.language, lastModification := now)
  }

  /** An update forgets everything of the previous record but its `id`: the
      previous URL, token, language and timestamp do not show through. */
  lemma MergeForgetsPrevious(a: Config, b: Config, update: ConfigUpdate, now: string)
    requires a.id == b.id
    ensures Merge(a, update, now) == Merge(b, update, now)
  {
  }

  /** Of two updates in a row only the later one shows. */
  lemma MergeLatestWins(c: Config, first: ConfigUpdate, t1: string, second: ConfigUpdate, t2: string)
    ensures Merge(Merge(c, first, t1), second, t2) == Merge(c, second, t2)
  {
  }

  /** Submitting the current URL and token with a new language changes only
      the language and the timestamp. */
  lemma MergeOnlyLanguage(c: Config, language: string, now: string)
    ensures Merge(c, ConfigUpdate(c.url, c.apiKey, language), now)
         == c.(language := language, lastModification := now)
  {
  }

  class ConfigStore {
    /** The module-level `initialConfig`. */
    const initialConfig: Config
    /** The `config` state of the hook. */
    var config: Config
    /** The `'config'` slot of local storage. */
    var stored: Option<Stored>

    /** The persisted record is the in-memory one. */
    ghost predicate Synced()
      reads this
    {
      stored == Some(Serialized(config))
    }

    /** `useState(initialConfig)`, over whatever local storage already holds. */
    constructor (storage: Option<Stored>, moduleLoadTime: string)
      ensures initialConfig == InitialConfig(moduleLoadTime)
      ensures config == initialConfig && stored == storage
    {
      initialConfig := InitialConfig(moduleLoadTime);
      config := InitialConfig(moduleLoadTime);
      stored := storage;
    }

    /** The mount-time effect. A set slot is parsed and becomes the state,
        with nothing written; an unset (or empty) slot receives
        `initialConfig`, which also becomes the state. Text that is not JSON
        makes `JSON.parse` throw: the effect stops (`parsed` is false) and
        nothing changes. */
    method Load() returns (parsed: bool)
      modifies this
      ensures Truthy(old(stored)) && old(stored).value.Serialized? ==>
        parsed && config == old(stored).value.config && stored == old(stored)
      ensures Truthy(old(stored)) && old(stored).value.Malformed? ==>
        !parsed && config == old(config) && stored == old(stored)
      ensures !Truthy(old(stored)) ==>
        parsed && config == initialConfig && stored == Some(Serialized(initialConfig))
      ensures parsed ==> Synced()
      ensures Truthy(stored)
    {
      var storedConfig := stored;
      if Truthy(storedConfig) {
        match storedConfig.value {
          case Serialized(c) =>
            config := c;
            parsed := true;
          case Malformed(_) =>
            parsed := false;
        }
      } else {
        stored := Some(Serialized(initialConfig));
        config := initialConfig;
        parsed := true;
      }
    }

    /** `updateConfig`: merges the three submitted fields over the current
        record, keeping `id` and stamping `now`, then writes the result to
        local storage and to the state. */
    method UpdateConfig(update: ConfigUpdate, now: string)
      modifies this
      ensures config == Merge(old(config), update, now)
      ensures Synced()
    {
      var updatedConfig := Merge(config, update, now);
      stored := Some(Serialized(updatedConfig));
      config := updatedConfig;
    }
  }

  /** Mounting twice with no write in between: the second load takes the
      stored branch, writes nothing, and ends with the configuration the
      first one produced. */
  method LoadTwice(store: ConfigStore) returns (first: Config, second: Config)
    modifies store
    ensures first == second && store.config == second
    ensures !Truthy(old(store.stored)) ==> first == store.initialConfig
    ensures store.stored == if Truthy(old(store.stored)) then old(store.stored)
                            else Some(Serialized(store.initialConfig))
  {
    var _ := store.Load();
    first := store.config;
    ghost var slot := store.stored;
    assert Truthy(slot);
    var _ := store.Load();
    second := store.config;
    assert store.stored == slot;
  }
}
