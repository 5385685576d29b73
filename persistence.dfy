/**
 * The saved-configuration list kept under one key of the browser's local
 * storage: the newest entry first, at most five, deletable and findable by id.
 *
 * The storage slot is a `Store` object; what it holds is one of the four
 * things `loadConfigs` can meet. JSON encoding is taken to be lossless, so
 * a stored list reads back as the list that was written.
 */
module Persistence {
  import opened Types
  import opened Text

  /** At most this many configurations are kept. */
  const MaxSaved: nat := 5

  /** What `localStorage.getItem(STORAGE_KEY)` may yield, as `loadConfigs` sees it. */
  datatype Stored =
    | Missing                            // null or the empty string
    | Malformed                          // `JSON.parse` throws
    | NotArray                           // parses, but not to an array
    | Entries(items: seq<SavedConfig>)   // a stored list

  /** The storage slot the list lives in, the one under the key "workout_timer_configs". */
  class Store {
    /** `typeof window !== 'undefined'`: local storage exists. */
    const hasWindow: bool
    var slot: Stored

    constructor (hasWindow: bool, slot: Stored)
      ensures this.hasWindow == hasWindow && this.slot == slot
    {
      this.hasWindow := hasWindow;
      this.slot := slot;
    }
  }

  /** `loadConfigs()`: the stored list, or nothing in every other case. */
  function LoadConfigs(store: Store): (r: seq<SavedConfig>)
    reads store
    ensures !store.hasWindow ==> r == []
    ensures store.slot.Missing? || store.slot.Malformed? || store.slot.NotArray? ==> r == []
    ensures store.hasWindow && store.slot.Entries? ==> r == store.slot.items
  {
    if !store.hasWindow then []
    else match store.slot
      case Entries(items) => items
      case _ => []
  }

  /**
   * The list `saveConfig` keeps: the new entry in front of the old ones,
   * cut to the first five.
   */
  function SavedList(configs: seq<SavedConfig>, entry: SavedConfig): (r: seq<SavedConfig>)
    ensures |r| == if |configs| + 1 < MaxSaved then |configs| + 1 else MaxSaved
    ensures r[0] == entry
    ensures r[1..] == configs[..|r| - 1]
  {
    var all := [entry] + configs;
    if |all| <= MaxSaved then all else all[..MaxSaved]
  }

  /** `configs.filter(c => c.id !== id)`. */
  function WithoutId(configs: seq<SavedConfig>, id: string): (r: seq<SavedConfig>)
    ensures SubsequenceOf(r, configs)
    ensures forall c :: c in r <==> c in configs && c.id != id
    ensures forall c :: multiset(r)[c] == if c.id != id then multiset(configs)[c] else 0
    ensures (forall c :: c in configs ==> c.id != id) ==> r == configs
  {
    if configs == [] then []
    else
      assert configs == [configs[0]] + configs[1..];
      if configs[0].id != id then [configs[0]] + WithoutId(configs[1..], id)
      else WithoutId(configs[1..], id)
  }

  /** `a` is `b` with some entries left out, the rest in their order. */
  predicate SubsequenceOf<T(==)>(a: seq<T>, b: seq<T>)
    decreases |b|
  {
    a == [] || (b != [] && ((a[0] == b[0] && SubsequenceOf(a[1..], b[1..])) || SubsequenceOf(a, b[1..])))
  }

  /** `configs.find(c => c.id === id)`: the position of the first entry with that id. */
  function FindById(configs: seq<SavedConfig>, id: string): (r: Option<nat>)
    ensures r.None? <==> forall i :: 0 <= i < |configs| ==> configs[i].id != id
    ensures r.Some? ==>
              && r.value < |configs| && configs[r.value].id == id
              && forall i :: 0 <= i < r.value ==> configs[i].id != id
  {
    if configs == [] then None
    else if configs[0].id == id then Some(0)
    else
      var rest := FindById(configs[1..], id);
      if rest.None? then None else Some(rest.value + 1)
  }

  /**
   * `saveConfig(name, config)`: prepends a new entry whose id is the decimal
   * form of the clock at `idTime` and whose creation time is `createdAt`
   * (the source reads the clock twice), keeps the first five, writes them
   * and returns them. Without local storage the write throws; that outcome
   * is `None`, with nothing written.
   */
  method SaveConfig(store: Store, name: string, config: WorkoutConfig, idTime: nat, createdAt: int)
    returns (r: Option<seq<SavedConfig>>)
    modifies store
    ensures !store.hasWindow ==> r.None? && store.slot == old(store.slot)
    ensures store.hasWindow ==>
              && r == Some(SavedList(old(LoadConfigs(store)), SavedConfig(NatToString(idTime), name, config, createdAt)))
              && store.slot == Entries(r.value)
  {
    var configs := LoadConfigs(store);
    var newConfig := SavedConfig(NatToString(idTime), name, config, createdAt);
    configs := [newConfig] + configs;
    var trimmed := if |configs| <= MaxSaved then configs else configs[..MaxSaved];
    if !store.hasWindow {
      return None;
    }
    store.slot := Entries(trimmed);
    return Some(trimmed);
  }

  /** `deleteConfig(id)`: writes and returns the list without any entry with that id. */
  method DeleteConfig(store: Store, id: string) returns (r: Option<seq<SavedConfig>>)
    modifies store
    ensures !store.hasWindow ==> r.None? && store.slot == old(store.slot)
    ensures store.hasWindow ==>
              r == Some(WithoutId(old(LoadConfigs(store)), id)) && store.slot == Entries(r.value)
  {
    var configs := LoadConfigs(store);
    var filtered := WithoutId(configs, id);
    if !store.hasWindow {
      return None;
    }
    store.slot := Entries(filtered);
    return Some(filtered);
  }

  /** `loadConfigById(id)`: the configuration of the first entry with that id; the store is only read. */
  function LoadConfigById(store: Store, id: string): (r: Option<WorkoutConfig>)
    reads store
    ensures r.None? <==> forall c :: c in LoadConfigs(store) ==> c.id != id
    ensures r.Some? ==>
              exists i :: && 0 <= i < |LoadConfigs(store)|
                          && LoadConfigs(store)[i].id == id && LoadConfigs(store)[i].config == r.value
                          && forall j :: 0 <= j < i ==> LoadConfigs(store)[j].id != id
  {
    var configs := LoadConfigs(store);
    var found := FindById(configs, id);
    if found.Some? then Some(configs[found.value].config) else None
  }

  // ----- What the list operations promise together -----

  /** The entry just saved is the one found by its id. */
  lemma SavedIsFound(configs: seq<SavedConfig>, entry: SavedConfig)
    ensures FindById(SavedList(configs, entry), entry.id) == Some(0)
  {
  }

  /** Saving keeps the previous entries, in order, behind the new one, until five are kept. */
  lemma {:induction false} SaveKeepsOrder(configs: seq<SavedConfig>, entry: SavedConfig, k: nat)
    requires k < |configs| && k + 1 < MaxSaved
    ensures SavedList(configs, entry)[k + 1] == configs[k]
  {
    var r := SavedList(configs, entry);
    assert r[1..][k] == configs[..|r| - 1][k];
  }

  /** After a delete no entry with that id is found. */
  lemma DeletedIsGone(configs: seq<SavedConfig>, id: string)
    ensures FindById(WithoutId(configs, id), id).None?
  {
    var r := WithoutId(configs, id);
    forall i | 0 <= i < |r|
      ensures r[i].id != id
    {
      assert r[i] in r;
    }
  }

  /** Deleting twice is deleting once. */
  lemma {:induction false} DeleteIdempotent(configs: seq<SavedConfig>, id: string)
    ensures WithoutId(WithoutId(configs, id), id) == WithoutId(configs, id)
  {
    var r := WithoutId(configs, id);
    forall c | c in r
      ensures c.id != id
    {
    }
  }

  /** The entry `find` returns, as a value. */
  function EntryFor(configs: seq<SavedConfig>, id: string): Option<SavedConfig>
  {
    if configs == [] then None
    else if configs[0].id == id then Some(configs[0])
    else EntryFor(configs[1..], id)
  }

  /** That entry is the one at the position `FindById` reports. */
  lemma {:induction false} EntryForIsFound(configs: seq<SavedConfig>, id: string)
    ensures FindById(configs, id).None? ==> EntryFor(configs, id).None?
    ensures FindById(configs, id).Some? ==> EntryFor(configs, id) == Some(configs[FindById(configs, id).value])
  {
    if configs != [] && configs[0].id != id {
      EntryForIsFound(configs[1..], id);
    }
  }

  /** A delete does not change which entry another id finds. */
  lemma {:induction false} DeleteKeepsOthers(configs: seq<SavedConfig>, id: string, other: string)
    requires other != id
    ensures EntryFor(WithoutId(configs, id), other) == EntryFor(configs, other)
  {
    if configs != [] {
      DeleteKeepsOthers(configs[1..], id, other);
      if configs[0].id != id {
        assert WithoutId(configs, id)[1..] == WithoutId(configs[1..], id);
      }
    }
  }

  /** Saving never lets the list exceed five entries, whatever was stored. */
  lemma SaveIsBounded(configs: seq<SavedConfig>, entry: SavedConfig)
    ensures |SavedList(configs, entry)| <= MaxSaved
    ensures |configs| < MaxSaved ==> SavedList(configs, entry) == [entry] + configs
  {
  }
}
