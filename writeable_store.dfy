/** The persisted settings store (`src/lib/writeables/writeable-store.ts`):
    a current value backed by one key of the page's local storage. */
module WriteableStore {
  import opened Wrappers

  /** `window.localStorage`: one string per key, shared by every store. */
  class LocalStorage {
    var items: map<string, string>

    constructor (items: map<string, string>)
      ensures this.items == items
    {
      this.items := items;
    }
  }

  /** `getStoredOrDefault()(key, defaultVal, mapFn)`: a stored string is
      mapped unless it is missing or empty (`''` is falsy), in which case the
      default is used. */
  function StoredOrDefault<T>(items: map<string, string>, key: string, defaultVal: T,
                              mapFn: string -> T): (r: T)
    ensures key in items && items[key] != "" ==> r == mapFn(items[key])
    ensures key !in items || items[key] == "" ==> r == defaultVal
  {
    if key in items && items[key] != "" then mapFn(items[key]) else defaultVal
  }

  /** `forcedDefault ?? getDefaultSetting(key)`: only an absent forced
      default falls back to the settings table, so falsy values are kept. */
  function DefaultOf<T>(forcedDefault: Option<T>, settingDefault: T): (r: T)
    ensures forcedDefault.Some? ==> r == forcedDefault.value
    ensures forcedDefault.None? ==> r == settingDefault
  {
    forcedDefault.GetOr(settingDefault)
  }

  /** A store made by `createWriteableStore(fromString, toString)(key, forcedDefault)`.
      `settingDefault` is the settings table's entry for the key. */
  class Store<T> {
    const storageKey: string
    const defaultValue: T
    const fromString: string -> T
    const toString: T -> string
    const storage: LocalStorage
    var value: T

    constructor (storage: LocalStorage, storageKey: string, forcedDefault: Option<T>,
                 settingDefault: T, fromString: string -> T, toString: T -> string)
      ensures this.storage == storage && this.storageKey == storageKey
      ensures this.fromString == fromString && this.toString == toString
      ensures defaultValue == DefaultOf(forcedDefault, settingDefault)
      ensures value == StoredOrDefault(storage.items, storageKey, defaultValue, fromString)
    {
      this.storage := storage;
      this.storageKey := storageKey;
      this.fromString := fromString;
      this.toString := toString;
      var d := DefaultOf(forcedDefault, settingDefault);
      this.defaultValue := d;
      this.value := StoredOrDefault(storage.items, storageKey, d, fromString);
    }

    /** `set(v)`: writes the string form under this store's key, leaving
        every other key alone, then makes `v` current. */
    method Set(v: T)
      modifies this, storage
      ensures storage.items == old(storage.items)[storageKey := toString(v)]
      ensures value == v
      ensures forall k :: k != storageKey ==>
                (k in storage.items <==> k in old(storage.items)) &&
                (k in storage.items ==> storage.items[k] == old(storage.items)[k])
    {
      storage.items := storage.items[storageKey := toString(v)];
      value := v;
    }

    /** `get()`: the current value. */
    method Get() returns (r: T)
      ensures r == value
    {
      r := value;
    }

    /** `key()`: the key given at creation. */
    method Key() returns (r: string)
      ensures r == storageKey
    {
      r := storageKey;
    }

    /** `reset()`: sets and persists the default, and returns it. */
    method Reset() returns (r: T)
      modifies this, storage
      ensures r == defaultValue && value == defaultValue
      ensures storage.items == old(storage.items)[storageKey := toString(defaultValue)]
    {
      Set(defaultValue);
      r := defaultValue;
    }
  }

  /** A store created over the storage another store has just written reads
      that value back, provided its string form is not empty and the codec
      round-trips it. */
  lemma ReloadAfterSet<T>(items: map<string, string>, key: string, v: T, d: T,
                          fromString: string -> T, toString: T -> string)
    requires toString(v) != "" && fromString(toString(v)) == v
    ensures StoredOrDefault(items[key := toString(v)], key, d, fromString) == v
  {
  }

  /** Writing and then resetting a store leaves the default both current
      and stored, whatever was written before. */
  method SetThenReset<T>(s: Store<T>, v: T) returns (r: T)
    modifies s, s.storage
    ensures r == s.defaultValue && s.value == s.defaultValue
    ensures s.storage.items == old(s.storage.items)[s.storageKey := s.toString(s.defaultValue)]
  {
    s.Set(v);
    r := s.Reset();
  }
}
