/**
  The key/value store contract both caches of the preprocessor satisfy:
  `has`, `get` (only after a successful `has`) and `set`. The backends (a
  shared-memory store and an array-file store) are replaced by a map held in
  the object; `set` overwrites, so setting a key twice keeps the last value.
*/
module Caching {

  class Cache<V> {
    var entries: map<string, V>

    constructor ()
      ensures entries == map[]
    {
      entries := map[];
    }

    method Has(key: string) returns (present: bool)
      ensures present <==> key in entries
    {
      present := key in entries;
    }

    method Get(key: string) returns (value: V)
      requires key in entries
      ensures value == entries[key]
    {
      value := entries[key];
    }

    method Set(key: string, value: V)
      modifies this
      ensures entries == old(entries)[key := value]
    {
      entries := entries[key := value];
    }
  }
}
