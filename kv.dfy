/** The key-value namespace bound as `env.CACHE`: a map from key to the JSON
    value last written and the TTL it was written with. Expiry is not
    modelled; the TTL is only recorded. */
module Kv {
  import opened Json

  datatype Entry = Entry(value: Json, ttl: nat)

  /** The value a `get(key, 'json')` returns, if any. */
  function Lookup(entries: map<string, Entry>, key: string): (r: Option<Json>)
    ensures r.Some? <==> key in entries
    ensures r.Some? ==> r.value == entries[key].value
  {
    if key in entries then Some(entries[key].value) else None
  }

  class KvNamespace {
    var entries: map<string, Entry>

    constructor (initial: map<string, Entry>)
      ensures entries == initial
    {
      entries := initial;
    }

    /** `get(key, 'json')`: reads, never writes. */
    method Get(key: string) returns (v: Option<Json>)
      ensures v == Lookup(entries, key)
    {
      v := Lookup(entries, key);
    }

    /** `put(key, value, {expirationTtl: ttl})`: replaces the entry under key and no other. */
    method Put(key: string, value: Json, ttl: nat)
      modifies this
      ensures entries == old(entries)[key := Entry(value, ttl)]
    {
      entries := entries[key := Entry(value, ttl)];
    }
  }
}
