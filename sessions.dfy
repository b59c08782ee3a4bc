/**
 * The Redis session cache as the server reads it: user id to the JSON text
 * of that user's session snapshot.
 */
module Sessions {
  import opened Wrappers
  import opened JsText

  /**
   * The fields of a parsed session snapshot (`JSON.parse` of a cached value)
   * that the server examines; every other field passes through untouched.
   */
  datatype Snapshot = Snapshot(id: Option<string>, role: Option<string>)

  /** `JSON.parse` on a cached value. */
  type Parser = string -> Snapshot

  /**
   * The cached text for `key`, as the handlers use it: `if (!value)` treats
   * a missing key and an empty stored string alike, as no session.
   */
  function Session(entries: map<string, string>, key: string): Option<string> {
    if key in entries && Truthy(entries[key]) then Some(entries[key]) else None
  }

  /**
   * The Redis client. `lookups` records every key read, in order, so that a
   * caller can state which keys an operation consulted.
   */
  class SessionCache {
    var entries: map<string, string>
    ghost var lookups: seq<string>

    constructor (entries: map<string, string>)
      ensures this.entries == entries && lookups == []
    {
      this.entries := entries;
      lookups := [];
    }

    /** `redis.get(key)`: the stored text or nothing; the store is only read. */
    method Get(key: string) returns (v: Option<string>)
      modifies this`lookups
      ensures v.Some? <==> key in entries
      ensures v.Some? ==> v.value == entries[key]
      ensures lookups == old(lookups) + [key]
    {
      lookups := lookups + [key];
      v := if key in entries then Some(entries[key]) else None;
    }
  }
}
