/**
 * The part of a Redis client the services use: `get`, `set` with an `EX`
 * expiry in seconds, `del`, and `publish`. The clock is a parameter: `now`
 * is the current time in seconds.
 */
module Redis {
  import opened Wrappers
  import opened Js
  import opened Errors

  /** A stored value and the moment it expires. */
  datatype Entry = Entry(value: Value, expiresAt: int)

  /** A message published on a channel. */
  datatype Message = Message(channel: string, payload: Value)

  /** What `get` answers at time `now`: nothing for a missing or expired key. */
  function Stored(entries: map<string, Entry>, key: string, now: int): (r: Option<Value>)
    ensures r.Some? <==> key in entries && now < entries[key].expiresAt
    ensures r.Some? ==> r.value == entries[key].value
  {
    if key in entries && now < entries[key].expiresAt then Some(entries[key].value) else None
  }

  /**
   * What a read-through cache finds under `key`: the stored value when `get`
   * answers and the answer is truthy. An `undefined` answer is stored as
   * `JSON.stringify(undefined)`, which ioredis sends as the empty string, so it
   * reads back falsy and counts as a miss.
   */
  function Cached(entries: map<string, Entry>, key: string, now: int): (r: Option<Value>)
    ensures r.Some? <==> Stored(entries, key, now).Some? && Stored(entries, key, now).value != Undefined
    ensures r.Some? ==> r == Stored(entries, key, now)
  {
    match Stored(entries, key, now)
    case Some(v) => if v == Undefined then None else Some(v)
    case None => None
  }

  /** A `get` or `set` that fails on the cache's Redis connection, with the error it raises. */
  datatype CacheFault = NoCacheFault | GetFails(error: Thrown) | SetFails(error: Thrown)

  /** A value set with a time to live is read back during exactly that many seconds. */
  lemma SetVisibleUntilExpiry(entries: map<string, Entry>, key: string, value: Value, ttl: nat, now: int, t: int)
    requires now <= t
    ensures Stored(entries[key := Entry(value, now + ttl)], key, t) == if t < now + ttl then Some(value) else None
  {
  }

  /** Setting or deleting one key leaves every other key as it was. */
  lemma OtherKeysUntouched(entries: map<string, Entry>, key: string, other: string, e: Entry, t: int)
    requires other != key
    ensures Stored(entries[key := e], other, t) == Stored(entries, other, t)
    ensures Stored(entries - {key}, other, t) == Stored(entries, other, t)
  {
  }

  class RedisClient {
    var entries: map<string, Entry>
    /** Every message published, oldest first. */
    var published: seq<Message>

    constructor ()
      ensures entries == map[] && published == []
    {
      entries := map[];
      published := [];
    }

    /** `get(key)` */
    function Get(key: string, now: int): (r: Option<Value>)
      reads this
      ensures r == Stored(entries, key, now)
    {
      Stored(entries, key, now)
    }

    /** `set(key, value, 'EX', ttl)` */
    method Set(key: string, value: Value, ttl: nat, now: int)
      modifies this
      ensures entries == old(entries)[key := Entry(value, now + ttl)]
      ensures published == old(published)
    {
      entries := entries[key := Entry(value, now + ttl)];
    }

    /** `del(key)` */
    method Del(key: string)
      modifies this
      ensures entries == old(entries) - {key}
      ensures published == old(published)
    {
      entries := entries - {key};
    }

    /** `publish(channel, message)` */
    method Publish(channel: string, payload: Value)
      modifies this
      ensures published == old(published) + [Message(channel, payload)]
      ensures entries == old(entries)
    {
      published := published + [Message(channel, payload)];
    }
  }
}
