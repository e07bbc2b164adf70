/** The part of a Redis client the Spring Session adapter uses, over an
    in-memory keyspace. Each key holds a hash or a set; a command applied to
    a key of the other kind fails with Redis's WRONGTYPE error and changes
    nothing. The calls are synchronous here; the client's replies arrive
    asynchronously in the source. */
module Redis {
  import opened Common

  datatype RedisValue = Hash(fields: map<string, string>) | Members(members: set<string>)

  type Keyspace = map<string, RedisValue>

  const WrongType: string := "WRONGTYPE Operation against a key holding the wrong kind of value"

  /** `HGETALL key`: an absent key reads as the empty hash. */
  function HashOf(m: Keyspace, key: string): (r: Result<map<string, string>>)
    ensures r.Err? <==> key in m && m[key].Members?
    ensures key !in m ==> r == Ok(map[])
    ensures key in m && m[key].Hash? ==> r == Ok(m[key].fields)
  {
    if key !in m then Ok(map[])
    else match m[key]
      case Hash(fields) => Ok(fields)
      case Members(_) => Err(WrongType)
  }

  /** The keyspace after `SREM key member` on a set key; Redis deletes a set
      that becomes empty. Other keys are untouched. */
  function SetRemoved(m: Keyspace, key: string, member: string): (r: Keyspace)
    requires key in m ==> m[key].Members?
    ensures forall k :: k != key ==> (k in r <==> k in m) && (k in r ==> r[k] == m[k])
    ensures key in r ==> key in m && r[key] == Members(m[key].members - {member}) && r[key].members != {}
    ensures key in m && m[key].members - {member} != {} ==> key in r
  {
    if key !in m then m
    else
      var rest := m[key].members - {member};
      if rest == {} then m - {key} else m[key := Members(rest)]
  }

  /** The keyspace after `HSET key field value`: an absent key becomes a
      one-field hash. */
  function HashSet(m: Keyspace, key: string, field: string, value: string): (r: Keyspace)
    requires key in m ==> m[key].Hash?
    ensures r.Keys == m.Keys + {key}
    ensures r[key].Hash? && field in r[key].fields && r[key].fields[field] == value
    ensures key in m ==> forall f :: f in m[key].fields && f != field ==> f in r[key].fields && r[key].fields[f] == m[key].fields[f]
    ensures key in m ==> r[key].fields.Keys == m[key].fields.Keys + {field}
    ensures key !in m ==> r[key].fields.Keys == {field}
    ensures forall k :: k in m && k != key ==> r[k] == m[k]
  {
    var fields := if key in m then m[key].fields else map[];
    m[key := Hash(fields[field := value])]
  }

  /** The keys `KEYS <prefix>*` lists. */
  function KeysWithPrefix(m: Keyspace, prefix: string): (r: set<string>)
    ensures forall k :: k in r <==> k in m && StartsWith(k, prefix)
  {
    set k | k in m.Keys && StartsWith(k, prefix)
  }

  class RedisClient {
    var data: Keyspace

    constructor (initial: Keyspace)
      ensures data == initial
    {
      data := initial;
    }

    /** `HGETALL key`: the hash's fields, none for a missing key, and
        WRONGTYPE for a set. */
    function HGetAll(key: string): (r: Result<map<string, string>>)
      reads this
      ensures key !in data ==> r == Ok(map[])
      ensures key in data && data[key].Hash? ==> r == Ok(data[key].fields)
      ensures key in data && data[key].Members? ==> r == Err(WrongType)
    {
      HashOf(data, key)
    }

    /** `DEL key`: the number of keys removed. */
    method Del(key: string) returns (count: nat)
      modifies this
      ensures data == old(data) - {key}
      ensures count == if key in old(data) then 1 else 0
    {
      count := if key in data then 1 else 0;
      data := data - {key};
    }

    /** `KEYS <prefix>*`: every matching key once, in no particular order. */
    method Keys(prefix: string) returns (keys: seq<string>)
      ensures forall k :: k in keys <==> k in KeysWithPrefix(data, prefix)
      ensures forall i, j :: 0 <= i < j < |keys| ==> keys[i] != keys[j]
    {
      var remaining := KeysWithPrefix(data, prefix);
      keys := [];
      while remaining != {}
        invariant remaining <= KeysWithPrefix(data, prefix)
        invariant forall k :: k in keys <==> k in KeysWithPrefix(data, prefix) && k !in remaining
        invariant forall i, j :: 0 <= i < j < |keys| ==> keys[i] != keys[j]
        decreases |remaining|
      {
        var k :| k in remaining;
        keys := keys + [k];
        remaining := remaining - {k};
      }
    }

    /** `SREM key member`: the number of members removed. */
    method SRem(key: string, member: string) returns (r: Result<nat>)
      modifies this
      ensures r.Err? <==> key in old(data) && old(data)[key].Hash?
      ensures r.Err? ==> r.message == WrongType && data == old(data)
      ensures r.Ok? ==> data == SetRemoved(old(data), key, member)
      ensures r.Ok? ==> r.value == if key in old(data) && member in old(data)[key].members then 1 else 0
    {
      if key !in data {
        return Ok(0);
      }
      if data[key].Hash? {
        return Err(WrongType);
      }
      var removed := if member in data[key].members then 1 else 0;
      data := SetRemoved(data, key, member);
      r := Ok(removed);
    }

    /** `HSET key field value`: the number of fields created. */
    method HSet(key: string, field: string, value: string) returns (r: Result<nat>)
      modifies this
      ensures r.Err? <==> key in old(data) && old(data)[key].Members?
      ensures r.Err? ==> r.message == WrongType && data == old(data)
      ensures r.Ok? ==> data == HashSet(old(data), key, field, value)
    {
      if key in data && data[key].Members? {
        return Err(WrongType);
      }
      var created := if key in data && field in data[key].fields then 0 else 1;
      data := HashSet(data, key, field, value);
      r := Ok(created);
    }
  }
}
