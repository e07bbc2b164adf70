/** The refresh-token store: a revocation ledger from a token id (`jti`) to
    its owner and expiry, used through `get`, `save` and `delete`. The store's
    own implementation is not part of this model; it is an object holding a
    map, and a lookup or delete with a missing `jti` finds nothing. */
module RefreshStore {
  import opened Common

  datatype RefreshRecord = RefreshRecord(userId: string, expiresAtMs: int)

  /** The ledger's answer to `get(jti)`: the record of a present id. */
  function Lookup(records: map<string, RefreshRecord>, jti: Option<string>): (r: Option<RefreshRecord>)
    ensures r.Some? <==> jti.Some? && jti.value in records
    ensures r.Some? ==> r.value == records[jti.value]
  {
    if jti.Some? && jti.value in records then Some(records[jti.value]) else None
  }

  /** The ledger after `delete(jti)`. */
  function Removed(records: map<string, RefreshRecord>, jti: Option<string>): (r: map<string, RefreshRecord>)
    ensures jti.Some? ==> r.Keys == records.Keys - {jti.value}
    ensures jti.None? ==> r == records
    ensures forall k :: k in r ==> k in records && r[k] == records[k]
  {
    if jti.Some? then records - {jti.value} else records
  }

  class RefreshTokenStore {
    var records: map<string, RefreshRecord>

    constructor ()
      ensures records == map[]
    {
      records := map[];
    }

    function Get(jti: Option<string>): (r: Option<RefreshRecord>)
      reads this
      ensures r.Some? <==> jti.Some? && jti.value in records
      ensures r.Some? ==> r.value == records[jti.value]
    {
      Lookup(records, jti)
    }

    method Save(jti: string, userId: string, expiresAtMs: int)
      modifies this
      ensures records == old(records)[jti := RefreshRecord(userId, expiresAtMs)]
    {
      records := records[jti := RefreshRecord(userId, expiresAtMs)];
    }

    method Delete(jti: Option<string>)
      modifies this
      ensures records == Removed(old(records), jti)
    {
      records := Removed(records, jti);
    }
  }
}
