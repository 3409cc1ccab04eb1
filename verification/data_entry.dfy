/**
 * What reading, writing and sweeping a data file does to the data directory,
 * as functions of its contents. The cache methods change the directory in
 * place and are specified by these functions.
 */
module DataEntry {
  import opened JsValues
  import opened Ttl
  import opened Disk

  /**
   * A read of `name` at `now`: an expired entry is deleted and yields null,
   * a live one yields its payload, a missing one yields null.
   */
  function ReadEntry(data: map<string, Entry>, name: string, now: int, maxTtl: int): (r: (map<string, Entry>, Value))
    ensures r.0 == data || r.0 == data - {name}
    ensures r.0 != data ==> name in data && IsExpired(now, data[name].arriveAt, data[name].ttl, maxTtl)
    ensures r.1 != Null ==> name in data && r.1 == data[name].data
  {
    if name !in data then (data, Null)
    else
      var e := data[name];
      if IsExpired(now, e.arriveAt, e.ttl, maxTtl) then (data - {name}, Null) else (data, e.data)
  }

  /** The entries a sweep keeps: those not expired at `now`. */
  function Unexpired(data: map<string, Entry>, now: int, maxTtl: int): (r: map<string, Entry>)
    ensures forall k :: k in r <==> k in data && !IsExpired(now, data[k].arriveAt, data[k].ttl, maxTtl)
    ensures forall k :: k in r ==> r[k] == data[k]
  {
    map k | k in data && !IsExpired(now, data[k].arriveAt, data[k].ttl, maxTtl) :: data[k]
  }

  /** The expired entries of a data directory. */
  function ExpiredNames(data: map<string, Entry>, now: int, maxTtl: int): (r: set<string>)
    ensures forall k :: k in r <==> k in data && IsExpired(now, data[k].arriveAt, data[k].ttl, maxTtl)
  {
    set k | k in data && IsExpired(now, data[k].arriveAt, data[k].ttl, maxTtl)
  }

  /** The sweep deletes exactly the expired names. */
  lemma UnexpiredIsMinusExpired(data: map<string, Entry>, now: int, maxTtl: int)
    ensures Unexpired(data, now, maxTtl) == data - (data.Keys * ExpiredNames(data, now, maxTtl))
  {
  }

  /**
   * Writing `value` at `written` and reading it back at `now` returns `value`
   * and keeps the entry, as long as `now - written` is within the effective TTL.
   */
  lemma ReadAfterWrite(data: map<string, Entry>, name: string, written: int, value: Value,
                       ttl: Option<Value>, owner: Option<string>, now: int, maxTtl: int)
    requires !IsExpired(now, written, ttl, maxTtl)
    ensures var d := data[name := Entry(written, value, ttl, owner)];
      ReadEntry(d, name, now, maxTtl) == (d, value)
  {
  }

  /** A read right after a write at the same instant returns what was written. */
  lemma ReadRightAfterWrite(data: map<string, Entry>, name: string, now: int, value: Value,
                            ttl: Option<Value>, owner: Option<string>, maxTtl: int)
    requires maxTtl >= 0
    ensures var d := data[name := Entry(now, value, ttl, owner)];
      ReadEntry(d, name, now, maxTtl) == (d, value)
  {
    FreshEntryNotExpired(now, ttl, maxTtl);
    ReadAfterWrite(data, name, now, value, ttl, owner, now, maxTtl);
  }

  /**
   * A read keeps the entry and yields its payload exactly when the entry has
   * not expired; an expired entry is removed and null is read.
   */
  lemma ReadKeepsEntryIffUnexpired(data: map<string, Entry>, name: string, now: int, maxTtl: int)
    requires name in data
    ensures var e := data[name];
      && (ReadEntry(data, name, now, maxTtl).0 == data <==> !IsExpired(now, e.arriveAt, e.ttl, maxTtl))
      && (!IsExpired(now, e.arriveAt, e.ttl, maxTtl) ==> ReadEntry(data, name, now, maxTtl).1 == e.data)
      && (IsExpired(now, e.arriveAt, e.ttl, maxTtl) ==> ReadEntry(data, name, now, maxTtl) == (data - {name}, Null))
  {
    var e := data[name];
    if IsExpired(now, e.arriveAt, e.ttl, maxTtl) {
      assert name !in ReadEntry(data, name, now, maxTtl).0;
    }
  }

  /** After a delete, a read yields null; deleting twice is deleting once. */
  lemma ReadAfterDelete(data: map<string, Entry>, name: string, now: int, maxTtl: int)
    ensures ReadEntry(data - {name}, name, now, maxTtl) == (data - {name}, Null)
    ensures data - {name} - {name} == data - {name}
  {
  }

  /** Sweeping twice at the same instant removes nothing more. */
  lemma SweepIdempotent(data: map<string, Entry>, now: int, maxTtl: int)
    ensures Unexpired(Unexpired(data, now, maxTtl), now, maxTtl) == Unexpired(data, now, maxTtl)
  {
  }
}
