/** The callback-event store: a table whose `put` optionally stamps an item with
    an absolute expiry time. The wall clock is the parameter `now` (seconds since
    the epoch); the database write itself is the returned item. */
module Store {
  import opened Values

  const DefaultTtlColumn: string := "expires"

  datatype Table = Table(tablename: string, ttlColumn: string)

  /** A table handle; the TTL column defaults to "expires". */
  function NewTable(tablename: string, ttlColumn: string := DefaultTtlColumn): Table {
    Table(tablename, ttlColumn)
  }

  lemma DefaultColumnIsExpires(tablename: string)
    ensures NewTable(tablename).ttlColumn == "expires"
  {
  }

  /** The least integer not below `x`, i.e. `math.ceil`. */
  function Ceil(x: real): (r: int)
    ensures x <= r as real < x + 1.0
  {
    -((-x).Floor)
  }

  /** `_generate_ttl_timestamp`: `start + seconds`, where a missing or zero start
      (both falsy) is replaced by the ceiling of the current time. */
  function TtlTimestamp(seconds: int, start: Option<int>, now: real): (t: int)
    ensures start.Some? && start.value != 0 ==> t == start.value + seconds
    ensures start.None? || start.value == 0 ==> now + seconds as real <= t as real < now + seconds as real + 1.0
  {
    var from := if start.Some? && start.value != 0 then start.value else Ceil(now);
    from + seconds
  }

  /** `put`: a truthy (non-zero) expiration in seconds adds the TTL column; `None` or `0`
      writes the item as given. No other key changes. */
  function Put(t: Table, item: Dict, expiration: Option<int>, now: real): (written: Dict)
    ensures forall k :: k != t.ttlColumn ==> (k in written <==> k in item)
    ensures forall k :: k != t.ttlColumn && k in item ==> written[k] == item[k]
    ensures expiration.Some? && expiration.value != 0 ==>
              t.ttlColumn in written && written[t.ttlColumn] == JInt(TtlTimestamp(expiration.value, None, now))
    ensures expiration.None? || expiration.value == 0 ==> written == item
  {
    if expiration.Some? && expiration.value != 0 then
      item[t.ttlColumn := JInt(TtlTimestamp(expiration.value, None, now))]
    else item
  }

  /** The stored expiry is `expiration` seconds after the current time, rounded up. */
  lemma PutExpiresAfter(t: Table, item: Dict, expiration: int, now: real)
    requires expiration != 0
    ensures var e := Put(t, item, Some(expiration), now)[t.ttlColumn];
            && e.JInt?
            && now + expiration as real <= e.i as real < now + expiration as real + 1.0
  {
  }

  /** The callback record: two key strings and the serialised response body. It has
      no expiry field of its own. */
  datatype CallbackEvent = CallbackEvent(eventSource: string, eventId: string, data: string)

  function CallbackRecord(e: CallbackEvent): (d: Dict)
    ensures d.Keys == {"event_source", "event_id", "data"}
    ensures d["event_source"] == JStr(e.eventSource) && d["event_id"] == JStr(e.eventId)
    ensures d["data"] == JStr(e.data)
  {
    map["event_source" := JStr(e.eventSource), "event_id" := JStr(e.eventId), "data" := JStr(e.data)]
  }
}
