/**
 * The in-process session table: session id -> (data, timestamp), with a
 * 30-minute time-to-live that is checked lazily when a session is loaded.
 * The clock (`time.time()`) is the explicit argument `now`, in seconds.
 */
module SessionStoreMemory {
  import opened SessionModel

  /** Seconds of inactivity after which a stored session is treated as gone. */
  const SESSION_TTL: real := 1800.0

  datatype Entry = Entry(data: Record, timestamp: real)

  type Table = map<string, Entry>

  predicate Expired(e: Entry, now: real) {
    now - e.timestamp > SESSION_TTL
  }

  // Specification of each operation on the table, as functions.

  /** The record `load_session` returns. */
  function LoadResult(t: Table, id: string, now: real): Record {
    if id !in t || Expired(t[id], now) then FreshRecord() else t[id].data
  }

  /** The table after `load_session`: an expired entry is popped, nothing else changes. */
  function AfterLoad(t: Table, id: string, now: real): Table {
    if id in t && Expired(t[id], now) then t - {id} else t
  }

  function Saved(t: Table, id: string, data: Record, now: real): Table {
    t[id := Entry(data, now)]
  }

  function Cleared(t: Table, id: string): Table {
    t - {id}
  }

  class InMemorySessionStore {
    var sessions: Table

    constructor ()
      ensures sessions == map[]
    {
      sessions := map[];
    }

    method LoadSession(id: string, now: real) returns (r: Record)
      modifies this
      ensures r == LoadResult(old(sessions), id, now)
      ensures sessions == AfterLoad(old(sessions), id, now)
    {
      if id !in sessions {
        return FreshRecord();
      }
      var entry := sessions[id];
      if now - entry.timestamp > SESSION_TTL {
        sessions := sessions - {id};
        return FreshRecord();
      }
      return entry.data;
    }

    method SaveSession(id: string, data: Record, now: real)
      modifies this
      ensures sessions == Saved(old(sessions), id, data, now)
    {
      sessions := sessions[id := Entry(data, now)];
    }

    method ClearSession(id: string)
      modifies this
      ensures sessions == Cleared(old(sessions), id)
    {
      sessions := sessions - {id};
    }

    /** The ids currently stored, each once (the order of the dict's keys is not modelled). */
    method GetAllSessions() returns (ids: seq<string>)
      ensures forall k :: k in ids <==> k in sessions
      ensures forall i, j :: 0 <= i < j < |ids| ==> ids[i] != ids[j]
    {
      ids := [];
      var rest := sessions.Keys;
      while rest != {}
        invariant rest <= sessions.Keys
        invariant forall k :: k in ids ==> k in sessions && k !in rest
        invariant forall k :: k in sessions && k !in rest ==> k in ids
        invariant forall i, j :: 0 <= i < j < |ids| ==> ids[i] != ids[j]
        decreases rest
      {
        var k :| k in rest;
        ids := ids + [k];
        rest := rest - {k};
      }
    }

    method ClearAllSessions()
      modifies this
      ensures sessions == map[]
    {
      sessions := map[];
    }
  }

  // Properties of the table operations.

  /** Loading an id that is not stored gives a fresh INIT record and leaves the table alone. */
  lemma LoadUnknown(t: Table, id: string, now: real)
    requires id !in t
    ensures LoadResult(t, id, now) == FreshRecord() && LoadResult(t, id, now)["state"] == Str(INIT)
    ensures AfterLoad(t, id, now) == t
  {
  }

  /**
   * An entry older than the TTL is removed and a fresh INIT record returned;
   * at exactly the TTL (and before) the stored data is still returned.
   */
  lemma LoadRespectsTtl(t: Table, id: string, now: real)
    requires id in t
    ensures now - t[id].timestamp > SESSION_TTL ==>
              LoadResult(t, id, now) == FreshRecord() && AfterLoad(t, id, now) == t - {id}
    ensures now - t[id].timestamp <= SESSION_TTL ==>
              LoadResult(t, id, now) == t[id].data && AfterLoad(t, id, now) == t
  {
  }

  /** Within the TTL, loading gives back exactly what the last save stored for that id. */
  lemma SaveThenLoad(t: Table, id: string, data: Record, saved: real, now: real)
    requires now - saved <= SESSION_TTL
    ensures LoadResult(Saved(t, id, data, saved), id, now) == data
    ensures AfterLoad(Saved(t, id, data, saved), id, now) == Saved(t, id, data, saved)
  {
  }

  /** Loading never refreshes a timestamp: every entry that survives a load is unchanged. */
  lemma LoadKeepsTimestamps(t: Table, id: string, now: real)
    ensures AfterLoad(t, id, now).Keys <= t.Keys
    ensures forall k :: k in AfterLoad(t, id, now) ==> AfterLoad(t, id, now)[k] == t[k]
    ensures forall k :: k in t && k != id ==> k in AfterLoad(t, id, now)
  {
  }

  /** Saving stamps the id's entry with the current time and leaves every other entry unchanged. */
  lemma SaveIsolated(t: Table, id: string, data: Record, now: real)
    ensures Saved(t, id, data, now)[id] == Entry(data, now)
    ensures Saved(t, id, data, now).Keys == t.Keys + {id}
    ensures forall k :: k in t && k != id ==> Saved(t, id, data, now)[k] == t[k]
  {
  }

  /** Clearing removes only the given id (a no-op when it is absent); a later load starts afresh. */
  lemma ClearThenLoad(t: Table, id: string, now: real)
    ensures id !in t ==> Cleared(t, id) == t
    ensures Cleared(t, id).Keys == t.Keys - {id}
    ensures forall k :: k in t && k != id ==> Cleared(t, id)[k] == t[k]
    ensures LoadResult(Cleared(t, id), id, now) == FreshRecord()
  {
  }
}
