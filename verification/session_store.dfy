/**
 * The session-store facade: the backend is chosen once, when the module is
 * loaded (`USE_REDIS` flag, with a fall-back to the in-memory table when the
 * Redis backend cannot be set up), and every public call goes to it. Redis
 * itself is outside this model: what a Redis call returns or raises is an
 * argument of the facade operation.
 */
module SessionStore {
  import opened Outcomes
  import opened SessionModel
  import opened TextOps
  import opened SessionStoreMemory

  datatype Backend = Memory(table: InMemorySessionStore) | Redis

  /** `os.getenv("USE_REDIS", "false").lower() == "true"`. */
  function RedisRequested(useRedis: Option<string>): (b: bool)
    ensures useRedis.None? ==> !b
    ensures useRedis.Some? ==> (b <==> Lower(useRedis.value) == "true")
  {
    var flag := match useRedis case Some(v) => v case None => "false";
    Lower(flag) == "true"
  }

  /** Redis is used exactly when it was requested and setting it up raised nothing. */
  function ChoosesRedis(useRedis: Option<string>, redisInit: Try<()>): (b: bool)
    ensures b <==> useRedis.Some? && Lower(useRedis.value) == "true" && redisInit.Ok?
  {
    RedisRequested(useRedis) && redisInit.Ok?
  }

  /** The record `load_session` falls back to when the backend raises. */
  function FallbackRecord(): (r: Record)
    ensures r.Keys == {"state"} && r["state"] == Str(INIT)
  {
    map["state" := Str(INIT)]
  }

  /** The fall-back record has only the `state` key, unlike a backend's fresh record. */
  lemma FallbackDiffersFromFresh()
    ensures FallbackRecord()["state"] == FreshRecord()["state"]
    ensures "phone" in FreshRecord() && "phone" !in FallbackRecord()
    ensures FallbackRecord() != FreshRecord()
  {
  }

  /** The module-level `_store`: a `const`, so it is chosen once and never re-chosen. */
  class ActiveStore {
    const backend: Backend

    /** Module load: pick the backend from the flag and the outcome of setting up Redis. */
    constructor (useRedis: Option<string>, redisInit: Try<()>)
      ensures backend.Redis? <==> ChoosesRedis(useRedis, redisInit)
      ensures backend.Memory? ==> fresh(backend.table) && backend.table.sessions == map[]
    {
      if RedisRequested(useRedis) && redisInit.Ok? {
        backend := Redis;
      } else {
        var table := new InMemorySessionStore();
        backend := Memory(table);
      }
    }

    ghost function Repr(): set<object>
      reads this
    {
      if backend.Memory? then {backend.table} else {}
    }

    /** The in-memory table (empty for the Redis backend, whose contents are not modelled). */
    ghost function Sessions(): Table
      reads this, Repr()
    {
      if backend.Memory? then backend.table.sessions else map[]
    }

    /** `load_session` never raises: a backend error gives the fall-back record. */
    method LoadSession(id: string, now: real, redis: Try<Record>) returns (r: Record)
      modifies Repr()
      ensures backend.Memory? ==> r == LoadResult(old(Sessions()), id, now)
      ensures backend.Memory? ==> Sessions() == AfterLoad(old(Sessions()), id, now)
      ensures backend.Redis? ==> r == if redis.Ok? then redis.value else FallbackRecord()
    {
      match backend
      case Memory(table) =>
        r := table.LoadSession(id, now);
      case Redis =>
        r := if redis.Ok? then redis.value else FallbackRecord();
    }

    /** `save_session` delegates; a Redis error reaches the caller. */
    method SaveSession(id: string, data: Record, now: real, redis: Try<()>) returns (o: Try<()>)
      modifies Repr()
      ensures backend.Memory? ==> o == Ok(()) && Sessions() == Saved(old(Sessions()), id, data, now)
      ensures backend.Redis? ==> o == redis
    {
      match backend
      case Memory(table) =>
        table.SaveSession(id, data, now);
        o := Ok(());
      case Redis =>
        o := redis;
    }

    /** `clear_session` delegates; a Redis error reaches the caller. */
    method ClearSession(id: string, redis: Try<()>) returns (o: Try<()>)
      modifies Repr()
      ensures backend.Memory? ==> o == Ok(()) && Sessions() == Cleared(old(Sessions()), id)
      ensures backend.Redis? ==> o == redis
    {
      match backend
      case Memory(table) =>
        table.ClearSession(id);
        o := Ok(());
      case Redis =>
        o := redis;
    }

    /** `get_all_sessions` delegates; Redis answers with its own key list or raises. */
    method GetAllSessions(redis: Try<seq<string>>) returns (o: Try<seq<string>>)
      ensures backend.Memory? ==> o.Ok? && forall k :: k in o.value <==> k in Sessions()
      ensures backend.Memory? ==> forall i, j :: 0 <= i < j < |o.value| ==> o.value[i] != o.value[j]
      ensures backend.Redis? ==> o == redis
    {
      match backend
      case Memory(table) =>
        var ids := table.GetAllSessions();
        o := Ok(ids);
      case Redis =>
        o := redis;
    }

    /** `clear_all_sessions` delegates; a Redis error reaches the caller. */
    method ClearAllSessions(redis: Try<()>) returns (o: Try<()>)
      modifies Repr()
      ensures backend.Memory? ==> o == Ok(()) && Sessions() == map[]
      ensures backend.Redis? ==> o == redis
    {
      match backend
      case Memory(table) =>
        table.ClearAllSessions();
        o := Ok(());
      case Redis =>
        o := redis;
    }
  }
}
