/**
 * tasks/src/tasks/tasks-cache.service.ts: read-through caching of the task
 * lists in Redis. A key is looked up; a hit is returned (and logged), a miss
 * asks the tasks service and stores its answer for an hour.
 */
module TasksCache {
  import opened Wrappers
  import opened Js
  import opened Errors
  import opened Decimal
  import opened Logs
  import opened LogHelpers
  import opened Redis
  import opened CacheKeys

  // ---------------------------------------------------------------- cache keys

  const ALL_TASKS := "ALLTASKS"
  const AUTHOR_TASKS := "AUTHORTASKS"
  const ASSIGNED_TASKS := "ASSIGNEDTASK"

  /** The key of `findAllRedis`: `ALLTASKS`, then the page when a limit is given. */
  function AllTasksKey(limit: int, page: int): (k: string)
    ensures |k| >= |ALL_TASKS| && k[..|ALL_TASKS|] == ALL_TASKS
    // without a limit the page is ignored and the key is the bare namespace
    ensures k == ALL_TASKS <==> limit == 0
  {
    ALL_TASKS + PageRest(limit, page)
  }

  /** The keys of `findByAuthorIdRedis` and `findByAssignedIdRedis`: namespace, id, then the page. */
  function ScopedKey(namespace: string, id: string, limit: int, page: int): (k: string)
    ensures |k| >= |namespace| + 1 + |id| && k[..|namespace| + 1 + |id|] == namespace + ":" + id
    ensures |k| == |namespace| + 1 + |id| <==> limit == 0
  {
    namespace + ":" + id + PageRest(limit, page)
  }

  /** `AUTHORTASKS:<authorId>`, then the page when a limit is given. */
  function AuthorTasksKey(authorId: string, limit: int, page: int): (k: string)
    ensures |k| >= |AUTHOR_TASKS| + 1 + |authorId| && k[..|AUTHOR_TASKS| + 1 + |authorId|] == AUTHOR_TASKS + ":" + authorId
    ensures |k| == |AUTHOR_TASKS| + 1 + |authorId| <==> limit == 0
  {
    ScopedKey(AUTHOR_TASKS, authorId, limit, page)
  }

  /** `ASSIGNEDTASK:<assignedId>`, then the page when a limit is given. */
  function AssignedTasksKey(assignedId: string, limit: int, page: int): (k: string)
    ensures |k| >= |ASSIGNED_TASKS| + 1 + |assignedId| && k[..|ASSIGNED_TASKS| + 1 + |assignedId|] == ASSIGNED_TASKS + ":" + assignedId
    ensures |k| == |ASSIGNED_TASKS| + 1 + |assignedId| <==> limit == 0
  {
    ScopedKey(ASSIGNED_TASKS, assignedId, limit, page)
  }

  /** Two `findAllRedis` calls share a key exactly when they ask for the same list. */
  lemma AllTasksKeyInjective(l1: int, p1: int, l2: int, p2: int)
    ensures AllTasksKey(l1, p1) == AllTasksKey(l2, p2) <==> l1 == l2 && (l1 == 0 || p1 == p2)
  {
    if AllTasksKey(l1, p1) == AllTasksKey(l2, p2) {
      assert AllTasksKey(l1, p1)[|ALL_TASKS|..] == PageRest(l1, p1);
      assert AllTasksKey(l2, p2)[|ALL_TASKS|..] == PageRest(l2, p2);
    }
    PageRestInjective(l1, p1, l2, p2);
  }

  /** Within one namespace, colon-free ids give distinct keys to distinct requests. */
  lemma ScopedKeyInjective(ns: string, id1: string, l1: int, p1: int, id2: string, l2: int, p2: int)
    requires ':' !in id1 && ':' !in id2
    ensures ScopedKey(ns, id1, l1, p1) == ScopedKey(ns, id2, l2, p2) <==> id1 == id2 && l1 == l2 && (l1 == 0 || p1 == p2)
  {
    PageRestStartsWithColon(l1, p1);
    PageRestStartsWithColon(l2, p2);
    if ScopedKey(ns, id1, l1, p1) == ScopedKey(ns, id2, l2, p2) {
      ScopedSplit(ns, id1, PageRest(l1, p1), id2, PageRest(l2, p2));
    }
    PageRestInjective(l1, p1, l2, p2);
  }

  /** The second character of each namespace tells the keys apart. */
  lemma AllTasksKeyTag(l: int, p: int)
    ensures AllTasksKey(l, p)[1] == 'L'
  {
    var k := AllTasksKey(l, p);
    assert k[1] == k[..|ALL_TASKS|][1];
  }

  lemma AuthorTasksKeyTag(id: string, l: int, p: int)
    ensures AuthorTasksKey(id, l, p)[1] == 'U'
  {
    var k := AuthorTasksKey(id, l, p);
    assert k[1] == k[..|AUTHOR_TASKS| + 1 + |id|][1];
  }

  lemma AssignedTasksKeyTag(id: string, l: int, p: int)
    ensures AssignedTasksKey(id, l, p)[1] == 'S'
  {
    var k := AssignedTasksKey(id, l, p);
    assert k[1] == k[..|ASSIGNED_TASKS| + 1 + |id|][1];
  }

  /** The three namespaces never share a key. */
  lemma NamespacesDisjoint(l: int, p: int, id: string, l': int, p': int, id': string, l'': int, p'': int)
    ensures AllTasksKey(l, p) != AuthorTasksKey(id, l', p')
    ensures AllTasksKey(l, p) != AssignedTasksKey(id', l'', p'')
    ensures AuthorTasksKey(id, l', p') != AssignedTasksKey(id', l'', p'')
  {
    AllTasksKeyTag(l, p);
    AuthorTasksKeyTag(id, l', p');
    AssignedTasksKeyTag(id', l'', p'');
  }

  /** Without the colon-free condition two different requests can share a key. */
  lemma ColonInIdCollides()
    ensures AuthorTasksKey("x:limit=1:page=2", 0, 0) == AuthorTasksKey("x", 1, 2)
  {
    assert IntToString(1) == "1" && IntToString(2) == "2";
  }

  // ---------------------------------------------------------------- the service

  const SERVICE_NAME := "tasks"
  const FIND_ALL_EVENT := "tasks.findAll"
  const FIND_BY_AUTHOR_EVENT := "tasks.findByAuthorId"
  /** `'EX', 3600`: cached lists live one hour. */
  const TTL: nat := 3600

  /** A call into the tasks service behind the cache. */
  datatype ServiceCall =
    | FindAll(limit: int, page: int)
    | FindByAuthorId(authorId: string, limit: int, page: int)

  /** `JSON.parse(cachedTasks).tasks.length`, read for the hit log of `findAllRedis`: the error it raises, if any. */
  function TaskCountFailure(cached: Value): (r: Option<Thrown>)
    ensures r.None? <==> Get(cached, "tasks") != Undefined && Get(cached, "tasks") != Null
    ensures r.Some? ==> r.value.OtherError? && !CarriesStatus(r.value)
  {
    if cached == Undefined || cached == Null then Some(PropertyReadError(cached, "tasks"))
    else if Get(cached, "tasks") == Undefined || Get(cached, "tasks") == Null then Some(PropertyReadError(Get(cached, "tasks"), "length"))
    else None
  }

  /** The `filter` part of a hit log's details; the count message is not modelled. */
  function HitDetails(limit: int, page: int): Value {
    Obj(map["filter" := Object2("limit", Num(limit), "page", Num(page))])
  }

  /** A `catch` with the tasks helper: an RpcException is rethrown, anything else ends the call with `undefined`. */
  function CaughtResult(e: Thrown): (r: Completion<Value>)
    ensures r.Throw? <==> e.RpcException?
    ensures r.Throw? ==> r.error == e
    ensures r.Normal? ==> r.value == Undefined
  {
    if e.RpcException? then Throw(e) else Normal(Undefined)
  }

  /**
   * One read-through request: its key, the service call a miss makes, the
   * hit log's event and message, whether that log counts `tasks` (only
   * `findAllRedis` does), and the ids and page it was made with.
   */
  datatype Query = Query(
    key: string,
    call: ServiceCall,
    hitEvent: string,
    hitMessage: string,
    countsTasks: bool,
    requestId: string,
    userId: string,
    limit: int,
    page: int)

  /** `findAllRedis`: the ALLTASKS key, `findAll` on a miss, and a hit log that counts `tasks`. */
  function FindAllQuery(requestId: string, userId: string, limit: int, page: int): (q: Query)
    ensures q.key == AllTasksKey(limit, page) && q.call == FindAll(limit, page)
    ensures q.countsTasks && q.hitEvent == FIND_ALL_EVENT && q.hitMessage == "Task find all successfully (Redis)"
    ensures q.requestId == requestId && q.userId == userId && q.limit == limit && q.page == page
  {
    Query(AllTasksKey(limit, page), FindAll(limit, page), FIND_ALL_EVENT,
          "Task find all successfully (Redis)", true, requestId, userId, limit, page)
  }

  /** `findByAuthorIdRedis`: the AUTHORTASKS key of the author, and `findByAuthorId` of that author on a miss. */
  function FindByAuthorIdQuery(authorId: string, requestId: string, userId: string, limit: int, page: int): (q: Query)
    ensures q.key == AuthorTasksKey(authorId, limit, page) && q.call == FindByAuthorId(authorId, limit, page)
    ensures !q.countsTasks && q.hitEvent == FIND_BY_AUTHOR_EVENT
    ensures q.hitMessage == "Task by author #" + authorId + " find all successfully"
    ensures q.requestId == requestId && q.userId == userId && q.limit == limit && q.page == page
  {
    Query(AuthorTasksKey(authorId, limit, page), FindByAuthorId(authorId, limit, page), FIND_BY_AUTHOR_EVENT,
          "Task by author #" + authorId + " find all successfully", false, requestId, userId, limit, page)
  }

  /** `findByAssignedIdRedis`: its own key, but on a miss it asks for the tasks AUTHORED by the assigned id. */
  function FindByAssignedIdQuery(assignedId: string, requestId: string, userId: string, limit: int, page: int): (q: Query)
    ensures q.key == AssignedTasksKey(assignedId, limit, page) && q.call == FindByAuthorId(assignedId, limit, page)
    ensures !q.countsTasks && q.hitEvent == FIND_BY_AUTHOR_EVENT
    ensures q.hitMessage == "Task by user assigned #" + assignedId + " find all successfully"
    ensures q.requestId == requestId && q.userId == userId && q.limit == limit && q.page == page
  {
    Query(AssignedTasksKey(assignedId, limit, page), FindByAuthorId(assignedId, limit, page), FIND_BY_AUTHOR_EVENT,
          "Task by user assigned #" + assignedId + " find all successfully", false, requestId, userId, limit, page)
  }

  /** What a read-through touches: the Redis entries, the log outbox and the calls made to the tasks service. */
  datatype CacheState = CacheState(entries: map<string, Entry>, outbox: seq<LogRecord>, calls: seq<ServiceCall>)

  datatype Step = Step(state: CacheState, result: Completion<Value>)

  /** The `catch` block: one record from `logAndHandleError`, then the caught result. */
  function Caught(st: CacheState, q: Query, e: Thrown): (out: Step)
    ensures out.state.entries == st.entries && out.state.calls == st.calls
    // the record is the handler's, filed under 'tasks.findAll' whichever read failed
    ensures out.state.outbox == st.outbox + [HandlerRecord(e, Some(q.requestId), SERVICE_NAME, Some(q.userId), FIND_ALL_EVENT)]
    ensures out.state.outbox[|st.outbox|].eventType == FIND_ALL_EVENT
    // only an RpcException escapes; anything else ends the call with `undefined`
    ensures out.result.Throw? <==> e.RpcException?
    ensures out.result.Normal? ==> out.result.value == Undefined
  {
    Step(st.(outbox := st.outbox + [HandlerRecord(e, Some(q.requestId), SERVICE_NAME, Some(q.userId), FIND_ALL_EVENT)]), CaughtResult(e))
  }

  /** The call reaches the tasks service: `get` answered and found nothing usable. */
  predicate Misses(st: CacheState, q: Query, now: int, fault: CacheFault) {
    !fault.GetFails? && Cached(st.entries, q.key, now).None?
  }

  /** A miss the service answered and whose answer `set` stored. */
  predicate Caches(st: CacheState, q: Query, now: int, service: ServiceCall -> Completion<Value>, fault: CacheFault) {
    Misses(st, q, now, fault) && service(q.call).Normal? && !fault.SetFails?
  }

  /** A hit whose count for the hit log (when the query takes one) fails. */
  predicate HitCountFails(st: CacheState, q: Query, now: int, fault: CacheFault) {
    !fault.GetFails? && Cached(st.entries, q.key, now).Some? && q.countsTasks && TaskCountFailure(Cached(st.entries, q.key, now).value).Some?
  }

  /**
   * One read-through call at time `now`, with `service` answering the tasks
   * service's calls and `fault` saying whether Redis's `get` or `set` fails.
   */
  function ReadThroughStep(st: CacheState, q: Query, now: int, service: ServiceCall -> Completion<Value>, fault: CacheFault): (out: Step)
    // only RpcExceptions escape
    ensures out.result.Throw? ==> out.result.error.RpcException?
    // the service is called exactly once on a miss, and never otherwise
    ensures out.state.calls == st.calls + (if Misses(st, q, now, fault) then [q.call] else [])
    // only a cached answer writes: the answer, under the query's own key, for an hour
    ensures out.state.entries ==
      (if Caches(st, q, now, service, fault) then st.entries[q.key := Entry(service(q.call).value, now + TTL)] else st.entries)
    // a hit answers the cached value
    ensures !fault.GetFails? && Cached(st.entries, q.key, now).Some? && !HitCountFails(st, q, now, fault) ==>
      out.result == Normal(Cached(st.entries, q.key, now).value)
    // a cached miss answers what the service answered
    ensures Caches(st, q, now, service, fault) ==> out.result == service(q.call)
    // every failure ends as the tasks helper handles it: of `get`, of the count, of the service, of `set`
    ensures fault.GetFails? ==> out.result == CaughtResult(fault.error)
    ensures HitCountFails(st, q, now, fault) ==>
      out.result == CaughtResult(TaskCountFailure(Cached(st.entries, q.key, now).value).value)
    ensures Misses(st, q, now, fault) && service(q.call).Throw? ==> out.result == CaughtResult(service(q.call).error)
    ensures Misses(st, q, now, fault) && service(q.call).Normal? && fault.SetFails? ==> out.result == CaughtResult(fault.error)
    // exactly one log record is written, except for a cached miss
    ensures |out.state.outbox| == |st.outbox| + (if Caches(st, q, now, service, fault) then 0 else 1)
    ensures out.state.outbox[..|st.outbox|] == st.outbox
    // that record: the query's INFO record on a hit, and the handler's record under 'tasks.findAll' for each failure
    ensures Caches(st, q, now, service, fault) ==> out.state.outbox == st.outbox
    ensures !fault.GetFails? && Cached(st.entries, q.key, now).Some? && !HitCountFails(st, q, now, fault) ==>
      out.state.outbox == st.outbox + [InfoRecord(q.requestId, SERVICE_NAME, q.userId, q.hitEvent, Str(q.hitMessage), HitDetails(q.limit, q.page))]
    ensures fault.GetFails? ==>
      out.state.outbox == st.outbox + [HandlerRecord(fault.error, Some(q.requestId), SERVICE_NAME, Some(q.userId), FIND_ALL_EVENT)]
    ensures HitCountFails(st, q, now, fault) ==>
      out.state.outbox == st.outbox + [HandlerRecord(TaskCountFailure(Cached(st.entries, q.key, now).value).value,
                                                     Some(q.requestId), SERVICE_NAME, Some(q.userId), FIND_ALL_EVENT)]
    ensures Misses(st, q, now, fault) && service(q.call).Throw? ==>
      out.state.outbox == st.outbox + [HandlerRecord(service(q.call).error, Some(q.requestId), SERVICE_NAME, Some(q.userId), FIND_ALL_EVENT)]
    ensures Misses(st, q, now, fault) && service(q.call).Normal? && fault.SetFails? ==>
      out.state.outbox == st.outbox + [HandlerRecord(fault.error, Some(q.requestId), SERVICE_NAME, Some(q.userId), FIND_ALL_EVENT)]
  {
    if fault.GetFails? then Caught(st, q, fault.error)
    else match Cached(st.entries, q.key, now)
    case Some(cached) =>
      if q.countsTasks && TaskCountFailure(cached).Some? then
        Caught(st, q, TaskCountFailure(cached).value)
      else
        Step(st.(outbox := st.outbox + [InfoRecord(q.requestId, SERVICE_NAME, q.userId, q.hitEvent, Str(q.hitMessage), HitDetails(q.limit, q.page))]),
             Normal(cached))
    case None =>
      var st' := st.(calls := st.calls + [q.call]);
      match service(q.call)
      case Normal(v) =>
        if fault.SetFails? then Caught(st', q, fault.error)
        else Step(st'.(entries := st.entries[q.key := Entry(v, now + TTL)]), Normal(v))
      case Throw(e) => Caught(st', q, e)
  }

  /**
   * A list the service returned is served from the cache for the next hour:
   * the same request again returns it without calling the service.
   */
  lemma RepeatWithinTheHourIsHit(st: CacheState, q: Query, now: int, later: int,
                                 service: ServiceCall -> Completion<Value>, service': ServiceCall -> Completion<Value>, fault': CacheFault)
    requires Misses(st, q, now, NoCacheFault) && service(q.call).Normal? && service(q.call).value != Undefined
    requires now <= later < now + TTL
    requires !fault'.GetFails?
    requires !q.countsTasks || TaskCountFailure(service(q.call).value).None?
    ensures ReadThroughStep(ReadThroughStep(st, q, now, service, NoCacheFault).state, q, later, service', fault').result == Normal(service(q.call).value)
    ensures ReadThroughStep(ReadThroughStep(st, q, now, service, NoCacheFault).state, q, later, service', fault').state.calls == st.calls + [q.call]
  {
    var first := ReadThroughStep(st, q, now, service, NoCacheFault);
    SetVisibleUntilExpiry(st.entries, q.key, service(q.call).value, TTL, now, later);
    assert Cached(first.state.entries, q.key, later) == Some(service(q.call).value);
  }

  /** An `undefined` answer is stored as an empty string, which reads as a miss: the same request within the hour asks the service again. */
  lemma UndefinedAnswerIsAskedAgain(st: CacheState, q: Query, now: int, later: int,
                                    service: ServiceCall -> Completion<Value>, service': ServiceCall -> Completion<Value>)
    requires Misses(st, q, now, NoCacheFault) && service(q.call) == Normal(Undefined)
    requires now <= later < now + TTL
    ensures ReadThroughStep(ReadThroughStep(st, q, now, service, NoCacheFault).state, q, later, service', NoCacheFault).state.calls
            == st.calls + [q.call, q.call]
  {
    var first := ReadThroughStep(st, q, now, service, NoCacheFault);
    SetVisibleUntilExpiry(st.entries, q.key, Undefined, TTL, now, later);
    assert Cached(first.state.entries, q.key, later).None?;
  }

  /** After the hour the entry is gone and the same request asks the service again. */
  lemma ExpiredEntryIsMiss(st: CacheState, q: Query, now: int, later: int,
                           service: ServiceCall -> Completion<Value>, service': ServiceCall -> Completion<Value>)
    requires Misses(st, q, now, NoCacheFault) && service(q.call).Normal?
    requires later >= now + TTL
    ensures ReadThroughStep(ReadThroughStep(st, q, now, service, NoCacheFault).state, q, later, service', NoCacheFault).state.calls
            == st.calls + [q.call, q.call]
  {
    SetVisibleUntilExpiry(st.entries, q.key, service(q.call).value, TTL, now, later);
  }

  /** A failed call stores nothing: the next identical request asks the service again. */
  lemma FailureIsNotCached(st: CacheState, q: Query, now: int, later: int,
                           service: ServiceCall -> Completion<Value>, service': ServiceCall -> Completion<Value>)
    requires Misses(st, q, now, NoCacheFault) && service(q.call).Throw?
    ensures ReadThroughStep(st, q, now, service, NoCacheFault).state.entries == st.entries
    ensures ReadThroughStep(st, q, now, service, NoCacheFault).result == CaughtResult(service(q.call).error)
    ensures Cached(st.entries, q.key, later).None? ==>
      ReadThroughStep(ReadThroughStep(st, q, now, service, NoCacheFault).state, q, later, service', NoCacheFault).state.calls
      == st.calls + [q.call, q.call]
  {
  }

  /**
   * A `set` that fails with a Redis error throws away the list the service
   * returned: nothing is cached, an ERROR is logged and the call answers
   * `undefined`.
   */
  lemma FailedSetLosesAnswer(st: CacheState, q: Query, now: int, service: ServiceCall -> Completion<Value>, e: Thrown)
    requires Misses(st, q, now, SetFails(e)) && service(q.call).Normal?
    requires e.OtherError? && !CarriesStatus(e)
    ensures ReadThroughStep(st, q, now, service, SetFails(e)).result == Normal(Undefined)
    ensures ReadThroughStep(st, q, now, service, SetFails(e)).state.entries == st.entries
    ensures ReadThroughStep(st, q, now, service, SetFails(e)).state.outbox[|st.outbox|].level == "ERROR"
  {
    SilentErrorLoggedAsInternal(e, Some(q.requestId), SERVICE_NAME, Some(q.userId), FIND_ALL_EVENT);
  }

  /**
   * On a double miss, the author and the assigned-user reads of the same id
   * make the same service call, so both keys end up holding the tasks authored
   * by that id.
   */
  lemma AssignedReadCachesAuthoredTasks(st: CacheState, id: string, requestId: string, userId: string, limit: int, page: int, now: int,
                                        service: ServiceCall -> Completion<Value>)
    requires Cached(st.entries, AuthorTasksKey(id, limit, page), now).None?
    requires Cached(st.entries, AssignedTasksKey(id, limit, page), now).None?
    requires service(FindByAuthorId(id, limit, page)).Normal?
    ensures ReadThroughStep(st, FindByAssignedIdQuery(id, requestId, userId, limit, page), now, service, NoCacheFault).result
         == ReadThroughStep(st, FindByAuthorIdQuery(id, requestId, userId, limit, page), now, service, NoCacheFault).result
    ensures ReadThroughStep(st, FindByAssignedIdQuery(id, requestId, userId, limit, page), now, service, NoCacheFault).state.entries[AssignedTasksKey(id, limit, page)]
         == ReadThroughStep(st, FindByAuthorIdQuery(id, requestId, userId, limit, page), now, service, NoCacheFault).state.entries[AuthorTasksKey(id, limit, page)]
  {
  }

  /** A hit on a stored list without `tasks` fails in the hit log's count: logged as an error, answered with `undefined`. */
  lemma FindAllHitWithoutTasks(st: CacheState, requestId: string, userId: string, limit: int, page: int, now: int,
                               service: ServiceCall -> Completion<Value>, fault: CacheFault)
    requires !fault.GetFails? && Cached(st.entries, AllTasksKey(limit, page), now).Some?
    requires Get(Cached(st.entries, AllTasksKey(limit, page), now).value, "tasks") == Undefined
    ensures ReadThroughStep(st, FindAllQuery(requestId, userId, limit, page), now, service, fault).result == Normal(Undefined)
    ensures ReadThroughStep(st, FindAllQuery(requestId, userId, limit, page), now, service, fault).state.outbox[|st.outbox|].level == "ERROR"
  {
    var cached := Cached(st.entries, AllTasksKey(limit, page), now).value;
    var e := TaskCountFailure(cached).value;
    SilentErrorLoggedAsInternal(e, Some(requestId), SERVICE_NAME, Some(userId), FIND_ALL_EVENT);
  }

  class TasksCacheService {
    const redis: RedisClient
    const logger: LoggerService
    /** Every call made to the tasks service, oldest first. */
    var serviceCalls: seq<ServiceCall>

    constructor (redis: RedisClient, logger: LoggerService)
      ensures this.redis == redis && this.logger == logger && serviceCalls == []
    {
      this.redis := redis;
      this.logger := logger;
      serviceCalls := [];
    }

    function State(): CacheState
      reads this, redis, logger
    {
      CacheState(redis.entries, logger.outbox, serviceCalls)
    }

    /** The body shared by the three reads. */
    method ReadThrough(q: Query, now: int, service: ServiceCall -> Completion<Value>, fault: CacheFault) returns (r: Completion<Value>)
      modifies this, redis, logger
      ensures Step(State(), r) == ReadThroughStep(old(State()), q, now, service, fault)
      ensures redis.published == old(redis.published)
    {
      var failure: Thrown;
      if fault.GetFails? {
        failure := fault.error;
      } else {
        var stored := redis.Get(q.key, now);
        if stored.Some? && stored.value != Undefined {
          var countFailure := if q.countsTasks then TaskCountFailure(stored.value) else None;
          if countFailure.None? {
            logger.LogInfo(q.requestId, SERVICE_NAME, q.userId, q.hitEvent, Str(q.hitMessage), HitDetails(q.limit, q.page));
            return Normal(stored.value);
          }
          failure := countFailure.value;
        } else {
          serviceCalls := serviceCalls + [q.call];
          var result := service(q.call);
          if result.Normal? && !fault.SetFails? {
            redis.Set(q.key, result.value, TTL, now);
            return Normal(result.value);
          }
          failure := if result.Throw? then result.error else fault.error;
        }
      }
      var _ := LogAndHandleErrorTasks(failure, logger, Some(q.requestId), SERVICE_NAME, Some(q.userId), FIND_ALL_EVENT);
      r := CaughtResult(failure);
    }

    /** `findAllRedis` */
    method FindAllRedis(requestId: string, userId: string, limit: int, page: int, now: int,
                        service: ServiceCall -> Completion<Value>, fault: CacheFault)
      returns (r: Completion<Value>)
      modifies this, redis, logger
      ensures Step(State(), r) == ReadThroughStep(old(State()), FindAllQuery(requestId, userId, limit, page), now, service, fault)
      ensures redis.published == old(redis.published)
    {
      r := ReadThrough(FindAllQuery(requestId, userId, limit, page), now, service, fault);
    }

    /** `findByAuthorIdRedis` */
    method FindByAuthorIdRedis(authorId: string, requestId: string, userId: string, limit: int, page: int, now: int,
                               service: ServiceCall -> Completion<Value>, fault: CacheFault)
      returns (r: Completion<Value>)
      modifies this, redis, logger
      ensures Step(State(), r) == ReadThroughStep(old(State()), FindByAuthorIdQuery(authorId, requestId, userId, limit, page), now, service, fault)
      ensures redis.published == old(redis.published)
    {
      r := ReadThrough(FindByAuthorIdQuery(authorId, requestId, userId, limit, page), now, service, fault);
    }

    /** `findByAssignedIdRedis` */
    method FindByAssignedIdRedis(assignedId: string, requestId: string, userId: string, limit: int, page: int, now: int,
                                 service: ServiceCall -> Completion<Value>, fault: CacheFault)
      returns (r: Completion<Value>)
      modifies this, redis, logger
      ensures Step(State(), r) == ReadThroughStep(old(State()), FindByAssignedIdQuery(assignedId, requestId, userId, limit, page), now, service, fault)
      ensures redis.published == old(redis.published)
    {
      r := ReadThrough(FindByAssignedIdQuery(assignedId, requestId, userId, limit, page), now, service, fault);
    }
  }
}
