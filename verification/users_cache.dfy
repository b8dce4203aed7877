/**
 * auth/src/users/users-cache.service.ts: `getUsers`, a read-through cache of
 * the user list in Redis. Same shape as the tasks cache, but its `catch` uses
 * the auth service's helper, which always throws.
 */
module UsersCache {
  import opened Wrappers
  import opened Js
  import opened Errors
  import opened Logs
  import opened LogHelpers
  import opened Redis
  import opened CacheKeys

  const ALL_USERS := "AllUsers"
  const SERVICE_NAME := "auth"
  const FIND_ALL_EVENT := "users.findAll"
  const HIT_MESSAGE := "Users find all successfully (Redis)"
  /** `'EX', 3600`: the cached list lives one hour. */
  const TTL: nat := 3600

  /** 'AllUsers' when `limit` is 0 (the page is then ignored), `AllUsers:limit=L:page=P` otherwise. */
  function UsersKey(limit: int, page: int): (k: string)
    ensures |k| >= |ALL_USERS| && k[..|ALL_USERS|] == ALL_USERS
    ensures |k| == |ALL_USERS| <==> limit == 0
  {
    ALL_USERS + PageRest(limit, page)
  }

  /** Two requests share a key exactly when they ask for the same page. */
  lemma UsersKeyInjective(l1: int, p1: int, l2: int, p2: int)
    ensures UsersKey(l1, p1) == UsersKey(l2, p2) <==> l1 == l2 && (l1 == 0 || p1 == p2)
  {
    if UsersKey(l1, p1) == UsersKey(l2, p2) {
      assert UsersKey(l1, p1)[|ALL_USERS|..] == PageRest(l1, p1);
      assert UsersKey(l2, p2)[|ALL_USERS|..] == PageRest(l2, p2);
    }
    PageRestInjective(l1, p1, l2, p2);
  }

  /** The unpaginated key is 'AllUsers' itself, and it is the only key without a page. */
  lemma OnlyFirstKeyIsBare(limit: int, page: int)
    ensures UsersKey(limit, page) == ALL_USERS <==> limit == 0
  {
    if limit != 0 {
      assert |UsersKey(limit, page)| > |ALL_USERS|;
    }
  }

  /** `usersService.findAll(requestId, userId, limit, page)` */
  datatype FindAllCall = FindAllUsers(limit: int, page: int)

  /** `JSON.parse(cachedUsers).users.length`, read for the hit log: the TypeError it raises, if any. */
  function UserCountFailure(cached: Value): (r: Option<Thrown>)
    ensures r.None? <==> Get(cached, "users") != Undefined && Get(cached, "users") != Null
    ensures r.Some? ==> r.value.OtherError? && !CarriesStatus(r.value)
  {
    if cached == Undefined || cached == Null then Some(PropertyReadError(cached, "users"))
    else if Get(cached, "users") == Undefined || Get(cached, "users") == Null then Some(PropertyReadError(Get(cached, "users"), "length"))
    else None
  }

  /** The count the hit log evidently means: the `length` of the cached list itself, which fails only for `null`. */
  function ListCountFailure(cached: Value): (r: Option<Thrown>)
    ensures r.None? <==> cached != Undefined && cached != Null
    ensures r.Some? ==> r.value.OtherError? && !CarriesStatus(r.value)
  {
    if cached == Undefined || cached == Null then Some(PropertyReadError(cached, "length")) else None
  }

  /** The `filter` part of the hit log's details; the count message is not modelled. */
  function HitDetails(limit: int, page: int): Value {
    Obj(map["filter" := Object2("limit", Num(limit), "page", Num(page))])
  }

  /** What `getUsers` touches: the Redis entries, the log outbox and the calls made to the users service. */
  datatype UsersCacheState = UsersCacheState(entries: map<string, Entry>, outbox: seq<LogRecord>, calls: seq<FindAllCall>)

  datatype Step = Step(state: UsersCacheState, result: Completion<Value>)

  /** The `catch` block: one record, then the auth helper's throw. */
  function Caught(st: UsersCacheState, requestId: string, userId: string, e: Thrown): (out: Step)
    ensures out.state.entries == st.entries && out.state.calls == st.calls
    ensures out.state.outbox == st.outbox + [HandlerRecord(e, Some(requestId), SERVICE_NAME, Some(userId), FIND_ALL_EVENT)]
    // the call always throws: an RpcException as it is, anything else as the generic 500
    ensures out.result == Throw(if e.RpcException? then e else InternalError())
  {
    Step(st.(outbox := st.outbox + [HandlerRecord(e, Some(requestId), SERVICE_NAME, Some(userId), FIND_ALL_EVENT)]),
         Throw(HandleRpcErrorAuth(e).error))
  }

  /** The call reaches the users service: `get` answered and found nothing usable. */
  predicate Misses(st: UsersCacheState, limit: int, page: int, now: int, fault: CacheFault) {
    !fault.GetFails? && Cached(st.entries, UsersKey(limit, page), now).None?
  }

  /** A miss the users service answered and whose answer `set` stored. */
  predicate Caches(st: UsersCacheState, limit: int, page: int, now: int, findAll: FindAllCall -> Completion<Value>, fault: CacheFault) {
    Misses(st, limit, page, now, fault) && findAll(FindAllUsers(limit, page)).Normal? && !fault.SetFails?
  }

  /**
   * One `getUsers` call at time `now`, with `findAll` answering the users
   * service's calls, `fault` saying whether Redis's `get` or `set` fails, and
   * `count` reading the hit log's count out of the cached value.
   */
  function UsersReadStep(count: Value -> Option<Thrown>, st: UsersCacheState, requestId: string, userId: string, limit: int, page: int,
                         now: int, findAll: FindAllCall -> Completion<Value>, fault: CacheFault): (out: Step)
    // every failure ends in a throw, and a failure that is not an RpcException as the generic 500
    ensures out.result.Throw? ==> out.result.error.RpcException?
    // the users service is called exactly once on a miss, and never otherwise
    ensures out.state.calls == st.calls + (if Misses(st, limit, page, now, fault) then [FindAllUsers(limit, page)] else [])
    // only a cached answer writes: the answer, under the request's own key, for an hour
    ensures out.state.entries ==
      (if Caches(st, limit, page, now, findAll, fault) then st.entries[UsersKey(limit, page) := Entry(findAll(FindAllUsers(limit, page)).value, now + TTL)]
       else st.entries)
    // a hit answers the cached value when its count can be read, and throws that read's error otherwise
    ensures !fault.GetFails? && Cached(st.entries, UsersKey(limit, page), now).Some? ==>
      out.result == (if count(Cached(st.entries, UsersKey(limit, page), now).value).None? then Normal(Cached(st.entries, UsersKey(limit, page), now).value)
                     else Throw(HandleRpcErrorAuth(count(Cached(st.entries, UsersKey(limit, page), now).value).value).error))
    // a cached miss answers what the users service answered
    ensures Caches(st, limit, page, now, findAll, fault) ==> out.result == findAll(FindAllUsers(limit, page))
    // a failing `get`, users service or `set` ends in the auth helper's throw
    ensures fault.GetFails? ==> out.result == Throw(HandleRpcErrorAuth(fault.error).error)
    ensures Misses(st, limit, page, now, fault) && findAll(FindAllUsers(limit, page)).Throw? ==>
      out.result == Throw(HandleRpcErrorAuth(findAll(FindAllUsers(limit, page)).error).error)
    ensures Misses(st, limit, page, now, fault) && findAll(FindAllUsers(limit, page)).Normal? && fault.SetFails? ==>
      out.result == Throw(HandleRpcErrorAuth(fault.error).error)
    // exactly one log record is written, except for a cached miss
    ensures |out.state.outbox| == |st.outbox| + (if Caches(st, limit, page, now, findAll, fault) then 0 else 1)
    ensures out.state.outbox[..|st.outbox|] == st.outbox
    // that record: the INFO record on a hit whose count reads, and the handler's record under 'users.findAll' for each failure
    ensures Caches(st, limit, page, now, findAll, fault) ==> out.state.outbox == st.outbox
    ensures !fault.GetFails? && Cached(st.entries, UsersKey(limit, page), now).Some? ==>
      out.state.outbox == st.outbox +
        [if count(Cached(st.entries, UsersKey(limit, page), now).value).None?
         then InfoRecord(requestId, SERVICE_NAME, userId, FIND_ALL_EVENT, Str(HIT_MESSAGE), HitDetails(limit, page))
         else HandlerRecord(count(Cached(st.entries, UsersKey(limit, page), now).value).value, Some(requestId), SERVICE_NAME, Some(userId), FIND_ALL_EVENT)]
    ensures fault.GetFails? ==>
      out.state.outbox == st.outbox + [HandlerRecord(fault.error, Some(requestId), SERVICE_NAME, Some(userId), FIND_ALL_EVENT)]
    ensures Misses(st, limit, page, now, fault) && findAll(FindAllUsers(limit, page)).Throw? ==>
      out.state.outbox == st.outbox + [HandlerRecord(findAll(FindAllUsers(limit, page)).error, Some(requestId), SERVICE_NAME, Some(userId), FIND_ALL_EVENT)]
    ensures Misses(st, limit, page, now, fault) && findAll(FindAllUsers(limit, page)).Normal? && fault.SetFails? ==>
      out.state.outbox == st.outbox + [HandlerRecord(fault.error, Some(requestId), SERVICE_NAME, Some(userId), FIND_ALL_EVENT)]
  {
    var key := UsersKey(limit, page);
    if fault.GetFails? then Caught(st, requestId, userId, fault.error)
    else match Cached(st.entries, key, now)
    case Some(cached) =>
      if count(cached).Some? then
        Caught(st, requestId, userId, count(cached).value)
      else
        Step(st.(outbox := st.outbox + [InfoRecord(requestId, SERVICE_NAME, userId, FIND_ALL_EVENT, Str(HIT_MESSAGE), HitDetails(limit, page))]),
             Normal(cached))
    case None =>
      var st' := st.(calls := st.calls + [FindAllUsers(limit, page)]);
      match findAll(FindAllUsers(limit, page))
      case Normal(v) =>
        if fault.SetFails? then Caught(st', requestId, userId, fault.error)
        else Step(st'.(entries := st.entries[key := Entry(v, now + TTL)]), Normal(v))
      case Throw(e) => Caught(st', requestId, userId, e)
  }

  /** `getUsers` as written: the hit log reads `.users.length`. */
  function GetUsersStep(st: UsersCacheState, requestId: string, userId: string, limit: int, page: int, now: int,
                        findAll: FindAllCall -> Completion<Value>, fault: CacheFault): (out: Step)
    // a hit is served exactly when the cached value has a `users` field other than undefined and null
    ensures !fault.GetFails? && Cached(st.entries, UsersKey(limit, page), now).Some? ==>
      (out.result.Normal? <==> Get(Cached(st.entries, UsersKey(limit, page), now).value, "users") != Undefined &&
                               Get(Cached(st.entries, UsersKey(limit, page), now).value, "users") != Null)
    // a hit that is not served throws the generic 500
    ensures !fault.GetFails? && Cached(st.entries, UsersKey(limit, page), now).Some? && out.result.Throw? ==>
      out.result.error == InternalError()
  {
    UsersReadStep(UserCountFailure, st, requestId, userId, limit, page, now, findAll, fault)
  }

  /** `getUsers` with the hit log counting the cached list itself. */
  function IntendedGetUsersStep(st: UsersCacheState, requestId: string, userId: string, limit: int, page: int, now: int,
                                findAll: FindAllCall -> Completion<Value>, fault: CacheFault): (out: Step)
    // every hit except a cached `null` is served, whatever the shape of the cached value
    ensures !fault.GetFails? && Cached(st.entries, UsersKey(limit, page), now).Some? ==>
      (out.result.Normal? <==> Cached(st.entries, UsersKey(limit, page), now).value != Null)
    ensures !fault.GetFails? && Cached(st.entries, UsersKey(limit, page), now).Some? && out.result.Normal? ==>
      out.result.value == Cached(st.entries, UsersKey(limit, page), now).value
  {
    UsersReadStep(ListCountFailure, st, requestId, userId, limit, page, now, findAll, fault)
  }

  /** An answer with a `users` field is served from the cache for the next hour. */
  lemma SecondCallWithinTheHourIsHit(st: UsersCacheState, requestId: string, userId: string, limit: int, page: int, now: int, later: int,
                                     findAll: FindAllCall -> Completion<Value>, findAll': FindAllCall -> Completion<Value>, fault': CacheFault)
    requires Misses(st, limit, page, now, NoCacheFault) && findAll(FindAllUsers(limit, page)).Normal?
    requires UserCountFailure(findAll(FindAllUsers(limit, page)).value).None?
    requires now <= later < now + TTL && !fault'.GetFails?
    ensures GetUsersStep(GetUsersStep(st, requestId, userId, limit, page, now, findAll, NoCacheFault).state, requestId, userId, limit, page, later, findAll', fault').result
            == findAll(FindAllUsers(limit, page))
    ensures GetUsersStep(GetUsersStep(st, requestId, userId, limit, page, now, findAll, NoCacheFault).state, requestId, userId, limit, page, later, findAll', fault').state.calls
            == st.calls + [FindAllUsers(limit, page)]
  {
    var answer := findAll(FindAllUsers(limit, page)).value;
    var first := GetUsersStep(st, requestId, userId, limit, page, now, findAll, NoCacheFault);
    SetVisibleUntilExpiry(st.entries, UsersKey(limit, page), answer, TTL, now, later);
    assert Cached(first.state.entries, UsersKey(limit, page), later) == Some(answer);
  }

  /**
   * As written, a cached list (which has no `users` field) breaks the hit
   * log's count: within the hour the same request makes no call, logs an
   * ERROR and throws the generic 500.
   */
  lemma ListAnswerHitFails(st: UsersCacheState, requestId: string, userId: string, limit: int, page: int, now: int, later: int,
                           findAll: FindAllCall -> Completion<Value>, findAll': FindAllCall -> Completion<Value>, fault': CacheFault)
    requires Misses(st, limit, page, now, NoCacheFault) && findAll(FindAllUsers(limit, page)).Normal?
    requires findAll(FindAllUsers(limit, page)).value != Undefined && Get(findAll(FindAllUsers(limit, page)).value, "users") == Undefined
    requires now <= later < now + TTL && !fault'.GetFails?
    ensures GetUsersStep(GetUsersStep(st, requestId, userId, limit, page, now, findAll, NoCacheFault).state, requestId, userId, limit, page, later, findAll', fault').result
            == Throw(InternalError())
    ensures GetUsersStep(GetUsersStep(st, requestId, userId, limit, page, now, findAll, NoCacheFault).state, requestId, userId, limit, page, later, findAll', fault').state.calls
            == st.calls + [FindAllUsers(limit, page)]
    ensures GetUsersStep(GetUsersStep(st, requestId, userId, limit, page, now, findAll, NoCacheFault).state, requestId, userId, limit, page, later, findAll', fault').state.outbox[|st.outbox|].level
            == "ERROR"
  {
    var answer := findAll(FindAllUsers(limit, page)).value;
    var first := GetUsersStep(st, requestId, userId, limit, page, now, findAll, NoCacheFault);
    SetVisibleUntilExpiry(st.entries, UsersKey(limit, page), answer, TTL, now, later);
    assert Cached(first.state.entries, UsersKey(limit, page), later) == Some(answer);
    assert first.state.outbox == st.outbox;
    SilentErrorLoggedAsInternal(UserCountFailure(answer).value, Some(requestId), SERVICE_NAME, Some(userId), FIND_ALL_EVENT);
  }

  /** Counting the list itself, any list the users service returns is served from the cache for the next hour. */
  lemma IntendedSecondCallIsHit(st: UsersCacheState, requestId: string, userId: string, limit: int, page: int, now: int, later: int,
                                findAll: FindAllCall -> Completion<Value>, findAll': FindAllCall -> Completion<Value>, fault': CacheFault)
    requires Misses(st, limit, page, now, NoCacheFault) && findAll(FindAllUsers(limit, page)).Normal?
    requires findAll(FindAllUsers(limit, page)).value != Undefined && findAll(FindAllUsers(limit, page)).value != Null
    requires now <= later < now + TTL && !fault'.GetFails?
    ensures IntendedGetUsersStep(IntendedGetUsersStep(st, requestId, userId, limit, page, now, findAll, NoCacheFault).state,
                                 requestId, userId, limit, page, later, findAll', fault').result
            == findAll(FindAllUsers(limit, page))
    ensures IntendedGetUsersStep(IntendedGetUsersStep(st, requestId, userId, limit, page, now, findAll, NoCacheFault).state,
                                 requestId, userId, limit, page, later, findAll', fault').state.calls
            == st.calls + [FindAllUsers(limit, page)]
  {
    var answer := findAll(FindAllUsers(limit, page)).value;
    var first := IntendedGetUsersStep(st, requestId, userId, limit, page, now, findAll, NoCacheFault);
    SetVisibleUntilExpiry(st.entries, UsersKey(limit, page), answer, TTL, now, later);
    assert Cached(first.state.entries, UsersKey(limit, page), later) == Some(answer);
  }

  /** An `undefined` answer reads back as a miss: the same request within the hour calls the users service again. */
  lemma UndefinedAnswerIsAskedAgain(st: UsersCacheState, requestId: string, userId: string, limit: int, page: int, now: int, later: int,
                                    findAll: FindAllCall -> Completion<Value>, findAll': FindAllCall -> Completion<Value>)
    requires Misses(st, limit, page, now, NoCacheFault) && findAll(FindAllUsers(limit, page)) == Normal(Undefined)
    requires now <= later < now + TTL
    ensures GetUsersStep(GetUsersStep(st, requestId, userId, limit, page, now, findAll, NoCacheFault).state, requestId, userId, limit, page, later, findAll', NoCacheFault).state.calls
            == st.calls + [FindAllUsers(limit, page), FindAllUsers(limit, page)]
  {
    var first := GetUsersStep(st, requestId, userId, limit, page, now, findAll, NoCacheFault);
    SetVisibleUntilExpiry(st.entries, UsersKey(limit, page), Undefined, TTL, now, later);
    assert Cached(first.state.entries, UsersKey(limit, page), later).None?;
  }

  /** A failing users service leaves the cache as it was, and an error that is not an RpcException reaches the caller as the generic 500. */
  lemma FailureIsNotCached(st: UsersCacheState, requestId: string, userId: string, limit: int, page: int, now: int,
                           findAll: FindAllCall -> Completion<Value>, fault: CacheFault)
    requires Misses(st, limit, page, now, fault) && findAll(FindAllUsers(limit, page)).Throw?
    ensures GetUsersStep(st, requestId, userId, limit, page, now, findAll, fault).state.entries == st.entries
    ensures !findAll(FindAllUsers(limit, page)).error.RpcException? ==>
      GetUsersStep(st, requestId, userId, limit, page, now, findAll, fault).result == Throw(InternalError())
  {
  }

  class UsersCacheService {
    const redis: RedisClient
    const logger: LoggerService
    /** Every call made to `usersService.findAll`, oldest first. */
    var calls: seq<FindAllCall>

    constructor (redis: RedisClient, logger: LoggerService)
      ensures this.redis == redis && this.logger == logger && calls == []
    {
      this.redis := redis;
      this.logger := logger;
      calls := [];
    }

    function State(): UsersCacheState
      reads this, redis, logger
    {
      UsersCacheState(redis.entries, logger.outbox, calls)
    }

    /** `getUsers`, as written */
    method GetUsers(requestId: string, userId: string, limit: int, page: int, now: int,
                    findAll: FindAllCall -> Completion<Value>, fault: CacheFault)
      returns (r: Completion<Value>)
      modifies this, redis, logger
      ensures Step(State(), r) == GetUsersStep(old(State()), requestId, userId, limit, page, now, findAll, fault)
      ensures redis.published == old(redis.published)
    {
      var key := UsersKey(limit, page);
      var failure: Thrown;
      if fault.GetFails? {
        failure := fault.error;
      } else {
        var stored := redis.Get(key, now);
        if stored.Some? && stored.value != Undefined {
          var countFailure := UserCountFailure(stored.value);
          if countFailure.None? {
            logger.LogInfo(requestId, SERVICE_NAME, userId, FIND_ALL_EVENT, Str(HIT_MESSAGE), HitDetails(limit, page));
            return Normal(stored.value);
          }
          failure := countFailure.value;
        } else {
          calls := calls + [FindAllUsers(limit, page)];
          var result := findAll(FindAllUsers(limit, page));
          if result.Normal? && !fault.SetFails? {
            redis.Set(key, result.value, TTL, now);
            return Normal(result.value);
          }
          failure := if result.Throw? then result.error else fault.error;
        }
      }
      var handled := LogAndHandleErrorAuth(failure, logger, Some(requestId), SERVICE_NAME, Some(userId), FIND_ALL_EVENT);
      r := Throw(handled.error);
    }
  }
}
