# taskflow-nest, the sequential core in Dafny

taskflow-nest is a set of NestJS microservices:

- an HTTP gateway (`api-getawey`);
- an auth service that handles users, registration, login and JWT renewal;
- a tasks service that handles a task table, a Redis read-through cache and notices on `task.assigned`;
- a logs service, reached fire-and-forget;
- a notifications service.

This project models the parts of it that hold logic of their own, and proves what each part promises.

- **Gateway guards** (`guards.dfy`, modules `Guards` and `AuthGuard`):
  - The task-access, roles, user-tasks, author-tasks and user-exist guards are total functions. Each one either lets the request through or answers a status and a message.
  - Lookups on the broker are function parameters. A guard's result also lists the ids it looked up.
  - The bearer guard splits the `Authorization` header exactly as `split(' ')` does.
  - The bearer guard's `canActivate` is a method on a `Request` object. It writes `user` and `token` only on success.
- **Error chain** (`errors.dfy`, `filters.dfy`, `interceptors.dfy`, `logs.dfy`):
  - Thrown values are a datatype: an RpcException with its payload, or another error with its properties.
  - `extractErrorDetails` and the two diverging `handleRpcError` copies are modelled. The auth copy always throws. The tasks copy *returns* a generic 500 for anything that is not an RpcException.
  - So are the two RPC exception filters and the gateway's two `map` steps and its `catchError`. The gateway's `map` steps set the status on an `HttpResponse` object.
  - The logger is a class whose `outbox` field receives one `LogRecord` per `sendLog`.
  - `logAndHandleError` (both variants) is a method. It appends the ERROR or INFO record and then propagates, as its service's handler does.
- **Read-through caches** (`redis.dfy`, `cache_keys.dfy`, `tasks_cache.dfy`, `users_cache.dfy`):
  - Redis is a class holding an expiring key map and a publish log. The clock is a parameter.
  - Keys are built with JavaScript's integer-to-text conversion. They are proved injective, for the tasks cache's scoped keys as long as the id holds no ':' (an id with one can collide).
  - Each read path is a method. Its new state and result are those of a pure step function, and the properties are proved about that function:
    - a hit makes no service call;
    - a miss makes exactly one;
    - an answer other than `undefined` is served from the cache within the hour; an `undefined` answer is stored as an empty string, reads back as a miss and is asked for again;
    - a failure caches nothing, and a failing Redis `get` or `set` (the `fault` parameter) ends in the `catch` block like any other failure.
- **Service state machines** (`tasks_service.dfy`, `auth_service.dfy`):
  - `TasksService` holds the task table. `AuthService` holds the user table.
  - Both work against the shared Redis client and logger.
  - A failing database or Redis call is the `fault` parameter, which names the stage at which it fails. This makes the error paths explicit.
- **Input rules** (`validators.dfy`): the strong-password policy of `CreateUserDto`, and the ObjectId and non-empty rules of `AssignUserRequestDto`.

JavaScript values are modelled explicitly in `js.dfy`:

- truthiness, `||`, and `>=` against a number (`null` counts as 0, `undefined` as NaN);
- reading an absent property, which gives `undefined`.

## Model

| member | source | states |
|---|---|---|
| Js.Truthy | api-getawey/src/guards/auth.guard.ts:26 | falsy exactly for `undefined`, `null`, `false`, `0` and `''` |
| Js.Get | api-getawey/src/interceptors/rpc-exception.interceptor.ts:24-25 | an own property of an object, and `undefined` for an absent one or a non-object |
| Js.Or | tasks/src/logs/logs.service.ts:23 | `a \|\| b` is one of its operands, the first when it is truthy, and truthy iff either is |
| Js.AtLeast | tasks/src/helpers/log-helper.ts:15 | `v >= k` can hold only for a number, a boolean or `null`, and for a number means `n >= k`; `undefined`, strings and objects never compare |
| Guards.FailureMessage | api-getawey/src/guards/task-access.guard.ts:32-34 | `error.message \|\| fallback`: the lookup's own message when it has a non-empty one, and otherwise the fallback; never empty |
| Guards.TaskAccess | api-getawey/src/guards/task-access.guard.ts:18-51 | no user: 403 'Unauthorized' without a lookup; admin: allowed without a lookup; every other role: exactly one lookup, of `params.id`. A failed lookup gives 500 with its message or 'Error getting task'; a reply without a task gives 404 'Task not found'. A manager passes iff author or assignee, a user iff assignee, other roles never; a refusal once the task is known is always 403 with the permission message |
| Guards.AuthorshipAloneRefusedForUser | api-getawey/src/guards/task-access.guard.ts:48-50 | a `user` who authored the task but is not its assignee is refused with 403 |
| Guards.RequiredRoles | api-getawey/src/guards/roles.guard.ts:12-15 | handler-level roles override class-level roles; class roles apply only when the handler declares none |
| Guards.Roles | api-getawey/src/guards/roles.guard.ts:10-28 | no declared roles: allowed even without a user; declared roles: allowed iff a user is attached and its role is in the list; every refusal is 401 'Not authorized' |
| Guards.NoRoleHierarchy | api-getawey/src/guards/roles.guard.ts:25 | an admin is refused on a route that declares only `manager` |
| Guards.EmptyRoleListRefusesAll | api-getawey/src/guards/roles.guard.ts:18-25 | a declared empty role list is truthy, so it refuses every request |
| Guards.UserTasks | api-getawey/src/guards/user-tasks.guard.ts:15-23 | no user: 403 'Unauthorized'; allowed iff admin, manager, or a `user` whose id is `params.id`; every other refusal is 403 with the permission message; depends on nothing but the user and the id |
| Guards.AuthorTasks | api-getawey/src/guards/author-tasks.guards.ts:15-23 | no user: 403 'Unauthorized'; allowed iff admin, or a manager whose id is `params.id`; every other refusal is 403 with the permission message |
| Guards.UserRoleNeverAuthor | api-getawey/src/guards/author-tasks.guards.ts:18-23 | the `user` role is refused even on its own id |
| Guards.AuthorTasksStricterThanUserTasks | api-getawey/src/guards/author-tasks.guards.ts:15-23 | every request the author-tasks guard lets through, the user-tasks guard lets through as well |
| Guards.UserExist | api-getawey/src/guards/user-exist.guard.ts:17-37 | exactly one lookup, of `params.id`, and no dependence on the caller; a failed lookup gives 500 with its message or 'Error getting user'; allowed iff the reply's `user` is truthy, otherwise 404 'User not found' |
| AuthGuard.Split | api-getawey/src/guards/auth.guard.ts:49 | `split(' ')` yields at least one part, and no part contains a space |
| AuthGuard.JoinSplit | api-getawey/src/guards/auth.guard.ts:49 | splitting loses nothing: joining the parts with single spaces gives back the header |
| AuthGuard.SplitAfterWord | api-getawey/src/guards/auth.guard.ts:49 | a space-free word followed by a space splits off as the first part |
| AuthGuard.SplitWord | api-getawey/src/guards/auth.guard.ts:49 | a space-free header is a single part |
| AuthGuard.ExtractToken | api-getawey/src/guards/auth.guard.ts:48-51 | a token is extracted iff a header is present, its first part is exactly 'Bearer' and there is a second part; the token is that second part |
| AuthGuard.BearerGivesToken | api-getawey/src/guards/auth.guard.ts:49-50 | 'Bearer t' and 'Bearer t more' both give `t`: extra parts are ignored |
| AuthGuard.ExtractedTokenShape | api-getawey/src/guards/auth.guard.ts:49-50 | conversely, an extracted token `t` comes from a header that is 'Bearer t' or starts with 'Bearer t ' |
| AuthGuard.OtherSchemeGivesNothing | api-getawey/src/guards/auth.guard.ts:50 | any other scheme, including 'bearer', yields no token |
| AuthGuard.Authenticate | api-getawey/src/guards/auth.guard.ts:18-44 | authenticated iff a non-empty bearer token is extracted and the verification call replies without a truthy `error`; the result is the renewed token; every failure, transport failures included, is 401 'Unauthorized' |
| AuthGuard.EmptySecondPartRefused | api-getawey/src/guards/auth.guard.ts:23-26 | 'Bearer ' and 'Bearer  t' carry an empty token and are refused with 401 |
| AuthGuard.CanActivate | api-getawey/src/guards/auth.guard.ts:18-44 | the outcome is `Authenticate`'s; verification is asked once, and only for a non-empty token; on success `request.user` and `request.token` are the reply's user and renewed token; on failure neither field changes |
| GatewayInterceptors.WithoutStatusCode | api-getawey/src/interceptors/rpc-exception.interceptor.ts:13-15 | `{ statusCode, ...rest }`: exactly the other fields, each with its value unchanged |
| GatewayInterceptors.MapReply | api-getawey/src/interceptors/rpc-exception.interceptor.ts:10-18 | the HTTP status is set iff the response is an object whose `statusCode` is at least 400; it is set to that code and the body loses `statusCode` only; anything else passes through unchanged |
| GatewayInterceptors.MapReplyFilter | api-getawey/src/filters/exception.filter.ts:9-17 | a status is set only to a code of at least 400, and the body then has no `statusCode`; otherwise the response (null or undefined included) is returned as it is |
| GatewayInterceptors.MapCopiesAgree | api-getawey/src/filters/exception.filter.ts:9-17 | the filters/ copy, with its truthiness test and no `typeof` test, maps every reply exactly as the interceptors/ copy does |
| GatewayInterceptors.MapError | api-getawey/src/interceptors/rpc-exception.interceptor.ts:19-31 | a non-Rpc error is rethrown unchanged, and only such an error; an RpcException always leaves as a 400 Bad Request whose `statusCode` is the payload's `status` (500 when absent) and whose message is the payload's `message`, or the payload itself when it has no `message` (an object without one, or not an object at all); a null payload raises a TypeError |
| GatewayInterceptors.InterceptReply | api-getawey/src/interceptors/rpc-exception.interceptor.ts:10-18 | returns `MapReply`'s body; sets the response status exactly when `MapReply` gives one, and leaves it unchanged otherwise |
| GatewayInterceptors.InterceptReplyFilter | api-getawey/src/filters/exception.filter.ts:9-17 | the same, for the filters/ copy |
| Errors.ExtractErrorDetails | auth/src/helpers/error-handler.helper.ts:4-31 | default 500 'Internal server error'. RpcException: status only if numeric, message only if a string; a string payload is the message with status 500. Otherwise `response.statusCode` takes precedence over the error's own `statusCode`, each with its message or the default. The status is the error's own iff it carries one. An RpcException with no string message, either as its payload or in its object payload, gets 'Internal server error'. Any other error that carries no status is exactly the default, 500 'Internal server error' |
| Errors.HandleRpcErrorAuth | auth/src/filters/error-handler.filter.ts:10-17 | never returns; an RpcException is rethrown as it is; anything else becomes the RpcException `{message: 'Internal Server Error', status: 500}` |
| Errors.HandleRpcErrorTasks | tasks/src/tasks/filters/error-handler.filter.ts:4-11 | throws iff the error is an RpcException, and then rethrows it; otherwise RETURNS the generic 500 RpcException |
| Errors.AuthHandlerForgetsCause | auth/src/filters/error-handler.filter.ts:14-17 | any two non-Rpc errors (an expired JWT, a database failure) end as the same generic error |
| Errors.HandlerVariantsDiffer | tasks/src/tasks/filters/error-handler.filter.ts:4-11 | the two copies agree on RpcExceptions; on anything else the tasks copy returns exactly what the auth copy throws |
| Errors.InternalErrorDetails | auth/src/helpers/error-handler.helper.ts:11-18 | the generic error classifies as 500 'Internal Server Error' |
| Errors.PropertyReadError | tasks/src/tasks/tasks-cache.service.ts:62 | reading a property of undefined or null raises a TypeError that carries no status |
| ExceptionFilters.Label | auth/src/filters/exception.filter.ts:18 | 'error' iff the status is at least 500, 'fail' otherwise, including a missing status |
| ExceptionFilters.CatchAuth | auth/src/filters/exception.filter.ts:11-19 | exactly the fields `message`, `statusCode` and `status`; the message is the payload's when truthy, else 'Internal Server Error'; the code is the payload's status unless missing or 0, which give 500; the label is 'error' iff the payload status is at least 500, else 'fail' |
| ExceptionFilters.CatchTasks | tasks/src/tasks/filters/exception.filter.ts:6-15 | the tasks copy builds the same envelope as the auth copy for every payload |
| ExceptionFilters.MissingStatusIsFailWith500 | auth/src/filters/exception.filter.ts:16-17 | a payload without a status is reported with code 500 but labelled 'fail' |
| ExceptionFilters.ErrorLabelMeansServerCode | auth/src/filters/exception.filter.ts:16-17 | whenever the label is 'error', the code is the payload's own and at least 500 |
| Logs.ErrorRecord | tasks/src/logs/logs.service.ts:20-36 | level 'ERROR'; request, user, event and service copied; message is `error.message`, else 'Un error ocurrió', never empty; details are `{error: error.message, stack: error.stack}` |
| Logs.InfoRecord | tasks/src/logs/logs.service.ts:47-61 | level 'INFO'; the given message, and the given details (possibly undefined); request, user, event and service copied |
| Logs.LevelsDistinguishBuilders | tasks/src/logs/logs.service.ts:20-61 | no error record equals an info record |
| Logs.LoggerService.SendLog | tasks/src/logs/logs.service.ts:64-71 | exactly one record more on `logs.create`, appended after the others |
| Logs.LoggerService.LogError | tasks/src/logs/logs.service.ts:20-36 | appends exactly `ErrorRecord` of its arguments |
| Logs.LoggerService.LogInfo | tasks/src/logs/logs.service.ts:47-61 | appends exactly `InfoRecord` of its arguments |
| LogHelpers.HandlerRecord | tasks/src/helpers/log-helper.ts:5-19 | ERROR iff the classified status is at least 500, INFO otherwise. An INFO record carries the classified message and `{message, status}` details. An ERROR record goes through `logError`: its message is the classified message or 'Un error ocurrió', and its details are `{error: message, stack: undefined}`. A missing request or user id reads 'unknown'; service and event are forwarded |
| LogHelpers.ThresholdIs500 | tasks/src/helpers/log-helper.ts:15-19 | a status of exactly 500 is logged as ERROR, and 499 as INFO |
| LogHelpers.SilentErrorLoggedAsInternal | auth/src/helpers/error-handler.helper.ts:5-6 | a non-Rpc error without a status is logged at ERROR level with the default message |
| LogHelpers.LogClassified | tasks/src/helpers/log-helper.ts:5-19 | appends exactly the one `HandlerRecord` |
| LogHelpers.LogAndHandleErrorAuth | auth/src/helpers/log-helper.ts:5-22 | one record appended, then always a throw: the auth handler's result |
| LogHelpers.LogAndHandleErrorTasks | tasks/src/helpers/log-helper.ts:5-22 | one record appended; throws iff the error is an RpcException, and then that very error; any other error ends with a normal return |
| Redis.Stored | auth/src/users/users-cache.service.ts:55 | `get` answers a value iff the key is present and not yet expired, and then the stored value |
| Redis.Cached | tasks/src/tasks/tasks-cache.service.ts:57-60 | `if (cached)` after `get`: a hit iff `get` answers a value other than `undefined`, and then that value; a stored `undefined` was sent as the empty string and reads back falsy |
| Redis.SetVisibleUntilExpiry | tasks/src/tasks/tasks-cache.service.ts:72 | a value set with `'EX', ttl` is read back at time `t` iff `t` is within the ttl seconds |
| Redis.OtherKeysUntouched | auth/src/auth/auth.service.ts:160 | setting or deleting one key changes what no other key reads |
| Redis.RedisClient.Get | tasks/src/tasks/tasks-cache.service.ts:57 | reads `Stored` of the client's entries |
| Redis.RedisClient.Set | tasks/src/tasks/tasks-cache.service.ts:72 | the key now holds the value until `now + ttl`; nothing else changes |
| Redis.RedisClient.Del | auth/src/auth/auth.service.ts:160 | the key is gone; nothing else changes |
| Redis.RedisClient.Publish | tasks/src/tasks/tasks.service.ts:85 | one message appended to the publish log; entries unchanged |
| Decimal.IntToString | tasks/src/tasks/tasks-cache.service.ts:54 | `${n}`: a leading '-' iff negative, digits after it, never a ':' |
| Decimal.IntToStringInjective | tasks/src/tasks/tasks-cache.service.ts:54 | distinct integers print differently |
| CacheKeys.PageSuffix | tasks/src/tasks/tasks-cache.service.ts:54 | `:limit=`, the limit's decimal text, `:page=`, the page's decimal text, in that order and nothing else |
| CacheKeys.PageRest | tasks/src/tasks/tasks-cache.service.ts:54 | empty iff the limit is 0; otherwise it starts with ':' and is the page suffix |
| CacheKeys.PageSuffixInjective | tasks/src/tasks/tasks-cache.service.ts:54 | `:limit=L:page=P` determines L and P |
| CacheKeys.PageRestInjective | tasks/src/tasks/tasks-cache.service.ts:54 | two page parts are equal iff the limits are equal and, when the limit is not 0, the pages too; the page is ignored when the limit is 0 |
| TasksCache.AllTasksKey | tasks/src/tasks/tasks-cache.service.ts:54 | starts with `ALLTASKS`, and is that bare name iff the limit is 0, whatever the page |
| TasksCache.ScopedKey | tasks/src/tasks/tasks-cache.service.ts:132 | starts with `<namespace>:<id>`, and is no longer than that iff the limit is 0 |
| TasksCache.AuthorTasksKey | tasks/src/tasks/tasks-cache.service.ts:132 | starts with `AUTHORTASKS:<authorId>`, with a page part iff the limit is not 0 |
| TasksCache.AssignedTasksKey | tasks/src/tasks/tasks-cache.service.ts:211 | starts with `ASSIGNEDTASK:<assignedId>`, with a page part iff the limit is not 0 |
| TasksCache.AllTasksKeyInjective | tasks/src/tasks/tasks-cache.service.ts:54 | two `findAllRedis` keys are equal iff the requests ask for the same list |
| TasksCache.ScopedKeyInjective | tasks/src/tasks/tasks-cache.service.ts:132 | within a namespace, with ids free of ':', keys are equal iff the ids and the pages are |
| TasksCache.NamespacesDisjoint | tasks/src/tasks/tasks-cache.service.ts:211 | `ALLTASKS`, `AUTHORTASKS:` and `ASSIGNEDTASK:` keys never coincide |
| TasksCache.ColonInIdCollides | tasks/src/tasks/tasks-cache.service.ts:132 | an author id containing ':' can share a key with another request: 'x:limit=1:page=2' unpaged and 'x' on limit 1, page 2 |
| TasksCache.TaskCountFailure | tasks/src/tasks/tasks-cache.service.ts:62 | the hit log's `.tasks.length` fails iff the cached value's `tasks` is undefined or null, with a status-less error |
| TasksCache.CaughtResult | tasks/src/tasks/tasks-cache.service.ts:76-79 | a caught RpcException is rethrown; anything else ends the call with `undefined` |
| TasksCache.FindAllQuery | tasks/src/tasks/tasks-cache.service.ts:52-69 | the `ALLTASKS` key, `findAll` on a miss, the 'tasks.findAll' hit event with message 'Task find all successfully (Redis)', and a hit log that counts `tasks` |
| TasksCache.FindByAuthorIdQuery | tasks/src/tasks/tasks-cache.service.ts:130-148 | the `AUTHORTASKS:<id>` key, `findByAuthorId` of that id on a miss, the 'tasks.findByAuthorId' hit event with message 'Task by author #<id> find all successfully', and no count |
| TasksCache.FindByAssignedIdQuery | tasks/src/tasks/tasks-cache.service.ts:209-226 | its own `ASSIGNEDTASK:<id>` key, but on a miss `findByAuthorId` of the assigned id; the 'tasks.findByAuthorId' hit event with message 'Task by user assigned #<id> find all successfully', and no count |
| TasksCache.Caught | tasks/src/tasks/tasks-cache.service.ts:76-79 | nothing written and no call made; exactly the handler record, filed under 'tasks.findAll' whichever read failed; an RpcException escapes, anything else ends with `undefined` |
| TasksCache.ReadThroughStep | tasks/src/tasks/tasks-cache.service.ts:52-80 | only RpcExceptions escape. The service is called once on a miss and never otherwise. The entries change only when a miss is answered and `set` succeeds, and then the query's key holds the answer for 3600 s. A hit answers the cached value; a cached miss answers the service's answer. A failing `get`, hit-log count, service call or `set` each ends as `CaughtResult` of its error. One log record is written unless a miss was cached, and the log only grows. A hit appends the query's INFO record: its hit event and message, with the `{limit, page}` filter as details. Each failure appends the error handler's record for that error, under 'tasks.findAll' whichever read failed |
| TasksCache.RepeatWithinTheHourIsHit | tasks/src/tasks/tasks-cache.service.ts:57-74 | after a miss the service answered with a value other than `undefined` (one with `tasks`, for `findAllRedis`), the same request within the hour returns that answer and makes no further call, unless its `get` fails |
| TasksCache.UndefinedAnswerIsAskedAgain | tasks/src/tasks/tasks-cache.service.ts:60-72 | a miss answered with `undefined` is asked for again within the hour |
| TasksCache.ExpiredEntryIsMiss | tasks/src/tasks/tasks-cache.service.ts:72 | after the hour the same request calls the service again |
| TasksCache.FailureIsNotCached | tasks/src/tasks/tasks-cache.service.ts:76-79 | a failed call writes nothing and ends as `CaughtResult`; the next identical request calls again |
| TasksCache.FailedSetLosesAnswer | tasks/src/tasks/tasks-cache.service.ts:69-79 | a `set` failing with a status-less error discards the service's answer: nothing is cached, an ERROR is logged and the call answers `undefined` |
| TasksCache.AssignedReadCachesAuthoredTasks | tasks/src/tasks/tasks-cache.service.ts:226 | the assigned-tasks read and the author read of the same id make the same call, return the same value and cache the same value |
| TasksCache.FindAllHitWithoutTasks | tasks/src/tasks/tasks-cache.service.ts:57-66 | a `findAllRedis` hit on a value without `tasks` is logged at ERROR and answers `undefined` |
| TasksCache.TasksCacheService.ReadThrough | tasks/src/tasks/tasks-cache.service.ts:52-80 | the new entries, log, call list and result are exactly `ReadThroughStep` of the old ones, for the same Redis fault; nothing is published |
| TasksCache.TasksCacheService.FindAllRedis | tasks/src/tasks/tasks-cache.service.ts:52-80 | `ReadThroughStep` of the `ALLTASKS` query, which calls `findAll` on a miss |
| TasksCache.TasksCacheService.FindByAuthorIdRedis | tasks/src/tasks/tasks-cache.service.ts:130-159 | `ReadThroughStep` of the `AUTHORTASKS:<id>` query, which calls `findByAuthorId` on a miss |
| TasksCache.TasksCacheService.FindByAssignedIdRedis | tasks/src/tasks/tasks-cache.service.ts:209-237 | `ReadThroughStep` of the `ASSIGNEDTASK:<id>` query, which calls `findByAuthorId` with the assigned id on a miss |
| UsersCache.UsersKey | auth/src/users/users-cache.service.ts:52 | starts with `AllUsers`, with a page part iff the limit is not 0 |
| UsersCache.UsersKeyInjective | auth/src/users/users-cache.service.ts:52 | two keys are equal iff the requests ask for the same page |
| UsersCache.OnlyFirstKeyIsBare | auth/src/users/users-cache.service.ts:52 | the key is 'AllUsers' iff the limit is 0 |
| UsersCache.UserCountFailure | auth/src/users/users-cache.service.ts:60 | the hit log's `.users.length` fails iff the cached `users` is undefined or null, with a status-less TypeError |
| UsersCache.ListCountFailure | auth/src/users/users-cache.service.ts:60 | the count read as the list's own `length`: fails only for `undefined` or `null`, with a status-less error |
| UsersCache.Caught | auth/src/users/users-cache.service.ts:74-77 | nothing written and no call made; exactly the handler record; always a throw: the RpcException itself, or the generic 500 |
| UsersCache.UsersReadStep | auth/src/users/users-cache.service.ts:50-78 | for a given way of reading the hit log's count: failures throw only RpcExceptions. `findAll` is called once on a miss and never otherwise. Only an answered miss whose `set` succeeds writes, and then the request's key holds the answer for 3600 s. A hit answers the cached value when the count can be read, and otherwise throws the auth handler's error for that read; a cached miss answers `findAll`'s answer. A failing `get`, `findAll` or `set` throws the auth handler's error. One log record is written unless a miss was cached. A hit whose count reads appends the INFO record 'Users find all successfully (Redis)' under 'users.findAll' with the `{limit, page}` filter. Each failure, the count's included, appends the error handler's record for that error under 'users.findAll' |
| UsersCache.GetUsersStep | auth/src/users/users-cache.service.ts:58-60 | as written, a hit is served iff the cached value has a `users` field other than undefined or null; any other hit throws the generic 500 |
| UsersCache.IntendedGetUsersStep | auth/src/users/users-cache.service.ts:58-60 | with the count read from the list itself, every hit except a cached `null` is served, and serves the cached value |
| UsersCache.SecondCallWithinTheHourIsHit | auth/src/users/users-cache.service.ts:55-72 | as written, and only for an answer whose `users` field is neither undefined nor null: the same request within the hour returns that answer without another call |
| UsersCache.ListAnswerHitFails | auth/src/users/users-cache.service.ts:58-63 | as written, an answer without `users` (a plain list) makes the same request within the hour make no call, log an ERROR and throw the generic 500 |
| UsersCache.IntendedSecondCallIsHit | auth/src/users/users-cache.service.ts:55-72 | with the count read from the list itself, any answer other than `undefined` or `null` is returned by the same request within the hour without another call |
| UsersCache.UndefinedAnswerIsAskedAgain | auth/src/users/users-cache.service.ts:58-70 | a miss answered with `undefined` is asked for again within the hour |
| UsersCache.FailureIsNotCached | auth/src/users/users-cache.service.ts:74-77 | a failing `findAll` writes nothing, whatever the Redis fault, and a non-Rpc failure reaches the caller as the generic 500 |
| UsersCache.UsersCacheService.GetUsers | auth/src/users/users-cache.service.ts:50-78 | the new entries, log, call list and result are exactly `UsersReadStep`'s for the `.users.length` count the source reads, for the same Redis fault; nothing is published |
| Tasks.NotFound | tasks/src/tasks/tasks.service.ts:188 | an RpcException with status 404 and message 'Task not found' |
| Tasks.CreatedNotice | tasks/src/tasks/tasks.service.ts:80-84 | the 'task.assigned' message of `create`: the new task's id, the assignee and 'Task created successfully' |
| Tasks.AssignedNotice | tasks/src/tasks/tasks.service.ts:481-485 | the title before the update, the assignee after it (null when none) and 'Task updated successfully' |
| Tasks.UpdateFallback | tasks/src/tasks/tasks.service.ts:276 | 'This action updates a #<id> task', with the id quoted in full |
| Tasks.NullIfEmpty | tasks/src/tasks/tasks.service.ts:73-74 | `value \|\| null`: kept iff present and non-empty |
| Tasks.CreatedTask | tasks/src/tasks/tasks.service.ts:70-76 | the stored task has the new id and the request's title; description and assignee are the request's, or null when absent or empty; due date, status and priority are the database's defaults |
| Tasks.CreateIgnoresScheduling | tasks/src/tasks/tasks.service.ts:71-75 | the due date, status and priority in the request do not affect the stored task |
| Tasks.Patched | tasks/src/tasks/tasks.service.ts:264-269 | every supplied field is written, every other field and the id are kept |
| Tasks.PatchIdempotent | tasks/src/tasks/tasks.service.ts:264-269 | applying the same update twice is the same as applying it once |
| Tasks.EmptyPatchIsIdentity | tasks/src/tasks/tasks.service.ts:264-269 | an update that supplies no field leaves the task unchanged |
| Tasks.StatusChangeIsPatch | tasks/src/tasks/tasks.service.ts:395-402 | `changeStatus` is the update that supplies only the status |
| Tasks.AssignedNoticeNamesNewAssignee | tasks/src/tasks/tasks.service.ts:481-485 | the `assignAuthor` notice carries the new assignee (null when none) and the task's title |
| Tasks.NotFoundIsClientError | tasks/src/tasks/tasks.service.ts:188 | the not-found error classifies as 404 'Task not found', below the ERROR threshold |
| Tasks.TasksService.Create | tasks/src/tasks/tasks.service.ts:68-95 | a failed write stores and publishes nothing and answers `undefined`; otherwise `CreatedTask` is stored under the new id; exactly one 'task.assigned' `{taskId, userId}` notice iff the assignee is truthy (unless publishing fails); cache entries untouched |
| Tasks.TasksService.FindOne | tasks/src/tasks/tasks.service.ts:179-197 | the stored task; 404 'Task not found' iff no read fault and the id is unknown; a read fault answers `undefined` |
| Tasks.TasksService.Update | tasks/src/tasks/tasks.service.ts:253-277 | unknown id: 404 and no change; known id: the task becomes `Patched`; a database failure is swallowed and the answer is 'This action updates a #<id> task' |
| Tasks.TasksService.Remove | tasks/src/tasks/tasks.service.ts:311-335 | unknown id: 404 and no change; otherwise exactly that id is removed and the answer is 'The task #<id> has been deleted' |
| Tasks.TasksService.ChangeStatus | tasks/src/tasks/tasks.service.ts:382-409 | unknown id: 404 and no change; otherwise only that task's status changes |
| Tasks.TasksService.AssignAuthor | tasks/src/tasks/tasks.service.ts:458-496 | unknown id: 404, no change, no notice; otherwise only `assignedTo` changes, then exactly one 'task.assigned' notice with the old title and the new assignee; cache entries untouched |
| Auth.ClaimsOf | auth/src/auth/auth.service.ts:229 | the signed payload is the user's id, email and role |
| Auth.IsRegistrationToken | auth/src/auth/auth.service.ts:94 | forty characters: two hex digits for each of the twenty random bytes |
| Auth.PublicOf | auth/src/auth/auth.service.ts:224 | the returned user keeps the id, email and role of the stored one |
| Auth.CreateFailure | auth/src/auth/auth.service.ts:83-111 | no failure only if the email is free and nothing fails; an existing email (once read) is 400 'User already exists' |
| Auth.CreateWrites | auth/src/auth/auth.service.ts:90-97 | the user is stored iff the `try` gets past `createUser`: nothing fails, or only the publish fails for a free email |
| Auth.DuplicateEmailRefused | auth/src/auth/auth.service.ts:90-91 | an existing email is refused with 400, nothing is written, and it is logged at INFO level |
| Auth.Pending | auth/src/auth/auth.service.ts:150 | exactly the inactive users holding the token |
| Auth.Activated | auth/src/auth/auth.service.ts:154 | that account becomes active; no other user and no other field changes |
| Auth.VerifyFailure | auth/src/auth/auth.service.ts:144-168 | no inactive holder of the token (once read) is 404 'User already active'; success needs a holder and no fault |
| Auth.TokenWorksOnce | auth/src/auth/auth.service.ts:150-154 | a token verifies its account once; the same token afterwards is refused with 404 |
| Auth.VerifyKeepsPaginatedLists | auth/src/auth/auth.service.ts:160 | deleting 'AllUsers' leaves every paginated `AllUsers:limit=…` list cached, and only the unpaginated one is gone |
| Auth.LoginFailure | auth/src/auth/auth.service.ts:213-221 | login succeeds iff the email exists, the account is active and the password matches; the checks run in that order |
| Auth.LoginHidesWhichCredentialFailed | auth/src/auth/auth.service.ts:215-221 | an unknown email and a wrong password give the identical 400 'Email or password incorrect' |
| Auth.InactiveCheckedBeforePassword | auth/src/auth/auth.service.ts:218 | an inactive account is refused with 401 'The account is not active' whatever the password |
| Auth.RegisterVerifyLogin | auth/src/auth/auth.service.ts:214-221 | a newly registered inactive user is refused with 401 until verified; its token then names exactly that user; once activated the same password logs in |
| Auth.VerifyToken | auth/src/auth/auth.service.ts:270-287 | fails iff verification fails, and then always with the generic 500; on success the user is `{id, email, role}` of the payload and the token is signed over the same fields |
| Auth.RenewedTokenNamesSameUser | auth/src/auth/auth.service.ts:278-282 | when verification undoes signing, the renewed token verifies again to the same user |
| Auth.LoginTokenVerifies | auth/src/auth/auth.service.ts:229 | the token `login` returns verifies to the id, email and role of the user who logged in |
| Auth.AuthService.Create | auth/src/auth/auth.service.ts:83-111 | the user is stored iff the email is free and the write succeeds; exactly one 'user.register' `{email, token}` iff registration went through; a success logs one INFO; a failure logs the handler record and throws the auth handler's error |
| Auth.AuthService.VerifyAccount | auth/src/auth/auth.service.ts:144-168 | a refusal changes nothing but the log, which gets the handler record. Otherwise one pending account is picked and activated, unless the write fails. Its activation is logged at INFO with `{userId, token}` unless the write fails, and a failing write or `del` then adds the handler record. On success only the key 'AllUsers' is deleted and the answer is 'Account verified'; nothing is published |
| Auth.AuthService.Login | auth/src/auth/auth.service.ts:207-235 | success iff `LoginFailure` is none: the user without password and active flag, plus a token signed over `{id, email, role}`, and one INFO record; otherwise the handler record and the auth handler's throw; the user table is untouched |
| Validators.Count | auth/src/auth/dto/create-user.dto.ts:8-14 | the number of characters of a class never exceeds the length |
| Validators.CountPositiveIff | auth/src/auth/dto/create-user.dto.ts:8-14 | a class is counted at least once iff some character belongs to it |
| Validators.IsStrongPassword | auth/src/auth/dto/create-user.dto.ts:8-14 | a strong password has at least 8 characters, and a shorter one never is; `StrongPasswordIff` states the whole policy |
| Validators.CreateUserDtoValid | auth/src/auth/dto/create-user.dto.ts:4-15 | both fields are checked: a bad email or a weak password refuses the request |
| Validators.StrongPasswordIff | auth/src/auth/dto/create-user.dto.ts:8-14 | a password is strong iff it has at least 8 characters and at least one lower-case letter, one upper-case letter, one digit and one symbol |
| Validators.MissingClassRefused | auth/src/auth/dto/create-user.dto.ts:10-13 | a password lacking any one class is refused, whatever its length |
| Validators.StrongPasswordExample | auth/src/auth/dto/create-user.dto.ts:8-14 | 'Str0ng!Pass' is strong |
| Validators.NoSymbolExample | auth/src/auth/dto/create-user.dto.ts:12 | 'Str0ngPass' is refused for want of a symbol |
| Validators.IsObjectId | api-getawey/src/tasks/dto/assign-user-request.dto.ts:21 | an accepted id has exactly 24 characters; `ObjectIdIff` states the whole rule |
| Validators.HexRunIff | api-getawey/src/tasks/dto/assign-user-request.dto.ts:21 | the anchored hex run matches iff every character is a hex digit of either case |
| Validators.ObjectIdIff | api-getawey/src/tasks/dto/assign-user-request.dto.ts:21 | `/^[0-9a-fA-F]{24}$/` accepts exactly 24 characters, each a hex digit |
| Validators.ObjectIdLowerExample | api-getawey/src/tasks/dto/assign-user-request.dto.ts:21 | a lower-case id is accepted |
| Validators.ObjectIdUpperExample | api-getawey/src/tasks/dto/assign-user-request.dto.ts:21 | an upper-case id is accepted |
| Validators.ObjectIdNonHexExample | api-getawey/src/tasks/dto/assign-user-request.dto.ts:21 | one non-hex character refuses a 24-character id |
| Validators.StringRules | api-getawey/src/tasks/dto/assign-user-request.dto.ts:11-17 | `@IsString() @IsNotEmpty()` raise no violation iff the value is a non-empty string |
| Validators.ValidateAssignUserRequest | api-getawey/src/tasks/dto/assign-user-request.dto.ts:6-23 | no violation iff `assignUserDto` is present, `id` and `requestId` are non-empty strings, and `userId` is a string matching the ObjectId rule; a bad `userId` is reported with 'authorId must be a valid MongoDB ObjectId' |

## Left out

- tasks/src/helpers/error-handler.helper.ts and auth/src/logs/logs.service.ts are not part of this model. The tasks log helper imports its `extractErrorDetails` from the former, and the auth services log through the latter. Both are taken to match their counterparts, auth/src/helpers/error-handler.helper.ts and tasks/src/logs/logs.service.ts.
- The `RedisKeys` enum is not part of this model. Its values are taken to be `ALLTASKS`, `AUTHORTASKS` and `ASSIGNEDTASK`, as the names used in the keys suggest.
- The auth repository and schema (auth/src/auth/auth.repository.ts, auth/src/auth/schemas/auth.schema.ts) are out of date with the service that calls them:
  - they lack `findByTokenNotActive` and `activeUser`;
  - `createUser` takes no token;
  - `active` defaults to true.

  The model follows the service: the registration token is stored with the user, and `Pending`/`Activated` stand for the missing calls. The initial `active` flag and role are constructor parameters of `AuthService`.
- Password hashing, `comparePassword`, and JWT signing and verification are function parameters. The one-hour expiry and the secret live inside those parameters, and `signToken` is the `sign` parameter.
- `crypto.randomBytes(20)` becomes a parameter required to be forty lower-case hex digits. The database's new ids and default task fields are parameters too. `Auth.AuthService.Create` requires such a token because that is what the source generates.
- The clock (Redis expiry) is a parameter `now`.
- The services behind the caches and the gateway's broker calls are function parameters:
  - tasks/src/tasks/tasks.service.ts has no `findByAuthorId`, although the tasks cache calls one (tasks-cache.service.ts:148, 226). The call is modelled as a parameter whose behaviour the model does not fix.
  - The tasks service's `findAll` takes no arguments, so the `limit` and `page` the cache passes (tasks-cache.service.ts:69) are ignored and every page key caches the whole list. The parameter receives them and may ignore them; the model does not require it to.
  - The users service's `findAll` answers the repository's list (auth/src/users/users.service.ts:37-39). The users repository is not part of this model, so that answer is a parameter too.
- JSON encoding and decoding is not modelled:
  - Values are stored in Redis as they are, and a hit answers the stored value itself.
  - The one consequence of the text encoding the caches depend on is modelled by `Redis.Cached`: an `undefined` answer is stored as the empty string and reads back as a miss. Other values whose text is falsy do not arise, since `JSON.stringify` renders every other value as non-empty text.
  - The hit log's count message (`${…length} tasks`) is not modelled; only whether reading the count throws is.
- Arrays are modelled as objects, numbers as integers, and a string compared with `>=` as not numeric. Floating point and string-to-number coercion are not modelled.
- RxJS, `async`/`await` and the broker transport are not modelled. Everything runs sequentially, so the interleaving of a cache `get` and `set` under concurrent requests is not modelled. The un-awaited log emission is an append whose failure is invisible, as in the source.
- `redis.quit()` after the `create` notice is not modelled, and neither is `console.log`.
- Tasks.TasksService.Update: the update cannot set `description`, `assignedTo` or `dueDate` back to null. An absent field keeps its value, which matches Prisma's treatment of `undefined`; an explicit `null` in the request is not modelled.
- Tasks.TasksService.Create: an id the database already holds fails the write like any other database error.
- AuthGuard.CanActivate: Nest refuses with 403 when a guard's result is falsy, which would happen for an empty renewed token. This is framework behaviour and is not modelled.
- Auth.AuthService.Login: the returned user carries the stored fields other than password, active flag and timestamps. That includes the registration token, because the source strips only those four. Mongoose's `_id`/`__v` are not modelled.
- The task-access and user-tasks guards read `authorId`/`assignedUserId` from the task reply, while the tasks service stores `assignedTo`. The guards are modelled on the fields they read.
- Validators.IsStrongPassword: class-validator measures the length in UTF-16 code units, while the model counts characters, so the two differ for characters outside the Basic Multilingual Plane.
- A failing Redis connection is modelled only where the services catch it: the caches' `get` and `set` (the `CacheFault` parameter) and the auth and tasks services' own stages (their `Fault` parameters).
- `IsEmail` and the other library decorators (`IsUUID`, `IsDateString`, `IsInt`) are parameters or are not modelled. The same ObjectId rule in the other DTOs is modelled once.
- Controllers, modules, bootstrap and configuration files, the logs service's persistence and the notifications service hold no logic of their own and are not modelled.

## Findings

| source | as written | input that shows it | evidently intended | confidence | as-written member | corrected member |
|---|---|---|---|---|---|---|
| auth/src/users/users-cache.service.ts:60 | the hit log counts `JSON.parse(cachedUsers).users.length`, but what is cached is the users service's answer, the repository's list (auth/src/users/users.service.ts:37-39), which has no `users` field | a first `getUsers` that misses and caches a list, then the same request within the hour: reading `.users.length` throws a TypeError, the call logs an ERROR and throws the generic 500 instead of returning the cached list | the hit log counts the cached list itself (`.length`), so a hit returns the list | not executed; the users repository is not part of this model | UsersCache.ListAnswerHitFails | UsersCache.IntendedSecondCallIsHit |

`UsersCache.UsersReadStep` takes the count read as a parameter. `GetUsersStep` and the `GetUsers` method use the read as written, and `IntendedGetUsersStep` uses the corrected one; both share every clause of its contract.
