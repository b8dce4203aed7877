/**
 * The gateway's authorization guards that decide on the principal attached
 * to the request, the route's `id` parameter and, for two of them, a lookup
 * reply from another service. A guard either lets the request through or
 * throws an HTTP error with a status and a message.
 */
module Guards {
  import opened Wrappers
  import opened Js

  /** `request.user`, as attached by the authentication guard. */
  datatype Principal = Principal(id: string, email: string, role: string)

  datatype Decision = Allow | Deny(status: int, message: string)

  /** The calls a guard made on the broker (the ids it sent) and its decision. */
  datatype GuardRun = GuardRun(decision: Decision, lookups: seq<string>)

  const UNAUTHORIZED := 401
  const FORBIDDEN := 403
  const NOT_FOUND := 404
  const INTERNAL_SERVER_ERROR := 500

  const MSG_UNAUTHORIZED := "Unauthorized"
  const MSG_NOT_AUTHORIZED := "Not authorized"
  const MSG_NO_PERMISSION := "You don't have permission to access this task"
  const MSG_TASK_NOT_FOUND := "Task not found"
  const MSG_USER_NOT_FOUND := "User not found"
  const MSG_ERROR_GETTING_TASK := "Error getting task"
  const MSG_ERROR_GETTING_USER := "Error getting user"

  /** `error.message || fallback` for a failed broker call. */
  function FailureMessage(message: Option<string>, fallback: string): (m: string)
    requires fallback != ""
    ensures m != ""
    ensures message.Some? && message.value != "" ==> m == message.value
  {
    if message.Some? && message.value != "" then message.value else fallback
  }

  // ---------------------------------------------------------------- task-access.guard.ts

  /** The two fields of a task the guard reads; either may be absent from the reply. */
  datatype TaskRef = TaskRef(authorId: Option<string>, assignedUserId: Option<string>)

  /** Outcome of `tasks.findOne` as the guard sees it: a failed call, or a reply with or without `task`. */
  datatype TaskLookup = TaskLookupFailed(message: Option<string>) | TaskReply(task: Option<TaskRef>)

  predicate IsAssignee(p: Principal, t: TaskRef) {
    t.assignedUserId == Some(p.id)
  }

  predicate IsAuthor(p: Principal, t: TaskRef) {
    t.authorId == Some(p.id)
  }

  /** `TaskAccessGuard.canActivate`, with `tasks.findOne` given as a function of the task id. */
  function TaskAccess(user: Option<Principal>, taskId: string, findOne: string -> TaskLookup): (r: GuardRun)
    ensures user.None? ==> r == GuardRun(Deny(FORBIDDEN, MSG_UNAUTHORIZED), [])
    // an admin passes on any task, without a lookup
    ensures user.Some? && user.value.role == "admin" ==> r == GuardRun(Allow, [])
    // everybody else costs exactly one lookup, of the requested task
    ensures user.Some? && user.value.role != "admin" ==> r.lookups == [taskId]
    ensures user.Some? && user.value.role != "admin" && findOne(taskId).TaskLookupFailed? ==>
      r.decision == Deny(INTERNAL_SERVER_ERROR, FailureMessage(findOne(taskId).message, MSG_ERROR_GETTING_TASK))
    ensures user.Some? && user.value.role != "admin" && findOne(taskId) == TaskReply(None) ==>
      r.decision == Deny(NOT_FOUND, MSG_TASK_NOT_FOUND)
    // with the task in hand: a manager passes iff author or assignee, a user iff assignee
    ensures user.Some? && findOne(taskId).TaskReply? && findOne(taskId).task.Some? ==>
      var (p, t) := (user.value, findOne(taskId).task.value);
      (p.role == "manager" ==> (r.decision == Allow <==> IsAuthor(p, t) || IsAssignee(p, t))) &&
      (p.role == "user" ==> (r.decision == Allow <==> IsAssignee(p, t))) &&
      (p.role !in {"admin", "manager", "user"} ==> r.decision.Deny?)
    // a refusal once the task is known is always 403 with the permission message
    ensures user.Some? && findOne(taskId).TaskReply? && findOne(taskId).task.Some? && r.decision.Deny? ==>
      r.decision == Deny(FORBIDDEN, MSG_NO_PERMISSION)
  {
    if user.None? then GuardRun(Deny(FORBIDDEN, MSG_UNAUTHORIZED), [])
    else
      var p := user.value;
      if p.role == "admin" then GuardRun(Allow, [])
      else
        var response := findOne(taskId);
        var decision :=
          match response
          case TaskLookupFailed(message) => Deny(INTERNAL_SERVER_ERROR, FailureMessage(message, MSG_ERROR_GETTING_TASK))
          case TaskReply(None) => Deny(NOT_FOUND, MSG_TASK_NOT_FOUND)
          case TaskReply(Some(task)) =>
            if p.role == "manager" && (task.authorId == Some(p.id) || task.assignedUserId == Some(p.id)) then Allow
            else if p.role == "user" && task.assignedUserId == Some(p.id) then Allow
            else Deny(FORBIDDEN, MSG_NO_PERMISSION);
        GuardRun(decision, [taskId])
  }

  /** Being the author is not enough for the `user` role. */
  lemma AuthorshipAloneRefusedForUser(p: Principal, taskId: string, findOne: string -> TaskLookup)
    requires p.role == "user"
    requires findOne(taskId) == TaskReply(Some(TaskRef(Some(p.id), None)))
    ensures TaskAccess(Some(p), taskId, findOne).decision == Deny(FORBIDDEN, MSG_NO_PERMISSION)
  {
  }

  // ---------------------------------------------------------------- roles.guard.ts

  /** `reflector.getAllAndOverride(ROLES_KEY, [handler, class])`: the handler's roles when declared, else the class's. */
  function RequiredRoles(handlerRoles: Option<seq<string>>, classRoles: Option<seq<string>>): (r: Option<seq<string>>)
    ensures handlerRoles.Some? ==> r == handlerRoles
    ensures handlerRoles.None? ==> r == classRoles
  {
    if handlerRoles.Some? then handlerRoles else classRoles
  }

  /** `RolesGuard.canActivate` */
  function Roles(handlerRoles: Option<seq<string>>, classRoles: Option<seq<string>>, user: Option<Principal>): (d: Decision)
    // no declared roles: everybody passes, even without a user
    ensures RequiredRoles(handlerRoles, classRoles).None? ==> d == Allow
    // declared roles: exact membership of the user's role, no hierarchy
    ensures RequiredRoles(handlerRoles, classRoles).Some? ==>
      (d == Allow <==> user.Some? && user.value.role in RequiredRoles(handlerRoles, classRoles).value)
    // the refusal is a 401, not a 403
    ensures d.Deny? ==> d == Deny(UNAUTHORIZED, MSG_NOT_AUTHORIZED)
  {
    var requiredRoles := RequiredRoles(handlerRoles, classRoles);
    if requiredRoles.None? then Allow
    else if user.None? || user.value.role !in requiredRoles.value then Deny(UNAUTHORIZED, MSG_NOT_AUTHORIZED)
    else Allow
  }

  /** An admin is refused on a route that declares only `manager`. */
  lemma NoRoleHierarchy(p: Principal)
    requires p.role == "admin"
    ensures Roles(Some(["manager"]), None, Some(p)) == Deny(UNAUTHORIZED, MSG_NOT_AUTHORIZED)
  {
  }

  /** A declared but empty role list (an empty array is truthy) refuses everybody. */
  lemma EmptyRoleListRefusesAll(classRoles: Option<seq<string>>, user: Option<Principal>)
    ensures Roles(Some([]), classRoles, user).Deny?
  {
  }

  // ---------------------------------------------------------------- user-tasks.guard.ts

  /** `UserTasksGuard.canActivate`: decided by the principal and `params.id` alone. */
  function UserTasks(user: Option<Principal>, requestedId: string): (d: Decision)
    ensures user.None? ==> d == Deny(FORBIDDEN, MSG_UNAUTHORIZED)
    ensures user.Some? ==> (d == Allow <==>
      user.value.role == "admin" || user.value.role == "manager" || (user.value.role == "user" && user.value.id == requestedId))
    ensures user.Some? && d.Deny? ==> d == Deny(FORBIDDEN, MSG_NO_PERMISSION)
  {
    if user.None? then Deny(FORBIDDEN, MSG_UNAUTHORIZED)
    else if user.value.role == "admin" || user.value.role == "manager" then Allow
    else if user.value.role == "user" && user.value.id == requestedId then Allow
    else Deny(FORBIDDEN, MSG_NO_PERMISSION)
  }

  // ---------------------------------------------------------------- author-tasks.guards.ts

  /** `AuthorTasksGuard.canActivate` */
  function AuthorTasks(user: Option<Principal>, requestedId: string): (d: Decision)
    ensures user.None? ==> d == Deny(FORBIDDEN, MSG_UNAUTHORIZED)
    ensures user.Some? ==> (d == Allow <==>
      user.value.role == "admin" || (user.value.role == "manager" && user.value.id == requestedId))
    ensures user.Some? && d.Deny? ==> d == Deny(FORBIDDEN, MSG_NO_PERMISSION)
  {
    if user.None? then Deny(FORBIDDEN, MSG_UNAUTHORIZED)
    else if user.value.role == "admin" then Allow
    else if user.value.role == "manager" && user.value.id == requestedId then Allow
    else Deny(FORBIDDEN, MSG_NO_PERMISSION)
  }

  /** The `user` role never passes, even on its own id. */
  lemma UserRoleNeverAuthor(p: Principal)
    requires p.role == "user"
    ensures AuthorTasks(Some(p), p.id).Deny?
  {
  }

  /** Every route open to AuthorTasks is open to UserTasks. */
  lemma AuthorTasksStricterThanUserTasks(user: Option<Principal>, requestedId: string)
    ensures AuthorTasks(user, requestedId) == Allow ==> UserTasks(user, requestedId) == Allow
  {
  }

  // ---------------------------------------------------------------- user-exist.guard.ts

  /** Outcome of `users.findById`: a failed call, or a reply whose `user` may be missing. */
  datatype UserLookup = UserLookupFailed(message: Option<string>) | UserReply(user: Value)

  /** `UserExistGuard.canActivate`: only `params.id` and the lookup matter; `request.user` is not read. */
  function UserExist(userId: string, findById: string -> UserLookup): (r: GuardRun)
    ensures r.lookups == [userId]
    ensures findById(userId).UserLookupFailed? ==>
      r.decision == Deny(INTERNAL_SERVER_ERROR, FailureMessage(findById(userId).message, MSG_ERROR_GETTING_USER))
    ensures findById(userId).UserReply? ==>
      (r.decision == Allow <==> Truthy(findById(userId).user))
    ensures findById(userId).UserReply? && r.decision.Deny? ==> r.decision == Deny(NOT_FOUND, MSG_USER_NOT_FOUND)
  {
    var decision :=
      match findById(userId)
      case UserLookupFailed(message) => Deny(INTERNAL_SERVER_ERROR, FailureMessage(message, MSG_ERROR_GETTING_USER))
      case UserReply(user) => if !Truthy(user) then Deny(NOT_FOUND, MSG_USER_NOT_FOUND) else Allow;
    GuardRun(decision, [userId])
  }
}

/**
 * api-getawey/src/guards/auth.guard.ts: the bearer token taken from the
 * Authorization header, verified by the auth service, and the request
 * enriched with the principal and the renewed token.
 */
module AuthGuard {
  import opened Wrappers
  import opened Js
  import opened Guards

  /** `s.split(' ')`: every single space separates, so empty parts are kept. */
  function Split(s: string): (parts: seq<string>)
    ensures |parts| >= 1
    ensures forall i :: 0 <= i < |parts| ==> ' ' !in parts[i]
  {
    if s == [] then [""]
    else if s[0] == ' ' then [""] + Split(s[1..])
    else
      var rest := Split(s[1..]);
      [[s[0]] + rest[0]] + rest[1..]
  }

  /** `parts.join(' ')` */
  function Join(parts: seq<string>): string {
    if parts == [] then ""
    else if |parts| == 1 then parts[0]
    else parts[0] + " " + Join(parts[1..])
  }

  /** Splitting keeps every character: joining the parts back gives the header. */
  lemma {:induction false} JoinSplit(s: string)
    ensures Join(Split(s)) == s
  {
    if s == [] {
    } else if s[0] == ' ' {
      JoinSplit(s[1..]);
      var rest := Split(s[1..]);
      assert Split(s) == [""] + rest;
      assert s == " " + s[1..];
    } else {
      JoinSplit(s[1..]);
      var rest := Split(s[1..]);
      assert Split(s) == [[s[0]] + rest[0]] + rest[1..];
      if |rest| == 1 {
      } else {
        assert Join(rest) == rest[0] + " " + Join(rest[1..]);
      }
    }
  }

  /** A first part without spaces followed by a space splits off as the first element. */
  lemma {:induction false} SplitAfterWord(a: string, b: string)
    requires ' ' !in a
    ensures Split(a + " " + b) == [a] + Split(b)
  {
    if a == [] {
      assert a + " " + b == [' '] + b;
      assert (a + " " + b)[1..] == b;
    } else {
      SplitAfterWord(a[1..], b);
      assert (a + " " + b)[1..] == a[1..] + " " + b;
      assert (a + " " + b)[0] == a[0];
      assert [a[0]] + a[1..] == a;
    }
  }

  /** A single word has no space to split at. */
  lemma {:induction false} SplitWord(a: string)
    requires ' ' !in a
    ensures Split(a) == [a]
  {
    if a != [] {
      SplitWord(a[1..]);
      assert [a[0]] + a[1..] == a;
    }
  }

  /** `extractTokenFromHeader`: the second part when the first is exactly 'Bearer'. */
  function ExtractToken(authorization: Option<string>): (token: Option<string>)
    ensures token.Some? <==>
      authorization.Some? && Split(authorization.value)[0] == "Bearer" && |Split(authorization.value)| >= 2
    ensures token.Some? ==> token.value == Split(authorization.value)[1]
  {
    if authorization.None? then None
    else
      var parts := Split(authorization.value);
      if parts[0] == "Bearer" && |parts| >= 2 then Some(parts[1]) else None
  }

  /** 'Bearer t' and 'Bearer t more...' both give `t`: extra parts are ignored. */
  lemma BearerGivesToken(t: string, more: string)
    requires ' ' !in t
    ensures ExtractToken(Some("Bearer " + t)) == Some(t)
    ensures ExtractToken(Some("Bearer " + t + " " + more)) == Some(t)
  {
    SplitAfterWord("Bearer", t);
    SplitWord(t);
    assert "Bearer " + t == "Bearer" + " " + t;
    SplitAfterWord("Bearer", t + " " + more);
    SplitAfterWord(t, more);
    assert "Bearer " + t + " " + more == "Bearer" + " " + (t + " " + more);
  }

  /** Conversely, a token is only ever taken from a header that starts 'Bearer <token>' and ends there or at a space. */
  lemma ExtractedTokenShape(h: string, t: string)
    requires ExtractToken(Some(h)) == Some(t)
    ensures h == "Bearer " + t || "Bearer " + t + " " <= h
  {
    var parts := Split(h);
    JoinSplit(h);
    assert Join(parts) == "Bearer" + " " + Join(parts[1..]);
    if |parts| == 2 {
      assert Join(parts[1..]) == t;
    } else {
      assert Join(parts[1..]) == t + " " + Join(parts[2..]);
      assert h == ("Bearer " + t + " ") + Join(parts[2..]);
    }
  }

  /** Any other scheme, with the case changed or not, yields no token. */
  lemma OtherSchemeGivesNothing(scheme: string, rest: string)
    requires ' ' !in scheme && scheme != "Bearer"
    ensures ExtractToken(Some(scheme + " " + rest)) == None
  {
    SplitAfterWord(scheme, rest);
  }

  /** Broker reply to `auth.verify-token`: the call failed, or a reply `{error?, token, user}`. */
  datatype VerifyReply = VerifyCallFailed | VerifyReplied(error: Value, token: string, user: Principal)

  datatype AuthOutcome = Authenticated(renewedToken: string) | Rejected(status: int, message: string)

  /** The token `canActivate` goes on with: a missing or empty one stops it. */
  predicate HasToken(authorization: Option<string>) {
    ExtractToken(authorization).Some? && ExtractToken(authorization).value != ""
  }

  /** The decision of `AuthGuard.canActivate`, with `auth.verify-token` given as a function of the token. */
  function Authenticate(authorization: Option<string>, verifyToken: string -> VerifyReply): (r: AuthOutcome)
    // through exactly when a non-empty bearer token is verified without error
    ensures r.Authenticated? <==>
      HasToken(authorization) &&
      verifyToken(ExtractToken(authorization).value).VerifyReplied? &&
      !Truthy(verifyToken(ExtractToken(authorization).value).error)
    ensures r.Authenticated? ==> r.renewedToken == verifyToken(ExtractToken(authorization).value).token
    // every failure, transport ones included, reads 401 'Unauthorized'
    ensures r.Rejected? ==> r == Rejected(UNAUTHORIZED, MSG_UNAUTHORIZED)
  {
    var token := ExtractToken(authorization);
    if token.None? || token.value == "" then Rejected(UNAUTHORIZED, MSG_UNAUTHORIZED)
    else
      match verifyToken(token.value)
      case VerifyCallFailed => Rejected(UNAUTHORIZED, MSG_UNAUTHORIZED)
      case VerifyReplied(error, renewToken, _) =>
        if Truthy(error) then Rejected(UNAUTHORIZED, MSG_UNAUTHORIZED) else Authenticated(renewToken)
  }

  /** 'Bearer  t' (two spaces) and 'Bearer ' carry an empty second part and are refused before verification. */
  lemma EmptySecondPartRefused(t: string, verifyToken: string -> VerifyReply)
    ensures Authenticate(Some("Bearer  " + t), verifyToken) == Rejected(UNAUTHORIZED, MSG_UNAUTHORIZED)
    ensures Authenticate(Some("Bearer "), verifyToken) == Rejected(UNAUTHORIZED, MSG_UNAUTHORIZED)
  {
    SplitAfterWord("Bearer", " " + t);
    assert "Bearer  " + t == "Bearer" + " " + (" " + t);
    assert Split(" " + t) == [""] + Split(t);
    SplitAfterWord("Bearer", "");
    assert "Bearer " == "Bearer" + " " + "";
  }

  /** The HTTP request as the guards see it. */
  class Request {
    const authorization: Option<string>
    var user: Option<Principal>
    var token: Option<string>

    constructor (authorization: Option<string>)
      ensures this.authorization == authorization && user == None && token == None
    {
      this.authorization := authorization;
      user := None;
      token := None;
    }
  }

  /**
   * `AuthGuard.canActivate`: on success `request.user` and `request.token` are
   * set from the reply and the renewed token is returned; on failure neither
   * is touched. `verified` lists the tokens sent for verification.
   */
  method CanActivate(request: Request, verifyToken: string -> VerifyReply) returns (r: AuthOutcome, verified: seq<string>)
    modifies request
    ensures r == Authenticate(request.authorization, verifyToken)
    ensures verified == if HasToken(request.authorization) then [ExtractToken(request.authorization).value] else []
    ensures r.Authenticated? ==>
      var reply := verifyToken(ExtractToken(request.authorization).value);
      request.user == Some(reply.user) && request.token == Some(reply.token)
    ensures r.Rejected? ==> request.user == old(request.user) && request.token == old(request.token)
  {
    var token := ExtractToken(request.authorization);
    if token.None? || token.value == "" {
      return Rejected(UNAUTHORIZED, MSG_UNAUTHORIZED), [];
    }
    verified := [token.value];
    var response := verifyToken(token.value);
    if response.VerifyCallFailed? || Truthy(response.error) {
      return Rejected(UNAUTHORIZED, MSG_UNAUTHORIZED), verified;
    }
    request.token := Some(response.token);
    request.user := Some(response.user);
    r := Authenticated(response.token);
  }
}
