/**
 * tasks/src/tasks/tasks.service.ts: the task store of the tasks service.
 * Every operation looks the task up first, throws a 404 RpcException when it
 * is missing, and otherwise writes the store; `create` and `assignAuthor`
 * also publish on 'task.assigned'. A database or Redis failure is swallowed
 * by the tasks `handleRpcError`, which returns instead of throwing.
 */
module Tasks {
  import opened Wrappers
  import opened Js
  import opened Errors
  import opened Redis

  const TASK_ASSIGNED := "task.assigned"
  const NOT_FOUND := 404
  const TASK_NOT_FOUND := "Task not found"

  datatype Task = Task(
    id: string,
    title: string,
    description: Option<string>,   // None is the stored null
    assignedTo: Option<string>,
    dueDate: Option<string>,
    status: string,
    priority: string)

  /** `CreateTaskDto` as it reaches the service. */
  datatype CreateTaskDto = CreateTaskDto(
    title: string,
    description: Option<string>,
    assignedTo: Option<string>,
    dueDate: Option<string>,
    status: Option<string>,
    priority: Option<string>)

  /** The fields an update supplies; a missing field is left as it is. */
  datatype TaskPatch = TaskPatch(
    title: Option<string>,
    description: Option<string>,
    assignedTo: Option<string>,
    dueDate: Option<string>,
    status: Option<string>,
    priority: Option<string>)

  /**
   * Where a database or Redis call fails, if anywhere. `create` reads nothing,
   * so there `AtRead` fails its write like `AtWrite`; in the other operations a
   * stage the operation does not reach has no effect.
   */
  datatype Fault = NoFault | AtRead | AtWrite | AtPublish

  /** What an operation answers. */
  datatype Reply =
    | TaskReply(task: Task, message: Option<string>)   // `{ status: 'success', task, message? }`
    | MessageReply(text: string)                       // `{ status: 'success', message }`
    | Text(body: string)                               // a bare string
    | NoReply                                          // `undefined`

  /** `new RpcException({ message: 'Task not found', status: HttpStatus.NOT_FOUND })` */
  function NotFound(): (e: Thrown)
    ensures e.RpcException? && Get(e.payload, "status") == Num(404) && Get(e.payload, "message") == Str(TASK_NOT_FOUND)
  {
    Rpc(TASK_NOT_FOUND, NOT_FOUND)
  }

  /** `value || null` on an optional string: an empty string is stored as null. */
  function NullIfEmpty(value: Option<string>): (r: Option<string>)
    ensures r.Some? <==> value.Some? && value.value != ""
    ensures r.Some? ==> r == value
  {
    if value.Some? && value.value != "" then value else None
  }

  /** The record `create` stores: only the title, the description and the assignee come from the request. */
  function CreatedTask(dto: CreateTaskDto, id: string, defaultStatus: string, defaultPriority: string): (t: Task)
    ensures t.id == id && t.title == dto.title
    ensures t.description == NullIfEmpty(dto.description) && t.assignedTo == NullIfEmpty(dto.assignedTo)
    ensures t.dueDate == None && t.status == defaultStatus && t.priority == defaultPriority
  {
    Task(id, dto.title, NullIfEmpty(dto.description), NullIfEmpty(dto.assignedTo), None, defaultStatus, defaultPriority)
  }

  /** `create` ignores the due date, status and priority the request carries. */
  lemma CreateIgnoresScheduling(dto: CreateTaskDto, dueDate: Option<string>, status: Option<string>, priority: Option<string>,
                                id: string, defaultStatus: string, defaultPriority: string)
    ensures CreatedTask(dto.(dueDate := dueDate, status := status, priority := priority), id, defaultStatus, defaultPriority)
         == CreatedTask(dto, id, defaultStatus, defaultPriority)
  {
  }

  /** The 'task.assigned' message of `create`. */
  function CreatedNotice(taskId: string, assignedTo: string): (v: Value)
    ensures Get(v, "taskId") == Str(taskId) && Get(v, "userId") == Str(assignedTo)
    ensures Get(v, "message") == Str("Task created successfully")
  {
    Obj(map["message" := Str("Task created successfully"), "taskId" := Str(taskId), "userId" := Str(assignedTo)])
  }

  /** The 'task.assigned' message of `assignAuthor`: the title before the update, the assignee after it. */
  function AssignedNotice(before: Task, after: Task): (v: Value)
    ensures Get(v, "taskTitle") == Str(before.title)
    ensures Get(v, "userId") == (if after.assignedTo.Some? then Str(after.assignedTo.value) else Null)
    ensures Get(v, "message") == Str("Task updated successfully")
  {
    Obj(map[
      "message" := Str("Task updated successfully"),
      "taskTitle" := Str(before.title),
      "userId" := if after.assignedTo.Some? then Str(after.assignedTo.value) else Null])
  }

  function Apply(field: Option<string>, current: string): string {
    if field.Some? then field.value else current
  }

  function ApplyOptional(field: Option<string>, current: Option<string>): Option<string> {
    if field.Some? then field else current
  }

  /** The task after `prisma.task.update({ data: updateTaskDto })`. */
  function Patched(t: Task, p: TaskPatch): (u: Task)
    ensures u.id == t.id
    // every supplied field is written, every other field is kept
    ensures p.title.Some? ==> u.title == p.title.value
    ensures p.title.None? ==> u.title == t.title
    ensures p.description.Some? ==> u.description == p.description
    ensures p.description.None? ==> u.description == t.description
    ensures p.assignedTo.Some? ==> u.assignedTo == p.assignedTo
    ensures p.assignedTo.None? ==> u.assignedTo == t.assignedTo
    ensures p.dueDate.Some? ==> u.dueDate == p.dueDate
    ensures p.dueDate.None? ==> u.dueDate == t.dueDate
    ensures p.status.Some? ==> u.status == p.status.value
    ensures p.status.None? ==> u.status == t.status
    ensures p.priority.Some? ==> u.priority == p.priority.value
    ensures p.priority.None? ==> u.priority == t.priority
  {
    t.(title := Apply(p.title, t.title),
       description := ApplyOptional(p.description, t.description),
       assignedTo := ApplyOptional(p.assignedTo, t.assignedTo),
       dueDate := ApplyOptional(p.dueDate, t.dueDate),
       status := Apply(p.status, t.status),
       priority := Apply(p.priority, t.priority))
  }

  /** Applying the same update twice changes nothing more. */
  lemma PatchIdempotent(t: Task, p: TaskPatch)
    ensures Patched(Patched(t, p), p) == Patched(t, p)
  {
  }

  /** An update that supplies no field leaves the task as it was. */
  lemma EmptyPatchIsIdentity(t: Task)
    ensures Patched(t, TaskPatch(None, None, None, None, None, None)) == t
  {
  }

  /** `changeStatus` is the update that supplies only the status. */
  lemma StatusChangeIsPatch(t: Task, status: string)
    ensures Patched(t, TaskPatch(None, None, None, None, Some(status), None)) == t.(status := status)
  {
  }

  /** `update` after a swallowed failure: the text the method falls through to. */
  function UpdateFallback(id: string): (s: string)
    // the id is quoted after the fixed 23-character opening, and the text ends with " task"
    ensures |s| == 23 + |id| + 5 && s[23..23 + |id|] == id && s[23 + |id|..] == " task"
  {
    "This action updates a #" + id + " task"
  }

  class TasksService {
    var tasks: map<string, Task>
    const redis: RedisClient
    /** The database's defaults for a new task. */
    const defaultStatus: string
    const defaultPriority: string

    constructor (redis: RedisClient, defaultStatus: string, defaultPriority: string)
      ensures tasks == map[] && this.redis == redis
      ensures this.defaultStatus == defaultStatus && this.defaultPriority == defaultPriority
    {
      tasks := map[];
      this.redis := redis;
      this.defaultStatus := defaultStatus;
      this.defaultPriority := defaultPriority;
    }

    /**
     * `create`. `newId` is the id the database assigns; an id already taken
     * fails the write like any other database error.
     */
    method Create(dto: CreateTaskDto, newId: string, fault: Fault) returns (r: Completion<Reply>)
      modifies this, redis
      ensures redis.entries == old(redis.entries)
      // a failed write stores nothing and publishes nothing; the error is swallowed
      ensures fault in {AtRead, AtWrite} || newId in old(tasks) ==>
        tasks == old(tasks) && redis.published == old(redis.published) && r == Normal(NoReply)
      // otherwise the new task is stored
      ensures !(fault in {AtRead, AtWrite} || newId in old(tasks)) ==>
        tasks == old(tasks)[newId := CreatedTask(dto, newId, defaultStatus, defaultPriority)]
      // exactly one notice when the request names an assignee (unless publishing fails), none otherwise
      ensures !(fault in {AtRead, AtWrite} || newId in old(tasks)) && NullIfEmpty(dto.assignedTo).Some? ==>
        redis.published == old(redis.published) +
          (if fault == AtPublish then [] else [Message(TASK_ASSIGNED, CreatedNotice(newId, dto.assignedTo.value))])
      ensures !(fault in {AtRead, AtWrite} || newId in old(tasks)) && NullIfEmpty(dto.assignedTo).None? ==>
        redis.published == old(redis.published)
      // a failed publish leaves the stored task but answers `undefined`
      ensures !(fault in {AtRead, AtWrite} || newId in old(tasks)) ==>
        r == if fault == AtPublish && NullIfEmpty(dto.assignedTo).Some? then Normal(NoReply)
             else Normal(TaskReply(CreatedTask(dto, newId, defaultStatus, defaultPriority), Some("Task created successfully")))
    {
      if fault == AtRead || fault == AtWrite || newId in tasks {
        return Normal(NoReply);
      }
      var task := CreatedTask(dto, newId, defaultStatus, defaultPriority);
      tasks := tasks[newId := task];
      if NullIfEmpty(dto.assignedTo).Some? {
        if fault == AtPublish {
          return Normal(NoReply);
        }
        redis.Publish(TASK_ASSIGNED, CreatedNotice(newId, dto.assignedTo.value));
      }
      r := Normal(TaskReply(task, Some("Task created successfully")));
    }

    /** `findOne`: reads only. */
    method FindOne(id: string, fault: Fault) returns (r: Completion<Reply>)
      ensures fault == AtRead ==> r == Normal(NoReply)
      ensures fault != AtRead && id !in tasks ==> r == Throw(NotFound())
      ensures fault != AtRead && id in tasks ==> r == Normal(TaskReply(tasks[id], None))
      // the only error that escapes is the 404
      ensures r.Throw? <==> fault != AtRead && id !in tasks
    {
      if fault == AtRead {
        return Normal(NoReply);
      }
      if id !in tasks {
        return Throw(NotFound());
      }
      r := Normal(TaskReply(tasks[id], None));
    }

    /** `update`: a swallowed failure falls through to a bare string. */
    method Update(id: string, patch: TaskPatch, fault: Fault) returns (r: Completion<Reply>)
      modifies this
      ensures fault in {AtRead, AtWrite} ==> tasks == old(tasks) && r == Normal(Text(UpdateFallback(id)))
      ensures fault !in {AtRead, AtWrite} && id !in old(tasks) ==> tasks == old(tasks) && r == Throw(NotFound())
      ensures fault !in {AtRead, AtWrite} && id in old(tasks) ==>
        tasks == old(tasks)[id := Patched(old(tasks)[id], patch)] &&
        r == Normal(TaskReply(Patched(old(tasks)[id], patch), Some("Task updated successfully")))
    {
      if fault == AtRead || fault == AtWrite {
        return Normal(Text(UpdateFallback(id)));
      }
      if id !in tasks {
        return Throw(NotFound());
      }
      var updated := Patched(tasks[id], patch);
      tasks := tasks[id := updated];
      r := Normal(TaskReply(updated, Some("Task updated successfully")));
    }

    /** `remove` */
    method Remove(id: string, fault: Fault) returns (r: Completion<Reply>)
      modifies this
      ensures fault in {AtRead, AtWrite} ==> tasks == old(tasks) && r == Normal(NoReply)
      ensures fault !in {AtRead, AtWrite} && id !in old(tasks) ==> tasks == old(tasks) && r == Throw(NotFound())
      ensures fault !in {AtRead, AtWrite} && id in old(tasks) ==>
        tasks == old(tasks) - {id} && r == Normal(MessageReply("The task #" + id + " has been deleted"))
      // a task is never left behind by a successful remove
      ensures r.Normal? && r.value.MessageReply? ==> id !in tasks
    {
      if fault == AtRead || fault == AtWrite {
        return Normal(NoReply);
      }
      if id !in tasks {
        return Throw(NotFound());
      }
      tasks := tasks - {id};
      r := Normal(MessageReply("The task #" + id + " has been deleted"));
    }

    /** `changeStatus`: only the status of that one task changes. */
    method ChangeStatus(id: string, status: string, fault: Fault) returns (r: Completion<Reply>)
      modifies this
      ensures fault in {AtRead, AtWrite} ==> tasks == old(tasks) && r == Normal(NoReply)
      ensures fault !in {AtRead, AtWrite} && id !in old(tasks) ==> tasks == old(tasks) && r == Throw(NotFound())
      ensures fault !in {AtRead, AtWrite} && id in old(tasks) ==>
        tasks == old(tasks)[id := old(tasks)[id].(status := status)] &&
        r == Normal(TaskReply(old(tasks)[id].(status := status), Some("Task stastus updated successfully")))
    {
      if fault == AtRead || fault == AtWrite {
        return Normal(NoReply);
      }
      if id !in tasks {
        return Throw(NotFound());
      }
      var updated := tasks[id].(status := status);
      tasks := tasks[id := updated];
      r := Normal(TaskReply(updated, Some("Task stastus updated successfully")));
    }

    /**
     * `assignAuthor`: writes `assignedTo` (kept when the request leaves it
     * out), then always publishes one notice, even when nobody is assigned.
     */
    method AssignAuthor(id: string, assignedTo: Option<string>, fault: Fault) returns (r: Completion<Reply>)
      modifies this, redis
      ensures redis.entries == old(redis.entries)
      ensures fault in {AtRead, AtWrite} ==>
        tasks == old(tasks) && redis.published == old(redis.published) && r == Normal(NoReply)
      ensures fault !in {AtRead, AtWrite} && id !in old(tasks) ==>
        tasks == old(tasks) && redis.published == old(redis.published) && r == Throw(NotFound())
      ensures fault !in {AtRead, AtWrite} && id in old(tasks) ==>
        tasks == old(tasks)[id := old(tasks)[id].(assignedTo := ApplyOptional(assignedTo, old(tasks)[id].assignedTo))]
      ensures fault == AtPublish && id in old(tasks) ==>
        redis.published == old(redis.published) && r == Normal(NoReply)
      ensures fault == NoFault && id in old(tasks) ==>
        redis.published == old(redis.published) + [Message(TASK_ASSIGNED, AssignedNotice(old(tasks)[id], tasks[id]))] &&
        r == Normal(TaskReply(tasks[id], Some("Task author updated successfully")))
    {
      if fault == AtRead || fault == AtWrite {
        return Normal(NoReply);
      }
      if id !in tasks {
        return Throw(NotFound());
      }
      var task := tasks[id];
      var updated := task.(assignedTo := ApplyOptional(assignedTo, task.assignedTo));
      tasks := tasks[id := updated];
      if fault == AtPublish {
        return Normal(NoReply);
      }
      redis.Publish(TASK_ASSIGNED, AssignedNotice(task, updated));
      r := Normal(TaskReply(updated, Some("Task author updated successfully")));
    }
  }

  /** The notice of `assignAuthor` names the new assignee, and `null` when the task has none. */
  lemma AssignedNoticeNamesNewAssignee(before: Task, assignedTo: Option<string>)
    ensures Get(AssignedNotice(before, before.(assignedTo := ApplyOptional(assignedTo, before.assignedTo))), "userId")
         == (if assignedTo.Some? then Str(assignedTo.value)
             else if before.assignedTo.Some? then Str(before.assignedTo.value) else Null)
    ensures Get(AssignedNotice(before, before.(assignedTo := ApplyOptional(assignedTo, before.assignedTo))), "taskTitle") == Str(before.title)
  {
  }

  /** A 404 from the store reaches the tasks exception filter as a 'fail' envelope with code 404. */
  lemma NotFoundIsClientError()
    ensures ExtractErrorDetails(NotFound()) == ErrorDetails(Num(404), Str(TASK_NOT_FOUND))
    ensures !AtLeast(ExtractErrorDetails(NotFound()).status, 500)
  {
  }
}
