/** The task handlers of backend/controllers/task.js over the task and user
    collections. Each handler answers `Ok` with the status and body it sends,
    `Err` with the status and message of the `CustomError` it throws, or
    `Thrown` when code that is not part of this model throws; only an `Ok`
    changes the store. `caller` is `req.user._id`, `roles` is `req.roles`. */
module TaskStore {
  import opened Wrappers
  import opened Accounts
  import TaskModel
  import Seqs

  type Task = TaskModel.Task

  /** A task as the handlers send it: the document with its `_id`. */
  datatype Doc = Doc(id: Id, task: Task)

  /** `sort({ createdAt: -1 })`. */
  predicate NewestFirst(docs: seq<Doc>) {
    forall i, j :: 0 <= i < j < |docs| ==> docs[i].task.createdAt >= docs[j].task.createdAt
  }

  /** No document is listed twice. */
  predicate Once(docs: seq<Doc>) {
    forall d :: d in docs ==> multiset(docs)[d] <= 1
  }

  /** A document in front of a newest-first list that is no older than any of it keeps the order. */
  lemma ConsNewestFirst(x: Doc, rest: seq<Doc>)
    requires NewestFirst(rest)
    requires forall y :: y in rest ==> y.task.createdAt <= x.task.createdAt
    ensures NewestFirst([x] + rest)
  {
    var r := [x] + rest;
    forall i, j | 0 <= i < j < |r| ensures r[i].task.createdAt >= r[j].task.createdAt {
      assert r[j] == rest[j - 1];
      if i > 0 {
        assert r[i] == rest[i - 1];
      }
    }
  }

  /** Puts `d` into a newest-first list behind the documents at least as new. */
  function InsertByDate(docs: seq<Doc>, d: Doc): (r: seq<Doc>)
    requires NewestFirst(docs)
    ensures NewestFirst(r)
    ensures multiset(r) == multiset(docs) + multiset{d}
  {
    if docs == [] || docs[0].task.createdAt < d.task.createdAt then
      ConsNewestFirst(d, docs);
      [d] + docs
    else
      var rest := InsertByDate(docs[1..], d);
      assert docs == [docs[0]] + docs[1..];
      InsertedNoNewer(docs[0], docs[1..], d, rest);
      ConsNewestFirst(docs[0], rest);
      [docs[0]] + rest
  }

  /** What is inserted behind a head no older than it stays no newer than that head. */
  lemma InsertedNoNewer(head: Doc, tail: seq<Doc>, d: Doc, rest: seq<Doc>)
    requires NewestFirst([head] + tail)
    requires d.task.createdAt <= head.task.createdAt
    requires multiset(rest) == multiset(tail) + multiset{d}
    ensures forall y :: y in rest ==> y.task.createdAt <= head.task.createdAt
  {
    forall y | y in rest ensures y.task.createdAt <= head.task.createdAt {
      assert y in multiset(rest);
      if y != d {
        assert y in multiset(tail);
        var k :| 0 <= k < |tail| && tail[k] == y;
        assert ([head] + tail)[0] == head && ([head] + tail)[k + 1] == y;
      }
    }
  }

  /** Inserting a document not yet listed lists it once more and nothing else. */
  lemma InsertOnce(docs: seq<Doc>, d: Doc)
    requires NewestFirst(docs) && Once(docs) && d !in docs
    ensures Once(InsertByDate(docs, d))
    ensures forall x :: x in InsertByDate(docs, d) <==> x in docs || x == d
  {
    var r := InsertByDate(docs, d);
    forall x ensures x in r <==> x in docs || x == d {
      assert x in r <==> x in multiset(r);
    }
  }

  /** The messages of the `CustomError`s the handlers throw. */
  const NoTasks := "No tasks record found"
  const NoSuchTask := "No such task record found"

  /** Who sees a task under `getAll`, by the property `req.roles` selects:
      Root every task, Admin the tasks it created, User the tasks it created
      or is assigned to. */
  predicate SeenBy(key: string, caller: Id, t: Task) {
    if key == ROOT then true
    else if key == ADMIN then t.createdBy == caller
    else key == USER && (caller in t.assignedTo || t.createdBy == caller)
  }

  /** Who may call `update` on a task: its creator, an assignee, or a caller
      whose roles include Admin or Root. */
  predicate MayEdit(t: Task, caller: Id, roles: RoleValue) {
    t.createdBy == caller || caller in t.assignedTo || roles.Includes(ADMIN) || roles.Includes(ROOT)
  }

  /** Who may assign users: an Admin who created the task, or Root. */
  predicate MayAssign(t: Task, caller: Id, roles: RoleValue) {
    (roles.Includes(ADMIN) && t.createdBy == caller) || roles.Includes(ROOT)
  }

  /** The users `getNotAssignUser` offers: active, not yet assigned, and never
      a Root user; a caller without Root does not see Admin users either. */
  predicate Offered(roles: RoleValue, t: Task, uid: Id, u: Account) {
    && u.active
    && uid !in t.assignedTo
    && ROOT !in u.roles
    && (!roles.Includes(ROOT) ==> ADMIN !in u.roles)
  }

  /** The body of `create` as far as the model reads it: a path left out of
      the body is `None`; an empty string and a zero due date are kept, and
      `Create` drops them as the falsy values they are. */
  datatype TaskInput = TaskInput(
    title: Option<string>,
    description: Option<string>,
    priority: Option<string>,
    dueDate: Option<int>,
    status: Option<string>)

  /** The body of `update`, spread into the update: a path present replaces
      the stored value. */
  datatype Patch = Patch(
    assignedTo: Option<seq<Id>>,
    title: Option<string>,
    description: Option<string>,
    createdBy: Option<Id>,
    status: Option<TaskModel.Status>,
    priority: Option<TaskModel.Priority>,
    dueDate: Option<int>)

  function ApplyPatch(t: Task, p: Patch): Task {
    TaskModel.Task(
      p.assignedTo.GetOr(t.assignedTo), p.title.GetOr(t.title), p.description.GetOr(t.description),
      p.createdBy.GetOr(t.createdBy), p.status.GetOr(t.status), p.priority.GetOr(t.priority),
      if p.dueDate.Some? then p.dueDate else t.dueDate, t.createdAt)
  }

  /** `$addToSet: { assignedTo: { $each: ids } }`: each id not yet in the
      list is appended, in order. Nothing is removed, nothing is added twice. */
  function AddToSet(list: seq<Id>, ids: seq<Id>): (r: seq<Id>)
    ensures list <= r
    ensures forall x :: x in r <==> x in list || x in ids
    ensures Seqs.NoDuplicates(list) ==> Seqs.NoDuplicates(r)
    ensures forall k :: |list| <= k < |r| ==> r[k] in ids && r[k] !in list
    ensures forall x :: x in list ==> multiset(r)[x] == multiset(list)[x]
    ensures forall x :: x in ids && x !in list ==> multiset(r)[x] == 1
    decreases |ids|
  {
    if ids == [] then list
    else
      var next := if ids[0] in list then list else list + [ids[0]];
      assert forall x :: x in ids <==> x == ids[0] || x in ids[1..] by {
        assert ids == [ids[0]] + ids[1..];
      }
      assert multiset(next) == multiset(list) + if ids[0] in list then multiset{} else multiset{ids[0]};
      AddToSet(next, ids[1..])
  }

  /** The ids `$addToSet` appends follow the order in which they first occur in `ids`. */
  lemma {:induction false} AddToSetFirstOccurrenceOrder(list: seq<Id>, ids: seq<Id>, i: int, j: int)
    requires |list| <= i < j < |AddToSet(list, ids)|
    ensures Seqs.FirstIndex(ids, AddToSet(list, ids)[i]) < Seqs.FirstIndex(ids, AddToSet(list, ids)[j])
    decreases |ids|
  {
    var r := AddToSet(list, ids);
    assert ids != [];
    var h, t := ids[0], ids[1..];
    var next := if h in list then list else list + [h];
    assert r == AddToSet(next, t);
    if h !in list && i == |list| {
      assert next <= r;
      assert r[i] == h;
      assert r[j] != h;
    } else {
      assert |next| <= i;
      AddToSetFirstOccurrenceOrder(next, t, i, j);
      assert r[i] != h && r[j] != h;
    }
  }

  /** `$pull: { assignedTo: id }`: every occurrence is removed, the rest keep their order. */
  function Pull(list: seq<Id>, id: Id): (r: seq<Id>)
    ensures Seqs.IsSubseq(r, list)
    ensures forall x :: x in r <==> x in list && x != id
    ensures forall x :: multiset(r)[x] == if x != id then multiset(list)[x] else 0
  {
    Seqs.FilterMultiplicity(list, x => x != id);
    Seqs.Filter(list, x => x != id)
  }

  /** JavaScript `===` between the array `Task.find` returns and an id: a
      value of another kind, hence never equal. */
  datatype JsValue = ArrayValue(docs: seq<Doc>) | IdValue(id: Id)

  predicate StrictEquals(a: JsValue, b: JsValue) {
    a.IdValue? && b.IdValue? && a.id == b.id
  }

  /** Some natural number is not an id of a finite set. */
  ghost function Bound(keys: set<Id>): (b: Id)
    ensures forall k :: k in keys ==> k < b
    decreases |keys|
  {
    if keys == {} then 0
    else
      var k :| k in keys;
      var above := Bound(keys - {k});
      assert forall j :: j in keys ==> j == k || j in keys - {k};
      if k < above then above else k + 1
  }

  class Store {
    /** The task collection by `_id`. */
    var tasks: map<Id, Task>
    /** The user collection by `_id`; the handlers here only read it. */
    var users: map<Id, Account>

    constructor (tasks: map<Id, Task>, users: map<Id, Account>)
      ensures this.tasks == tasks && this.users == users
    {
      this.tasks := tasks;
      this.users := users;
    }

    /** `docs` lists, newest first and once each, exactly the stored tasks that pass `p`. */
    predicate Lists(docs: seq<Doc>, p: Task -> bool)
      reads this
    {
      && NewestFirst(docs)
      && Once(docs)
      && (forall d :: d in docs ==> d.id in tasks && tasks[d.id] == d.task && p(d.task))
      && (forall id :: id in tasks && p(tasks[id]) ==> Doc(id, tasks[id]) in docs)
    }

    /** `Task.find(query).sort({ createdAt: -1 })`. */
    method Find(p: Task -> bool) returns (docs: seq<Doc>)
      ensures Lists(docs, p)
    {
      docs := [];
      var remaining := tasks.Keys;
      while remaining != {}
        invariant remaining <= tasks.Keys
        invariant NewestFirst(docs) && Once(docs)
        invariant forall d :: d in docs ==> d.id in tasks && d.id !in remaining && tasks[d.id] == d.task && p(d.task)
        invariant forall id :: id in tasks && id !in remaining && p(tasks[id]) ==> Doc(id, tasks[id]) in docs
        decreases |remaining|
      {
        var id :| id in remaining;
        remaining := remaining - {id};
        var d := Doc(id, tasks[id]);
        if p(d.task) {
          InsertOnce(docs, d);
          docs := InsertByDate(docs, d);
        }
      }
    }

    /** `getAll`: the tasks the caller's role sees, newest first; 404 when
        `req.roles` does not name one of the three roles or nothing is seen. */
    method GetAll(caller: Id, roles: RoleValue) returns (r: Reply<seq<Doc>>)
      ensures r.Ok? || r == Err(404, NoTasks)
      ensures roles.Key() !in {ROOT, ADMIN, USER} ==> r == Err(404, NoTasks)
      ensures r.Ok? ==> r.status == 200 && r.value != [] && Lists(r.value, (t: Task) => SeenBy(roles.Key(), caller, t))
      ensures r.Err? && roles.Key() in {ROOT, ADMIN, USER} ==>
        forall id :: id in tasks ==> !SeenBy(roles.Key(), caller, tasks[id])
    {
      var key := roles.Key();
      var docs: seq<Doc>;
      if key == ROOT {
        docs := Find((t: Task) => true);
      } else if key == ADMIN {
        docs := Find((t: Task) => t.createdBy == caller);
      } else if key == USER {
        docs := Find((t: Task) => caller in t.assignedTo || t.createdBy == caller);
      } else {
        return Err(404, NoTasks);
      }
      if |docs| == 0 {
        r := Err(404, NoTasks);
      } else {
        r := Ok(200, docs);
      }
    }

    /** `inspect`: the tasks assigned to the user `userId`, newest first. */
    method Inspect(userId: Id) returns (r: Reply<seq<Doc>>)
      ensures r.Ok? || r == Err(404, NoTasks)
      ensures r.Ok? ==> r.status == 200 && r.value != [] && Lists(r.value, (t: Task) => userId in t.assignedTo)
      ensures r.Err? ==> forall id :: id in tasks ==> userId !in tasks[id].assignedTo
    {
      var docs := Find((t: Task) => userId in t.assignedTo);
      if |docs| == 0 {
        r := Err(404, NoTasks);
      } else {
        r := Ok(200, docs);
      }
    }

    /** `getById`. */
    method GetById(id: Id) returns (r: Reply<Doc>)
      ensures id in tasks <==> r.Ok?
      ensures r.Ok? ==> r == Ok(200, Doc(id, tasks[id]))
      ensures r.Err? ==> r == Err(404, NoSuchTask)
    {
      if id !in tasks {
        return Err(404, NoSuchTask);
      }
      r := Ok(200, Doc(id, tasks[id]));
    }

    /** `create`. The task is created by the caller, assigned to the caller
        when `req.roles` is the text "User", and takes priority, due date and
        status from the body only when they are given. A body the schema (or
        the input check before it) refuses throws. */
    /** `...(x && { x })`: a falsy field is left out of the new document. */
    static function GivenText(x: Option<string>): Option<string> {
      if x == Some("") then None else x
    }

    static function GivenDate(x: Option<int>): Option<int> {
      if x == Some(0) then None else x
    }

    method Create(caller: Option<Id>, roles: RoleValue, input: TaskInput, now: int) returns (r: Reply<Doc>)
      modifies this
      ensures users == old(users)
      ensures caller.None? ==> r == Err(401, "Authentication required")
      ensures r.Ok? || r.Err? || r.Thrown?
      ensures !r.Ok? ==> tasks == old(tasks)
      ensures caller.Some? ==> (r.Ok? <==>
        && input.title.Some? && input.title.value != ""
        && input.description.Some? && input.description.value != ""
        && (input.status.None? || input.status.value == "" || TaskModel.ParseStatus(input.status.value).Some?)
        && (input.priority.None? || input.priority.value == "" || TaskModel.ParsePriority(input.priority.value).Some?))
      ensures r.Ok? ==>
        && r.status == 201
        && r.value.id !in old(tasks)
        && tasks == old(tasks)[r.value.id := r.value.task]
        && r.value.task.createdBy == caller.value
        && r.value.task.title == input.title.value
        && r.value.task.description == input.description.value
        && r.value.task.assignedTo == (if roles.IsUserText() then [caller.value] else [])
        && r.value.task.status.Name() == (if input.status.None? || input.status.value == "" then "pending" else input.status.value)
        && r.value.task.priority.Name() == (if input.priority.None? || input.priority.value == "" then "medium" else input.priority.value)
        && r.value.task.dueDate == (if input.dueDate == Some(0) then None else input.dueDate)
        && r.value.task.createdAt == now
    {
      if caller.None? {
        return Err(401, "Authentication required");
      }
      var draft := TaskModel.Draft(
        if roles.IsUserText() then Some([caller.value]) else None,
        input.title, input.description, caller.value,
        GivenText(input.status), GivenText(input.priority), GivenDate(input.dueDate));
      var created := TaskModel.Create(draft, now);
      if created.Failure? {
        return Thrown("ValidationError");
      }
      assert Bound(tasks.Keys) !in tasks;
      var id :| id !in tasks;
      tasks := tasks[id := created.value];
      r := Ok(201, Doc(id, created.value));
    }

    /** `update`: 404 for a missing task before any rights check, 401 for a
        caller who may not edit it. A caller whose `req.roles` is the text
        "User" and who did not create the task changes the status only;
        anyone else applies the whole body. */
    method Update(caller: Id, roles: RoleValue, id: Id, patch: Patch) returns (r: Reply<Doc>)
      modifies this
      ensures users == old(users)
      ensures id !in old(tasks) ==> r == Err(404, NoSuchTask)
      ensures id in old(tasks) && !MayEdit(old(tasks)[id], caller, roles) ==>
        r == Err(401, "Not authorized to edit this task")
      ensures r.Ok? <==> id in old(tasks) && MayEdit(old(tasks)[id], caller, roles)
      ensures !r.Ok? ==> tasks == old(tasks)
      ensures r.Ok? ==> r.status == 200 && r.value.id == id && tasks == old(tasks)[id := r.value.task]
      ensures r.Ok? && roles.IsUserText() && old(tasks)[id].createdBy != caller ==>
        && r.value.task.status == patch.status.GetOr(old(tasks)[id].status)
        && r.value.task.(status := old(tasks)[id].status) == old(tasks)[id]
      ensures r.Ok? && !(roles.IsUserText() && old(tasks)[id].createdBy != caller) ==>
        r.value.task == ApplyPatch(old(tasks)[id], patch)
    {
      if id !in tasks {
        return Err(404, NoSuchTask);
      }
      var task := tasks[id];
      var isCreator := task.createdBy == caller;
      var isAssigned := caller in task.assignedTo;
      var isAdmin := roles.Includes(ADMIN) || roles.Includes(ROOT);
      if !isCreator && !isAdmin && !isAssigned {
        return Err(401, "Not authorized to edit this task");
      }
      var updated: Task;
      if roles.IsUserText() && !isCreator {
        updated := task.(status := patch.status.GetOr(task.status));
      } else {
        updated := ApplyPatch(task, patch);
      }
      tasks := tasks[id := updated];
      r := Ok(200, Doc(id, updated));
    }

    /** `delete`. The owner test compares an array with an id, so only a
        caller whose roles include Root gets past it; the rights check comes
        before the lookup. */
    method Delete(caller: Id, roles: RoleValue, id: Id) returns (r: Reply<Doc>)
      modifies this
      ensures users == old(users)
      ensures !roles.Includes(ROOT) ==> r == Err(401, "Not authorized to delete this task")
      ensures roles.Includes(ROOT) && id !in old(tasks) ==> r == Err(404, NoSuchTask)
      ensures roles.Includes(ROOT) && id in old(tasks) ==>
        r == Ok(200, Doc(id, old(tasks)[id])) && tasks == old(tasks) - {id}
      ensures !r.Ok? ==> tasks == old(tasks)
    {
      var createdBy := Find((t: Task) => t.createdBy == caller);
      var owner := roles.Includes(ADMIN) && StrictEquals(ArrayValue(createdBy), IdValue(caller));
      var deleteRight := owner || roles.Includes(ROOT);
      if !deleteRight {
        return Err(401, "Not authorized to delete this task");
      }
      if id !in tasks {
        return Err(404, NoSuchTask);
      }
      r := Ok(200, Doc(id, tasks[id]));
      tasks := tasks - {id};
    }

    /** `getAssignUser`: the assignees of a task. */
    method GetAssignUser(id: Id) returns (r: Reply<seq<Id>>)
      ensures id in tasks ==> r == Ok(200, tasks[id].assignedTo)
      ensures id !in tasks ==> r == Err(400, "Not assigned to user")
    {
      if id !in tasks {
        return Err(400, "Not assigned to user");
      }
      r := Ok(200, tasks[id].assignedTo);
    }

    /** `assignUser`: 404 for a missing task, 401 unless the caller is an
        Admin who created it or Root; then the ids are added to the
        assignees, no earlier assignee removed and none added twice. */
    method AssignUser(caller: Id, roles: RoleValue, taskId: Id, userIds: seq<Id>) returns (r: Reply<seq<Id>>)
      modifies this
      ensures users == old(users)
      ensures taskId !in old(tasks) ==> r == Err(404, "Task not found")
      ensures taskId in old(tasks) && !MayAssign(old(tasks)[taskId], caller, roles) ==>
        r == Err(401, "Not authorized to assign this user")
      ensures r.Ok? <==> taskId in old(tasks) && MayAssign(old(tasks)[taskId], caller, roles)
      ensures !r.Ok? ==> tasks == old(tasks)
      ensures r.Ok? ==>
        && r.status == 200
        && old(tasks)[taskId].assignedTo <= r.value
        && (forall u :: u in r.value <==> u in old(tasks)[taskId].assignedTo || u in userIds)
        && (Seqs.NoDuplicates(old(tasks)[taskId].assignedTo) ==> Seqs.NoDuplicates(r.value))
        && tasks == old(tasks)[taskId := old(tasks)[taskId].(assignedTo := r.value)]
    {
      if taskId !in tasks {
        return Err(404, "Task not found");
      }
      var task := tasks[taskId];
      var owner := roles.Includes(ADMIN) && task.createdBy == caller;
      var createRight := owner || roles.Includes(ROOT);
      if !createRight {
        return Err(401, "Not authorized to assign this user");
      }
      var assignees := AddToSet(task.assignedTo, userIds);
      tasks := tasks[taskId := task.(assignedTo := assignees)];
      r := Ok(200, assignees);
    }

    /** `deleteAssign`: Root only, for the same reason as `delete`; then
        every occurrence of the user is pulled from the assignees. */
    method DeleteAssign(caller: Id, roles: RoleValue, id: Id, userId: Id) returns (r: Reply<seq<Id>>)
      modifies this
      ensures users == old(users)
      ensures !roles.Includes(ROOT) ==> r == Err(401, "Not authorized to delete this user")
      ensures roles.Includes(ROOT) && id !in old(tasks) ==> r == Err(400, "Failed to update task")
      ensures !r.Ok? ==> tasks == old(tasks)
      ensures r.Ok? <==> roles.Includes(ROOT) && id in old(tasks)
      ensures r.Ok? ==>
        && r.status == 200
        && userId !in r.value
        && Seqs.IsSubseq(r.value, old(tasks)[id].assignedTo)
        && (forall u :: u in r.value <==> u in old(tasks)[id].assignedTo && u != userId)
        && tasks == old(tasks)[id := old(tasks)[id].(assignedTo := r.value)]
    {
      var createdBy := Find((t: Task) => t.createdBy == caller);
      var owner := roles.Includes(ADMIN) && StrictEquals(ArrayValue(createdBy), IdValue(caller));
      var deleteRight := owner || roles.Includes(ROOT);
      if !deleteRight {
        return Err(401, "Not authorized to delete this user");
      }
      if id !in tasks {
        return Err(400, "Failed to update task");
      }
      var task := tasks[id];
      var assignees := Pull(task.assignedTo, userId);
      tasks := tasks[id := task.(assignedTo := assignees)];
      r := Ok(200, assignees);
    }

    /** `getNotAssignUser`: the users that may still be assigned to the task. */
    method GetNotAssignUser(roles: RoleValue, id: Id) returns (r: Reply<seq<Id>>)
      ensures id !in tasks ==> r == Err(404, "Task not found")
      ensures r.Ok? || r.Err?
      ensures r.Err? && id in tasks ==>
        && r == Err(404, "No unassigned users found")
        && forall u :: u in users ==> !Offered(roles, tasks[id], u, users[u])
      ensures r.Ok? ==>
        && r.status == 200 && r.value != [] && id in tasks
        && Seqs.NoDuplicates(r.value)
        && forall u :: u in r.value <==> u in users && Offered(roles, tasks[id], u, users[u])
    {
      if id !in tasks {
        return Err(404, "Task not found");
      }
      var task := tasks[id];
      var found: seq<Id> := [];
      var remaining := users.Keys;
      while remaining != {}
        invariant remaining <= users.Keys
        invariant Seqs.NoDuplicates(found)
        invariant forall u :: u in found <==> u in users && u !in remaining && Offered(roles, task, u, users[u])
        decreases |remaining|
      {
        var u :| u in remaining;
        remaining := remaining - {u};
        if Offered(roles, task, u, users[u]) {
          found := found + [u];
        }
      }
      if |found| == 0 {
        return Err(404, "No unassigned users found");
      }
      r := Ok(200, found);
    }
  }

  /** Whatever the caller, only Root may delete: the rights check of `delete`
      passes exactly for roles that include Root. */
  lemma DeleteRightIsRoot(docs: seq<Doc>, caller: Id, roles: RoleValue)
    ensures ((roles.Includes(ADMIN) && StrictEquals(ArrayValue(docs), IdValue(caller))) || roles.Includes(ROOT))
      <==> roles.Includes(ROOT)
  {
  }

  /** `getAll` shows an Admin's tasks to Root too, and a User's own tasks to that User. */
  lemma SeenByRootIncludesOthers(caller: Id, other: Id, t: Task)
    ensures SeenBy(ADMIN, caller, t) ==> SeenBy(ROOT, other, t)
    ensures t.createdBy == caller ==> SeenBy(ADMIN, caller, t) && SeenBy(USER, caller, t)
  {
  }
}
