/** The task document of backend/models/Task.js: the fields, the two
    enumerations with their defaults, and what the schema demands of a
    document before it is stored. */
module TaskModel {
  import opened Wrappers
  import opened Accounts

  datatype Status = Pending | InProgress | Completed {
    function Name(): string {
      match this
      case Pending => "pending"
      case InProgress => "in-progress"
      case Completed => "completed"
    }
  }

  datatype Priority = Low | Medium | High {
    function Name(): string {
      match this
      case Low => "low"
      case Medium => "medium"
      case High => "high"
    }
  }

  /** The enum check of the `status` path: the value must be one of the three names. */
  function ParseStatus(s: string): (r: Option<Status>)
    ensures r.Some? ==> r.value.Name() == s
  {
    if s == "pending" then Some(Pending)
    else if s == "in-progress" then Some(InProgress)
    else if s == "completed" then Some(Completed)
    else None
  }

  /** The enum check of the `priority` path. */
  function ParsePriority(s: string): (r: Option<Priority>)
    ensures r.Some? ==> r.value.Name() == s
  {
    if s == "low" then Some(Low)
    else if s == "medium" then Some(Medium)
    else if s == "high" then Some(High)
    else None
  }

  /** Every status name passes the enum check, and only the status with that name. */
  lemma StatusNamesRoundTrip(st: Status, s: string)
    ensures ParseStatus(st.Name()) == Some(st)
    ensures ParseStatus(s) == Some(st) <==> s == st.Name()
  {
  }

  lemma PriorityNamesRoundTrip(p: Priority, s: string)
    ensures ParsePriority(p.Name()) == Some(p)
    ensures ParsePriority(s) == Some(p) <==> s == p.Name()
  {
  }

  /** A stored task. `createdAt` is the timestamp mongoose adds, in minutes. */
  datatype Task = Task(
    assignedTo: seq<Id>,
    title: string,
    description: string,
    createdBy: Id,
    status: Status,
    priority: Priority,
    dueDate: Option<int>,
    createdAt: int)

  /** The object handed to `Task.create`: a path left out is `None`;
      `status` and `priority` are still raw strings at this point. */
  datatype Draft = Draft(
    assignedTo: Option<seq<Id>>,
    title: Option<string>,
    description: Option<string>,
    createdBy: Id,
    status: Option<string>,
    priority: Option<string>,
    dueDate: Option<int>)

  const DefaultStatus := Pending
  const DefaultPriority := Medium

  /** Why the schema refuses a draft: a required path is missing (mongoose
      counts the empty string as missing) or a value is outside its enum. */
  datatype SchemaError = Required(path: string) | NotInEnum(path: string)

  /** `Task.create(draft)` as far as the schema goes: required paths,
      defaults applied before the enum checks, an array path defaulting to
      `[]`, and the creation time. */
  function Create(d: Draft, now: int): (r: Result<Task, SchemaError>)
    ensures r.Success? <==>
      && d.title.Some? && d.title.value != ""
      && d.description.Some? && d.description.value != ""
      && (d.status.None? || ParseStatus(d.status.value).Some?)
      && (d.priority.None? || ParsePriority(d.priority.value).Some?)
    ensures r.Success? ==> HasRequiredFields(r.value)
    ensures r.Success? ==>
      && r.value.title == d.title.value
      && r.value.description == d.description.value
      && r.value.createdBy == d.createdBy
      && r.value.assignedTo == d.assignedTo.GetOr([])
      && r.value.status.Name() == d.status.GetOr(DefaultStatus.Name())
      && r.value.priority.Name() == d.priority.GetOr(DefaultPriority.Name())
      && r.value.dueDate == d.dueDate
      && r.value.createdAt == now
  {
    var status := ParseStatus(d.status.GetOr(DefaultStatus.Name()));
    var priority := ParsePriority(d.priority.GetOr(DefaultPriority.Name()));
    if d.title.None? || d.title.value == "" then Failure(Required("title"))
    else if d.description.None? || d.description.value == "" then Failure(Required("description"))
    else if status.None? then Failure(NotInEnum("status"))
    else if priority.None? then Failure(NotInEnum("priority"))
    else Success(Task(d.assignedTo.GetOr([]), d.title.value, d.description.value, d.createdBy,
                      status.value, priority.value, d.dueDate, now))
  }

  /** A draft that leaves out status and priority gets the defaults, pending and medium. */
  lemma CreateDefaults(d: Draft, now: int)
    requires d.status.None? && d.priority.None?
    requires d.title.Some? && d.title.value != "" && d.description.Some? && d.description.value != ""
    ensures Create(d, now).Success?
    ensures Create(d, now).value.status == Pending && Create(d, now).value.priority == Medium
  {
    StatusNamesRoundTrip(Pending, "pending");
    PriorityNamesRoundTrip(Medium, "medium");
  }

  /** The schema's required title and description, as a property of a task. */
  predicate HasRequiredFields(t: Task) {
    t.title != "" && t.description != ""
  }
}
