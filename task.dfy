/**
 * The organization's task board. Every action throws "Unauthorized" without
 * a session; none of them catches a store error, so a refused insert or an
 * update or delete that matches no row ends the action with that exception.
 */
module Tasks {
  import opened Common
  import opened Seqs
  import opened Store

  /** The form's fields; `dueDate` is the date a non-empty due-date string denotes. */
  datatype TaskInput = TaskInput(
    title: string, description: Option<string>, priority: Priority, status: TaskStatus,
    dueDate: Option<Date>, assigneeId: Option<string>)

  /** `TaskSchema`: a non-empty title (the enumerations are enforced by the types). */
  predicate TaskInputValid(d: TaskInput) {
    |d.title| >= 1
  }

  /** `validated.assigneeId || session.user.id`: the caller unless someone else is named. */
  function Assignee(d: TaskInput, caller: string): (a: string)
    ensures Truthy(d.assigneeId) ==> a == d.assigneeId.value
    ensures !Truthy(d.assigneeId) ==> a == caller
  {
    if Truthy(d.assigneeId) then d.assigneeId.value else caller
  }

  function NewTask(id: string, org: string, caller: string, d: TaskInput, now: int): (k: Task)
    ensures k.organizationId == org && k.creatorId == caller && k.assigneeId == Assignee(d, caller)
    ensures k.title == d.title && k.status == d.status && k.priority == d.priority && k.dueDate == d.dueDate
  {
    Task(id, d.title, d.description, d.priority, d.status, d.dueDate, org, caller, Assignee(d, caller), now)
  }

  /** The database accepts the task: fresh id, and the organization, creator and assignee exist. */
  predicate CanInsertTask(t: Tables, k: Task) {
    KeyFree(t.tasks, TaskId, k.id) && FindOrganization(t, k.organizationId).Some? &&
    FindUser(t, k.creatorId).Some? && FindUser(t, k.assigneeId).Some?
  }

  // ---------------------------------------------------------------------------
  // getTasks
  // ---------------------------------------------------------------------------

  /** `where: { organizationId }`; an undefined organization drops the condition. */
  function TaskOfOrg(org: Option<string>): Task -> bool {
    (k: Task) => org.None? || k.organizationId == org.value
  }

  function TaskCreatedAt(k: Task): int { k.createdAt }

  /** `getTasks`: the session organization's tasks, newest first. */
  function GetTasks(t: Tables, session: Option<Session>): (r: Reply<seq<Task>>)
    ensures r.Thrown? <==> session.None?
    ensures r.Thrown? ==> r.error == "Unauthorized"
    ensures !r.Err?
    ensures r.Ok? ==> multiset(r.value) == multiset(Filter(t.tasks, TaskOfOrg(session.value.organizationId)))
  {
    if session.None? then Thrown("Unauthorized")
    else Ok(SortedFilter(t.tasks, TaskOfOrg(session.value.organizationId), TaskCreatedAt))
  }

  /** Every listed task belongs to the session organization, and each of its tasks is listed. */
  lemma GetTasksScoped(t: Tables, s: Session, org: string)
    requires s.organizationId == Some(org)
    ensures var r := GetTasks(t, Some(s)).value;
      (forall i :: 0 <= i < |r| ==> r[i] in t.tasks && r[i].organizationId == org) &&
      (forall j :: 0 <= j < |t.tasks| && t.tasks[j].organizationId == org ==> t.tasks[j] in r)
  {
  }

  /** The list is ordered newest first. */
  lemma GetTasksSorted(t: Tables, s: Session)
    ensures var r := GetTasks(t, Some(s)).value;
      forall i, j :: 0 <= i < j < |r| ==> r[i].createdAt >= r[j].createdAt
  {
    var r := GetTasks(t, Some(s)).value;
    assert SortedBy(r, TaskCreatedAt);
  }

  // ---------------------------------------------------------------------------
  // createTask
  // ---------------------------------------------------------------------------

  function CreateTaskReply(t: Tables, session: Option<Session>, d: TaskInput, newId: string, now: int): (r: Reply<()>)
    ensures r == Thrown("Unauthorized") <==> session.None?
    ensures r == Thrown("Invalid input") <==> session.Some? && !TaskInputValid(d)
    ensures r.Ok? <==>
      (session.Some? && TaskInputValid(d) && session.value.organizationId.Some? && session.value.userId.Some? &&
       CanInsertTask(t, NewTask(newId, session.value.organizationId.value, session.value.userId.value, d, now)))
    ensures !r.Err?
  {
    if session.None? then Thrown("Unauthorized")
    else if !TaskInputValid(d) then Thrown("Invalid input")
    // a missing organization or user id leaves a required column empty: the insert is refused
    else if session.value.organizationId.None? || session.value.userId.None? then Thrown(StoreError)
    else if !CanInsertTask(t, NewTask(newId, session.value.organizationId.value, session.value.userId.value, d, now))
    then Thrown(StoreError)
    else Ok(())
  }

  method CreateTask(db: Db, session: Option<Session>, d: TaskInput, newId: string, now: int) returns (r: Reply<()>)
    requires db.Valid()
    modifies db
    ensures db.Valid()
    ensures r == CreateTaskReply(old(db.t), session, d, newId, now)
    ensures r.Ok? ==> db.t == old(db.t).(tasks := old(db.t).tasks +
      [NewTask(newId, session.value.organizationId.value, session.value.userId.value, d, now)])
    ensures !r.Ok? ==> db.t == old(db.t)
  {
    if session.None? {
      return Thrown("Unauthorized");
    }
    if !TaskInputValid(d) {
      return Thrown("Invalid input");
    }
    if session.value.organizationId.None? || session.value.userId.None? {
      return Thrown(StoreError);
    }
    var k := NewTask(newId, session.value.organizationId.value, session.value.userId.value, d, now);
    if !CanInsertTask(db.t, k) {
      return Thrown(StoreError);
    }
    AppendUnique(db.t.tasks, TaskId, k);
    db.t := db.t.(tasks := db.t.tasks + [k]);
    return Ok(());
  }

  /** A task created without an assignee is assigned to, created by, and listed for the caller. */
  lemma CreatedTaskDefaultsToCaller(t: Tables, s: Session, d: TaskInput, newId: string, now: int)
    requires CreateTaskReply(t, Some(s), d, newId, now).Ok? && !Truthy(d.assigneeId)
    ensures var k := NewTask(newId, s.organizationId.value, s.userId.value, d, now);
      k.assigneeId == k.creatorId == s.userId.value &&
      k in GetTasks(t.(tasks := t.tasks + [k]), Some(s)).value
  {
    var k := NewTask(newId, s.organizationId.value, s.userId.value, d, now);
    assert (t.tasks + [k])[|t.tasks|] == k;
  }

  // ---------------------------------------------------------------------------
  // updateTaskStatus and deleteTask: `where: { id, organizationId }`
  // ---------------------------------------------------------------------------

  /** Position of the task with this id in the organization (any organization when it is undefined). */
  function TaskIndex(t: Tables, org: Option<string>, id: string): (r: Option<nat>)
    ensures r.Some? ==> r.value < |t.tasks| && t.tasks[r.value].id == id && TaskOfOrg(org)(t.tasks[r.value])
    ensures r.None? <==> forall j :: 0 <= j < |t.tasks| ==> !(t.tasks[j].id == id && TaskOfOrg(org)(t.tasks[j]))
  {
    IndexWhere(t.tasks, (k: Task) => k.id == id && TaskOfOrg(org)(k))
  }

  /**
   * The reply of `updateTaskStatus` and of `deleteTask`, which share their
   * guard and their `where`: a thrown "Unauthorized" without a session, a
   * thrown store error when no task of the caller's organization has the id.
   */
  function OwnedTaskReply(t: Tables, session: Option<Session>, id: string): (r: Reply<()>)
    ensures r == Thrown("Unauthorized") <==> session.None?
    ensures r.Ok? <==> session.Some? && TaskIndex(t, session.value.organizationId, id).Some?
    ensures !r.Err?
  {
    if session.None? then Thrown("Unauthorized")
    else if TaskIndex(t, session.value.organizationId, id).None? then Thrown(StoreError)
    else Ok(())
  }

  method UpdateTaskStatus(db: Db, session: Option<Session>, id: string, status: TaskStatus) returns (r: Reply<()>)
    requires db.Valid()
    modifies db
    ensures db.Valid()
    ensures r == OwnedTaskReply(old(db.t), session, id)
    ensures r.Ok? ==>
      var k := TaskIndex(old(db.t), session.value.organizationId, id).value;
      db.t == old(db.t).(tasks := old(db.t).tasks[k := old(db.t).tasks[k].(status := status)])
    ensures !r.Ok? ==> db.t == old(db.t)
  {
    if session.None? {
      return Thrown("Unauthorized");
    }
    var k := TaskIndex(db.t, session.value.organizationId, id);
    if k.None? {
      return Thrown(StoreError);
    }
    var w := db.t.tasks[k.value].(status := status);
    ReplaceUnique(db.t.tasks, TaskId, k.value, w);
    db.t := db.t.(tasks := db.t.tasks[k.value := w]);
    return Ok(());
  }

  /**
   * A status update changes the status of exactly one task of the caller's
   * organization; every other task, and every other column, stays.
   */
  lemma StatusUpdateChangesOnlyStatus(t: Tables, s: Session, org: string, id: string, status: TaskStatus)
    requires s.organizationId == Some(org) && OwnedTaskReply(t, Some(s), id).Ok?
    ensures var k := TaskIndex(t, Some(org), id).value;
      var ts := t.tasks[k := t.tasks[k].(status := status)];
      |ts| == |t.tasks| && ts[k].organizationId == org && ts[k].status == status &&
      ts[k] == t.tasks[k].(status := status) &&
      (forall j :: 0 <= j < |ts| && j != k ==> ts[j] == t.tasks[j])
  {
  }

  /** `deleteTask` removes by id alone once the row has matched. */
  function NotTask(id: string): Task -> bool {
    (k: Task) => k.id != id
  }

  method DeleteTask(db: Db, session: Option<Session>, id: string) returns (r: Reply<()>)
    requires db.Valid()
    modifies db
    ensures db.Valid()
    ensures r == OwnedTaskReply(old(db.t), session, id)
    ensures r.Ok? ==> db.t == old(db.t).(tasks := Filter(old(db.t).tasks, NotTask(id)))
    ensures !r.Ok? ==> db.t == old(db.t)
  {
    if session.None? {
      return Thrown("Unauthorized");
    }
    var k := TaskIndex(db.t, session.value.organizationId, id);
    if k.None? {
      return Thrown(StoreError);
    }
    FilterUnique(db.t.tasks, TaskId, NotTask(id));
    db.t := db.t.(tasks := Filter(db.t.tasks, NotTask(id)));
    return Ok(());
  }

  /**
   * Under unique ids, a successful delete removes the one matched task of the
   * caller's organization and keeps every other task.
   */
  lemma DeleteRemovesOnlyThat(t: Tables, s: Session, org: string, id: string)
    requires Consistent(t) && s.organizationId == Some(org) && OwnedTaskReply(t, Some(s), id).Ok?
    ensures var k := TaskIndex(t, Some(org), id).value;
      t.tasks[k].organizationId == org && t.tasks[k] !in Filter(t.tasks, NotTask(id)) &&
      (forall j :: 0 <= j < |t.tasks| && j != k ==> t.tasks[j] in Filter(t.tasks, NotTask(id)))
  {
    var k := TaskIndex(t, Some(org), id).value;
    forall j | 0 <= j < |t.tasks| && j != k
      ensures t.tasks[j] in Filter(t.tasks, NotTask(id))
    {
      assert TaskId(t.tasks[j]) != TaskId(t.tasks[k]);
    }
  }
}
