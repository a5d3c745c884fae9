/** The task store (`idc-tasks`): generic CRUD; `add` stamps the creation
    time. A failing write escapes the action that made it. */
module Tasks {
  import opened Common
  import opened Seqs
  import opened Storage
  import EntityStore

  datatype TaskStatus =
    | New          // '新建'
    | InProgress   // '处理中'
    | Done         // '已完成'

  datatype Task = Task(
    id: int,
    title: string,
    status: TaskStatus,
    location: Option<string>,
    recurrence: Option<string>,
    dueDate: Option<Timestamp>,
    createdAt: Timestamp,
    description: Option<string>,
    synced: bool)

  /** The argument of `add`: a task without `id`, `createdAt` and `synced`. */
  datatype TaskDraft = TaskDraft(
    title: string,
    status: TaskStatus,
    location: Option<string>,
    recurrence: Option<string>,
    dueDate: Option<Timestamp>,
    description: Option<string>)

  /** The argument of `update`: `Partial<Task>`, `id` included. */
  datatype TaskPatch = TaskPatch(
    id: Option<int>,
    title: Option<string>,
    status: Option<TaskStatus>,
    location: Option<Option<string>>,
    recurrence: Option<Option<string>>,
    dueDate: Option<Option<Timestamp>>,
    createdAt: Option<Timestamp>,
    description: Option<Option<string>>,
    synced: Option<bool>)

  function TaskId(t: Task): int { t.id }

  function DraftOf(t: Task): TaskDraft {
    TaskDraft(t.title, t.status, t.location, t.recurrence, t.dueDate, t.description)
  }

  /** `{ id, createdAt: now, synced: false, ...taskData }`: the given id,
      created now, not yet synced, and every caller field unchanged. */
  function NewTask(id: int, now: Timestamp, d: TaskDraft): (t: Task)
    ensures t.id == id && t.createdAt == now && !t.synced
    ensures DraftOf(t) == d
  {
    Task(id, d.title, d.status, d.location, d.recurrence, d.dueDate, now, d.description, false)
  }

  /** `{ ...t, ...p }`. */
  function Merge(t: Task, p: TaskPatch): Task {
    Task(Override(t.id, p.id), Override(t.title, p.title), Override(t.status, p.status),
         Override(t.location, p.location), Override(t.recurrence, p.recurrence),
         Override(t.dueDate, p.dueDate), Override(t.createdAt, p.createdAt),
         Override(t.description, p.description), Override(t.synced, p.synced))
  }

  const NoChange := TaskPatch(None, None, None, None, None, None, None, None, None)

  /** Merging the empty patch is the identity, merging the same patch twice is
      merging it once, and a patch naming title, status and due date sets
      exactly those and keeps the other fields. */
  lemma MergeLaws(t: Task, p: TaskPatch, title: string, status: TaskStatus, due: Timestamp)
    ensures Merge(t, NoChange) == t
    ensures Merge(Merge(t, p), p) == Merge(t, p)
    ensures Merge(t, NoChange.(title := Some(title), status := Some(status), dueDate := Some(Some(due))))
      == t.(title := title, status := status, dueDate := Some(due))
  {
  }

  class TaskStore {
    const engine: EntityStore.Store<Task>

    ghost predicate Valid() {
      engine.idOf == TaskId && !engine.catchesWriteErrors
    }

    constructor (slot: Slot<seq<Task>>)
      ensures Valid() && engine.slot == slot && fresh(engine)
      ensures engine.list == [] && engine.nextId == 1
    {
      engine := new EntityStore.Store(slot, TaskId, false);
    }

    /** `load`: `nextId` derived from the largest id; a parse failure resets. */
    method Load()
      requires Valid()
      modifies engine
      ensures match old(engine.slot.content)
        case None => engine.list == old(engine.list) && engine.nextId == old(engine.nextId)
        case Some(Malformed(_)) => engine.list == [] && engine.nextId == 1
        case Some(Holds(l)) => engine.list == l && engine.nextId == NextIdAfter(l, TaskId)
      ensures old(engine.slot.content).Some? ==> engine.FreshIds()
    {
      engine.Load();
    }

    /** `add(taskData)` at time `now`. */
    method Add(taskData: TaskDraft, now: Timestamp) returns (thrown: Option<string>)
      requires Valid()
      modifies engine, engine.slot
      ensures engine.list == old(engine.list) + [NewTask(old(engine.nextId), now, taskData)]
      ensures engine.nextId == old(engine.nextId) + 1
      ensures engine.SavedOnce() && thrown == engine.slot.failure
      ensures old(engine.FreshIds()) ==> engine.FreshIds()
    {
      thrown := engine.Add(n => NewTask(n, now, taskData));
    }

    /** `update`: a no-op for a missing id. */
    method Update(id: int, data: TaskPatch) returns (thrown: Option<string>)
      requires Valid()
      modifies engine, engine.slot
      ensures engine.nextId == old(engine.nextId)
      ensures var i := FindIndex(old(engine.list), id, TaskId);
        if i == -1 then engine.list == old(engine.list) && unchanged(engine.slot) && thrown == None
        else (engine.list == old(engine.list)[i := Merge(old(engine.list)[i], data)]
          && engine.SavedOnce() && thrown == engine.slot.failure)
    {
      thrown := engine.Update(id, t => Merge(t, data));
    }

    /** `remove`: keeps, in order, every task whose id is not `id`. */
    method Remove(id: int) returns (thrown: Option<string>)
      requires Valid()
      modifies engine, engine.slot
      ensures engine.list == Filter(old(engine.list), OtherThan(id, TaskId))
      ensures engine.nextId == old(engine.nextId)
      ensures engine.SavedOnce() && thrown == engine.slot.failure
      ensures old(engine.FreshIds()) ==> engine.FreshIds()
    {
      thrown := engine.Remove(id);
    }
  }

  /** Two adds on an empty store followed by removing the first task leave
      only the second. */
  method AddTwoRemoveFirst(slot: Slot<seq<Task>>, a: TaskDraft, b: TaskDraft, now: Timestamp)
    returns (s: TaskStore)
    modifies slot
    ensures s.Valid() && s.engine.list == [NewTask(2, now, b)]
  {
    s := new TaskStore(slot);
    var _ := s.Add(a, now);
    var _ := s.Add(b, now);
    EntityStore.RemoveFirstOfTwo(NewTask(1, now, a), NewTask(2, now, b), TaskId);
    var _ := s.Remove(s.engine.list[0].id);
  }
}
