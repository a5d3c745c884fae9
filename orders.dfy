/** The work-order store (`idc-orders`): generic CRUD; `add` stamps the
    creation time. A failing write escapes the action that made it. */
module Orders {
  import opened Common
  import opened Seqs
  import opened Storage
  import EntityStore

  datatype Priority =
    | High     // '高'
    | Medium   // '中'
    | Low      // '低'

  datatype OrderStatus =
    | New          // '新建'
    | InProgress   // '处理中'
    | Done         // '已完成'

  datatype Order = Order(
    id: int,
    title: string,
    priority: Priority,
    reporter: string,
    assignee: Option<string>,
    status: OrderStatus,
    startDate: Option<Timestamp>,
    endDate: Option<Timestamp>,
    description: Option<string>,
    maintainerSignature: Option<string>,
    createdAt: Timestamp,
    synced: bool)

  /** The argument of `add`: an order without `id`, `createdAt` and `synced`. */
  datatype OrderDraft = OrderDraft(
    title: string,
    priority: Priority,
    reporter: string,
    assignee: Option<string>,
    status: OrderStatus,
    startDate: Option<Timestamp>,
    endDate: Option<Timestamp>,
    description: Option<string>,
    maintainerSignature: Option<string>)

  /** The argument of `update`: `Partial<Order>`, `id` included. */
  datatype OrderPatch = OrderPatch(
    id: Option<int>,
    title: Option<string>,
    priority: Option<Priority>,
    reporter: Option<string>,
    assignee: Option<Option<string>>,
    status: Option<OrderStatus>,
    startDate: Option<Option<Timestamp>>,
    endDate: Option<Option<Timestamp>>,
    description: Option<Option<string>>,
    maintainerSignature: Option<Option<string>>,
    createdAt: Option<Timestamp>,
    synced: Option<bool>)

  function OrderId(o: Order): int { o.id }

  function DraftOf(o: Order): OrderDraft {
    OrderDraft(o.title, o.priority, o.reporter, o.assignee, o.status, o.startDate, o.endDate,
               o.description, o.maintainerSignature)
  }

  /** `{ id, createdAt: now, synced: false, ...data }`: the given id, created
      now, not yet synced, and every caller field (priority, reporter, status
      among them) unchanged. */
  function NewOrder(id: int, now: Timestamp, d: OrderDraft): (o: Order)
    ensures o.id == id && o.createdAt == now && !o.synced
    ensures DraftOf(o) == d
  {
    Order(id, d.title, d.priority, d.reporter, d.assignee, d.status, d.startDate, d.endDate,
          d.description, d.maintainerSignature, now, false)
  }

  /** `{ ...o, ...p }`. */
  function Merge(o: Order, p: OrderPatch): Order {
    Order(Override(o.id, p.id), Override(o.title, p.title), Override(o.priority, p.priority),
          Override(o.reporter, p.reporter), Override(o.assignee, p.assignee),
          Override(o.status, p.status), Override(o.startDate, p.startDate),
          Override(o.endDate, p.endDate), Override(o.description, p.description),
          Override(o.maintainerSignature, p.maintainerSignature),
          Override(o.createdAt, p.createdAt), Override(o.synced, p.synced))
  }

  const NoChange := OrderPatch(None, None, None, None, None, None, None, None, None, None, None, None)

  /** Merging the empty patch is the identity, merging the same patch twice is
      merging it once, and a patch without `id` keeps the record's id. */
  lemma MergeLaws(o: Order, p: OrderPatch)
    ensures Merge(o, NoChange) == o
    ensures Merge(Merge(o, p), p) == Merge(o, p)
    ensures p.id.None? ==> Merge(o, p).id == o.id
  {
  }

  class OrderStore {
    const engine: EntityStore.Store<Order>

    ghost predicate Valid() {
      engine.idOf == OrderId && !engine.catchesWriteErrors
    }

    constructor (slot: Slot<seq<Order>>)
      ensures Valid() && engine.slot == slot && fresh(engine)
      ensures engine.list == [] && engine.nextId == 1
    {
      engine := new EntityStore.Store(slot, OrderId, false);
    }

    /** `load`: `nextId` derived from the largest id; a parse failure resets. */
    method Load()
      requires Valid()
      modifies engine
      ensures match old(engine.slot.content)
        case None => engine.list == old(engine.list) && engine.nextId == old(engine.nextId)
        case Some(Malformed(_)) => engine.list == [] && engine.nextId == 1
        case Some(Holds(l)) => engine.list == l && engine.nextId == NextIdAfter(l, OrderId)
      ensures old(engine.slot.content).Some? ==> engine.FreshIds()
    {
      engine.Load();
    }

    /** `add(data)` at time `now`. */
    method Add(data: OrderDraft, now: Timestamp) returns (thrown: Option<string>)
      requires Valid()
      modifies engine, engine.slot
      ensures engine.list == old(engine.list) + [NewOrder(old(engine.nextId), now, data)]
      ensures engine.nextId == old(engine.nextId) + 1
      ensures engine.SavedOnce() && thrown == engine.slot.failure
      ensures old(engine.FreshIds()) ==> engine.FreshIds()
    {
      thrown := engine.Add(n => NewOrder(n, now, data));
    }

    /** `update`: a no-op for a missing id. */
    method Update(id: int, data: OrderPatch) returns (thrown: Option<string>)
      requires Valid()
      modifies engine, engine.slot
      ensures engine.nextId == old(engine.nextId)
      ensures var i := FindIndex(old(engine.list), id, OrderId);
        if i == -1 then engine.list == old(engine.list) && unchanged(engine.slot) && thrown == None
        else (engine.list == old(engine.list)[i := Merge(old(engine.list)[i], data)]
          && engine.SavedOnce() && thrown == engine.slot.failure)
    {
      thrown := engine.Update(id, o => Merge(o, data));
    }

    /** `remove`: keeps, in order, every order whose id is not `id`. */
    method Remove(id: int) returns (thrown: Option<string>)
      requires Valid()
      modifies engine, engine.slot
      ensures engine.list == Filter(old(engine.list), OtherThan(id, OrderId))
      ensures engine.nextId == old(engine.nextId)
      ensures engine.SavedOnce() && thrown == engine.slot.failure
      ensures old(engine.FreshIds()) ==> engine.FreshIds()
    {
      thrown := engine.Remove(id);
    }
  }
}
