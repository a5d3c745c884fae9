/** The engine that the asset, inspection, task, order and tag stores share:
    an in-memory `list`, a `nextId` counter, and one storage slot the list
    is written to after every change. Each store instantiates it with its
    entity type, its slot, and the id accessor of its records. */
module EntityStore {
  import opened Common
  import opened Seqs
  import opened Storage

  class Store<E> {
    /** The persistence slot (`idc-assets`, `idc-tasks`, ...). */
    const slot: Slot<seq<E>>
    /** Reads the `id` field of a record. */
    const idOf: E -> int
    /** Whether `save` wraps `setItem` in try/catch (the inspection store
        does; in the others a failing write escapes the action). */
    const catchesWriteErrors: bool

    var list: seq<E>
    var nextId: int

    /** The store's initial state: `{ list: [], nextId: 1 }`. */
    constructor (slot: Slot<seq<E>>, idOf: E -> int, catchesWriteErrors: bool)
      ensures this.slot == slot && this.idOf == idOf && this.catchesWriteErrors == catchesWriteErrors
      ensures list == [] && nextId == 1
    {
      this.slot := slot;
      this.idOf := idOf;
      this.catchesWriteErrors := catchesWriteErrors;
      list := [];
      nextId := 1;
    }

    /** `nextId` is larger than every id in the list, so the next `add`
        cannot collide with an existing record. */
    predicate FreshIds()
      reads this
    {
      IdsBelow(list, nextId, idOf)
    }

    /** The exception that escapes an action whose `save` met `failure`. */
    function Escaping(failure: Option<string>): Option<string> {
      if catchesWriteErrors then None else failure
    }

    /** Exactly one `save` happened: one `setItem` of the current list, which
        took effect unless the slot rejects writes. */
    twostate predicate SavedOnce()
      reads this, slot
    {
      && slot.failure == old(slot.failure)
      && slot.writes == old(slot.writes) + 1
      && slot.content == if slot.failure.None? then Some(Holds(list)) else old(slot.content)
    }

    /** `load`: an absent slot changes nothing; a slot that fails to parse
        resets to the empty store; otherwise the list is the stored one and
        `nextId` is one past its largest id. */
    method Load()
      modifies this
      ensures match old(slot.content)
        case None => list == old(list) && nextId == old(nextId)
        case Some(Malformed(_)) => list == [] && nextId == 1
        case Some(Holds(l)) => list == l && nextId == NextIdAfter(l, idOf)
      ensures old(slot.content).Some? ==> FreshIds()
    {
      var raw := slot.content;
      match raw {
        case None =>
        case Some(Malformed(_)) =>
          list := [];
          nextId := 1;
        case Some(Holds(l)) =>
          list := l;
          nextId := MaxIdFrom(0, list, idOf) + 1;
      }
    }

    /** `save`: writes the list to the slot; a failing write is swallowed
        when the store catches write errors and escapes otherwise. */
    method Save() returns (thrown: Option<string>)
      modifies slot
      ensures SavedOnce()
      ensures thrown == Escaping(slot.failure)
    {
      var r := slot.Set(list);
      thrown := if r.Fail? && !catchesWriteErrors then Some(r.error) else None;
    }

    /** `add`: the new record takes `id = nextId++`, is built by `make` from
        that id, goes to the end of the list, and the list is saved once. */
    method Add(make: int -> E) returns (thrown: Option<string>)
      modifies this, slot
      ensures list == old(list) + [make(old(nextId))]
      ensures nextId == old(nextId) + 1
      ensures SavedOnce() && thrown == Escaping(slot.failure)
      ensures old(FreshIds()) && idOf(make(old(nextId))) == old(nextId) ==> FreshIds()
    {
      var id := nextId;
      nextId := nextId + 1;
      list := list + [make(id)];
      thrown := Save();
    }

    /** `update` (and every action that edits one record in place): the first
        record carrying `id` is replaced by `change` of it and the list is
        saved once; when no record carries `id`, nothing happens at all. */
    method Update(id: int, change: E -> E) returns (thrown: Option<string>)
      modifies this, slot
      ensures nextId == old(nextId)
      ensures var i := FindIndex(old(list), id, idOf);
        if i == -1 then list == old(list) && unchanged(slot) && thrown == None
        else list == old(list)[i := change(old(list)[i])] && SavedOnce() && thrown == Escaping(slot.failure)
    {
      var i := FindIndex(list, id, idOf);
      if i != -1 {
        list := list[i := change(list[i])];
        thrown := Save();
      } else {
        thrown := None;
      }
    }

    /** `remove`: the list keeps, in order, exactly the records whose id is
        not `id`, and is saved once (also when nothing was removed). */
    method Remove(id: int) returns (thrown: Option<string>)
      modifies this, slot
      ensures list == Filter(old(list), OtherThan(id, idOf))
      ensures nextId == old(nextId)
      ensures SavedOnce() && thrown == Escaping(slot.failure)
      ensures old(FreshIds()) ==> FreshIds()
    {
      list := Filter(list, OtherThan(id, idOf));
      thrown := Save();
    }
  }

  /** What `remove(id)` leaves: no record carries `id`, every record that
      does not carry it is still there, and nothing new appears. */
  lemma RemoveDropsExactly<E>(s: seq<E>, id: int, idOf: E -> int)
    ensures var r := Filter(s, OtherThan(id, idOf));
      && (forall i :: 0 <= i < |r| ==> idOf(r[i]) != id && r[i] in s)
      && (forall i :: 0 <= i < |s| && idOf(s[i]) != id ==> s[i] in r)
      && (FindIndex(s, id, idOf) == -1 ==> r == s)
  {
    var r := Filter(s, OtherThan(id, idOf));
    if FindIndex(s, id, idOf) == -1 {
      FilterKeepsAll(s, OtherThan(id, idOf));
    }
  }

  /** Removing the id of the first of two records with distinct ids leaves
      only the second. */
  lemma RemoveFirstOfTwo<E>(a: E, b: E, idOf: E -> int)
    requires idOf(a) != idOf(b)
    ensures Filter([a, b], OtherThan(idOf(a), idOf)) == [b]
  {
    assert [a, b][1..] == [b];
    assert [b][1..] == [];
  }
}
