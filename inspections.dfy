/** The inspection store (`idc-inspections`): generic CRUD whose `save`
    catches storage write failures, so no action raises. */
module Inspections {
  import opened Common
  import opened Seqs
  import opened Storage
  import EntityStore

  datatype Inspection = Inspection(
    id: int,
    title: string,
    notes: Option<string>,
    date: Timestamp,
    synced: bool)

  /** The argument of `add`: an inspection without `id` and `synced`. */
  datatype InspectionDraft = InspectionDraft(title: string, notes: Option<string>, date: Timestamp)

  /** The argument of `update`: `Partial<Inspection>`, `id` included. */
  datatype InspectionPatch = InspectionPatch(
    id: Option<int>,
    title: Option<string>,
    notes: Option<Option<string>>,
    date: Option<Timestamp>,
    synced: Option<bool>)

  function InspectionId(i: Inspection): int { i.id }

  function DraftOf(i: Inspection): InspectionDraft {
    InspectionDraft(i.title, i.notes, i.date)
  }

  /** `{ id, synced: false, ...data }`: the given id, not yet synced, and the
      caller's title, notes and date unchanged. */
  function NewInspection(id: int, d: InspectionDraft): (r: Inspection)
    ensures r.id == id && !r.synced
    ensures DraftOf(r) == d
  {
    Inspection(id, d.title, d.notes, d.date, false)
  }

  /** `{ ...i, ...p }`. */
  function Merge(i: Inspection, p: InspectionPatch): Inspection {
    Inspection(Override(i.id, p.id), Override(i.title, p.title), Override(i.notes, p.notes),
               Override(i.date, p.date), Override(i.synced, p.synced))
  }

  const NoChange := InspectionPatch(None, None, None, None, None)

  /** Merging the empty patch is the identity, merging the same patch twice is
      merging it once, and a patch without `id` keeps the record's id. */
  lemma MergeLaws(i: Inspection, p: InspectionPatch)
    ensures Merge(i, NoChange) == i
    ensures Merge(Merge(i, p), p) == Merge(i, p)
    ensures p.id.None? ==> Merge(i, p).id == i.id
  {
  }

  class InspectionStore {
    const engine: EntityStore.Store<Inspection>

    ghost predicate Valid() {
      engine.idOf == InspectionId && engine.catchesWriteErrors
    }

    constructor (slot: Slot<seq<Inspection>>)
      ensures Valid() && engine.slot == slot && fresh(engine)
      ensures engine.list == [] && engine.nextId == 1
    {
      engine := new EntityStore.Store(slot, InspectionId, true);
    }

    /** `load`: malformed JSON does not throw; it empties the store. */
    method Load()
      requires Valid()
      modifies engine
      ensures match old(engine.slot.content)
        case None => engine.list == old(engine.list) && engine.nextId == old(engine.nextId)
        case Some(Malformed(_)) => engine.list == [] && engine.nextId == 1
        case Some(Holds(l)) => engine.list == l && engine.nextId == NextIdAfter(l, InspectionId)
      ensures old(engine.slot.content).Some? ==> engine.FreshIds()
    {
      engine.Load();
    }

    /** `save`: a failing write is logged and swallowed. */
    method Save()
      requires Valid()
      modifies engine.slot
      ensures engine.SavedOnce()
    {
      var _ := engine.Save();
    }

    /** `add`: appends the new inspection even when the write fails, and
        never raises. */
    method Add(data: InspectionDraft)
      requires Valid()
      modifies engine, engine.slot
      ensures engine.list == old(engine.list) + [NewInspection(old(engine.nextId), data)]
      ensures engine.nextId == old(engine.nextId) + 1
      ensures engine.SavedOnce()
      ensures old(engine.FreshIds()) ==> engine.FreshIds()
    {
      var _ := engine.Add(n => NewInspection(n, data));
    }

    /** `update`: silently ignored for a missing id; otherwise only the first
        record with that id is shallow-merged. */
    method Update(id: int, data: InspectionPatch)
      requires Valid()
      modifies engine, engine.slot
      ensures engine.nextId == old(engine.nextId)
      ensures var i := FindIndex(old(engine.list), id, InspectionId);
        if i == -1 then engine.list == old(engine.list) && unchanged(engine.slot)
        else (engine.list == old(engine.list)[i := Merge(old(engine.list)[i], data)] && engine.SavedOnce())
    {
      var _ := engine.Update(id, r => Merge(r, data));
    }

    /** `remove`: keeps, in order, every inspection whose id is not `id`. */
    method Remove(id: int)
      requires Valid()
      modifies engine, engine.slot
      ensures engine.list == Filter(old(engine.list), OtherThan(id, InspectionId))
      ensures engine.nextId == old(engine.nextId)
      ensures engine.SavedOnce()
      ensures old(engine.FreshIds()) ==> engine.FreshIds()
    {
      var _ := engine.Remove(id);
    }
  }

  /** With a storage that rejects every write, `add` on an empty store still
      holds the new inspection in memory and the slot keeps its old content. */
  method AddWithFailingStorage(slot: Slot<seq<Inspection>>, d: InspectionDraft) returns (s: InspectionStore)
    requires slot.failure.Some?
    modifies slot
    ensures s.Valid() && s.engine.list == [NewInspection(1, d)] && s.engine.nextId == 2
    ensures slot.content == old(slot.content)
  {
    s := new InspectionStore(slot);
    s.Add(d);
  }
}
