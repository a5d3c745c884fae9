/** The tag store (`idc-tags`): generic CRUD; `add` stamps the creation
    time. A failing write escapes the action that made it. */
module Tags {
  import opened Common
  import opened Seqs
  import opened Storage
  import EntityStore

  datatype Tag = Tag(id: int, name: string, description: Option<string>, createdAt: Timestamp)

  /** The argument of `add`: a tag without `id` and `createdAt`. */
  datatype TagDraft = TagDraft(name: string, description: Option<string>)

  /** The argument of `update`: `Partial<Tag>`, `id` included. */
  datatype TagPatch = TagPatch(
    id: Option<int>,
    name: Option<string>,
    description: Option<Option<string>>,
    createdAt: Option<Timestamp>)

  function TagId(t: Tag): int { t.id }

  function DraftOf(t: Tag): TagDraft {
    TagDraft(t.name, t.description)
  }

  /** `{ id, createdAt: now, ...data }`: the given id, created now, and the
      caller's name and description unchanged. */
  function NewTag(id: int, now: Timestamp, d: TagDraft): (t: Tag)
    ensures t.id == id && t.createdAt == now
    ensures DraftOf(t) == d
  {
    Tag(id, d.name, d.description, now)
  }

  /** `{ ...t, ...p }`. */
  function Merge(t: Tag, p: TagPatch): Tag {
    Tag(Override(t.id, p.id), Override(t.name, p.name), Override(t.description, p.description),
        Override(t.createdAt, p.createdAt))
  }

  const NoChange := TagPatch(None, None, None, None)

  /** Merging the empty patch is the identity, merging the same patch twice is
      merging it once, and renaming changes the name only. */
  lemma MergeLaws(t: Tag, p: TagPatch, name: string)
    ensures Merge(t, NoChange) == t
    ensures Merge(Merge(t, p), p) == Merge(t, p)
    ensures Merge(t, NoChange.(name := Some(name))) == t.(name := name)
  {
  }

  class TagStore {
    const engine: EntityStore.Store<Tag>

    ghost predicate Valid() {
      engine.idOf == TagId && !engine.catchesWriteErrors
    }

    constructor (slot: Slot<seq<Tag>>)
      ensures Valid() && engine.slot == slot && fresh(engine)
      ensures engine.list == [] && engine.nextId == 1
    {
      engine := new EntityStore.Store(slot, TagId, false);
    }

    /** `load`: the next id comes from the highest existing id; a parse
        failure resets. */
    method Load()
      requires Valid()
      modifies engine
      ensures match old(engine.slot.content)
        case None => engine.list == old(engine.list) && engine.nextId == old(engine.nextId)
        case Some(Malformed(_)) => engine.list == [] && engine.nextId == 1
        case Some(Holds(l)) => engine.list == l && engine.nextId == NextIdAfter(l, TagId)
      ensures old(engine.slot.content).Some? ==> engine.FreshIds()
    {
      engine.Load();
    }

    /** `add(data)` at time `now`. */
    method Add(data: TagDraft, now: Timestamp) returns (thrown: Option<string>)
      requires Valid()
      modifies engine, engine.slot
      ensures engine.list == old(engine.list) + [NewTag(old(engine.nextId), now, data)]
      ensures engine.nextId == old(engine.nextId) + 1
      ensures engine.SavedOnce() && thrown == engine.slot.failure
      ensures old(engine.FreshIds()) ==> engine.FreshIds()
    {
      thrown := engine.Add(n => NewTag(n, now, data));
    }

    /** `update`: merges into the first tag with `id` and leaves the others. */
    method Update(id: int, data: TagPatch) returns (thrown: Option<string>)
      requires Valid()
      modifies engine, engine.slot
      ensures engine.nextId == old(engine.nextId)
      ensures var i := FindIndex(old(engine.list), id, TagId);
        if i == -1 then engine.list == old(engine.list) && unchanged(engine.slot) && thrown == None
        else (engine.list == old(engine.list)[i := Merge(old(engine.list)[i], data)]
          && engine.SavedOnce() && thrown == engine.slot.failure)
    {
      thrown := engine.Update(id, t => Merge(t, data));
    }

    /** `remove`: keeps, in order, every tag whose id is not `id`. */
    method Remove(id: int) returns (thrown: Option<string>)
      requires Valid()
      modifies engine, engine.slot
      ensures engine.list == Filter(old(engine.list), OtherThan(id, TagId))
      ensures engine.nextId == old(engine.nextId)
      ensures engine.SavedOnce() && thrown == engine.slot.failure
      ensures old(engine.FreshIds()) ==> engine.FreshIds()
    {
      thrown := engine.Remove(id);
    }
  }

  /** Two adds on an empty store followed by removing the first tag leave
      only the second. */
  method AddTwoRemoveFirst(slot: Slot<seq<Tag>>, a: TagDraft, b: TagDraft, now: Timestamp)
    returns (s: TagStore)
    modifies slot
    ensures s.Valid() && s.engine.list == [NewTag(2, now, b)]
  {
    s := new TagStore(slot);
    var _ := s.Add(a, now);
    var _ := s.Add(b, now);
    EntityStore.RemoveFirstOfTwo(NewTag(1, now, a), NewTag(2, now, b), TagId);
    var _ := s.Remove(s.engine.list[0].id);
  }
}
