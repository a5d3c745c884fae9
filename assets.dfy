/** The asset store (`idc-assets`): generic CRUD plus a borrow/return state
    machine with an append-only log, and a case-insensitive keyword search. */
module Assets {
  import opened Common
  import opened Seqs
  import opened Storage
  import opened JsText
  import EntityStore

  datatype AssetStatus =
    | Available   // '可用'
    | Borrowed    // '借用'
    | InRepair    // '维修中'

  datatype LogAction =
    | BorrowAction   // '借用'
    | ReturnAction   // '归还'

  /** One borrow/return event. */
  datatype AssetLog = AssetLog(action: LogAction, userId: string, time: Timestamp)

  datatype Asset = Asset(
    id: int,
    name: string,
    category: string,
    location: string,
    status: AssetStatus,
    remark: Option<string>,
    borrowerId: Option<string>,
    borrowTime: Option<Timestamp>,
    returnTime: Option<Timestamp>,
    logs: seq<AssetLog>)

  /** The argument of `add`: an asset without `id` and `logs`. A caller that
      leaves out `status` gets the default. */
  datatype AssetDraft = AssetDraft(
    name: string,
    category: string,
    location: string,
    status: Option<AssetStatus>,
    remark: Option<string>,
    borrowerId: Option<string>,
    borrowTime: Option<Timestamp>,
    returnTime: Option<Timestamp>)

  /** The argument of `update`: `Partial<Asset>`, `id` included. For an
      optional field, `Some(None)` is an explicit `undefined`, which clears it. */
  datatype AssetPatch = AssetPatch(
    id: Option<int>,
    name: Option<string>,
    category: Option<string>,
    location: Option<string>,
    status: Option<AssetStatus>,
    remark: Option<Option<string>>,
    borrowerId: Option<Option<string>>,
    borrowTime: Option<Option<Timestamp>>,
    returnTime: Option<Option<Timestamp>>,
    logs: Option<seq<AssetLog>>)

  function AssetId(a: Asset): int { a.id }

  /** The caller-supplied part of an asset, as `add` received it. */
  function DraftOf(a: Asset): AssetDraft {
    AssetDraft(a.name, a.category, a.location, Some(a.status), a.remark, a.borrowerId, a.borrowTime, a.returnTime)
  }

  /** `{ id, logs: [], status: '可用', ...data }`: the new asset has the given
      id and no logs, its status is the caller's or else available, and every
      field the caller supplied survives unchanged. */
  function NewAsset(id: int, d: AssetDraft): (a: Asset)
    ensures a.id == id && a.logs == []
    ensures a.status == d.status.GetOr(Available)
    ensures DraftOf(a) == d.(status := Some(a.status))
  {
    Asset(id, d.name, d.category, d.location, d.status.GetOr(Available),
          d.remark, d.borrowerId, d.borrowTime, d.returnTime, [])
  }

  /** `{ ...a, ...p }`: every field the patch names is replaced, the others kept. */
  function Merge(a: Asset, p: AssetPatch): Asset {
    Asset(Override(a.id, p.id), Override(a.name, p.name), Override(a.category, p.category),
          Override(a.location, p.location), Override(a.status, p.status), Override(a.remark, p.remark),
          Override(a.borrowerId, p.borrowerId), Override(a.borrowTime, p.borrowTime),
          Override(a.returnTime, p.returnTime), Override(a.logs, p.logs))
  }

  /** The patch that names no field. */
  const NoChange := AssetPatch(None, None, None, None, None, None, None, None, None, None)

  /** Merging the empty patch is the identity, merging the same patch twice is
      merging it once, and a patch without `id` keeps the record's id. */
  lemma MergeLaws(a: Asset, p: AssetPatch)
    ensures Merge(a, NoChange) == a
    ensures Merge(Merge(a, p), p) == Merge(a, p)
    ensures p.id.None? ==> Merge(a, p).id == a.id
  {
  }

  /** `borrow` on a found asset: borrower, borrow time and status are set and
      exactly one borrow log is appended; nothing else changes. */
  function BorrowedBy(a: Asset, borrowerId: string, now: Timestamp): (r: Asset)
    ensures r.status == Borrowed && r.borrowerId == Some(borrowerId) && r.borrowTime == Some(now)
    ensures r.logs == a.logs + [AssetLog(BorrowAction, borrowerId, now)]
    ensures r.(borrowerId := a.borrowerId, borrowTime := a.borrowTime, status := a.status, logs := a.logs) == a
  {
    var a' := a.(borrowerId := Some(borrowerId), borrowTime := Some(now), status := Borrowed);
    a'.(logs := a'.logs + [AssetLog(BorrowAction, borrowerId, now)])
  }

  /** Whether `if (asset.borrowerId)` holds: set and not the empty string. */
  predicate HasBorrower(a: Asset) {
    a.borrowerId.Some? && a.borrowerId.value != ""
  }

  /** `returnAsset` on a found asset: the return time is set, the borrower and
      borrow time are cleared and the status is available again; a return log
      naming the previous borrower is appended only when there was one. */
  function Returned(a: Asset, now: Timestamp): (r: Asset)
    ensures r.status == Available && r.borrowerId == None && r.borrowTime == None
    ensures r.returnTime == Some(now)
    ensures r.logs == if HasBorrower(a) then a.logs + [AssetLog(ReturnAction, a.borrowerId.value, now)] else a.logs
    ensures r.(borrowerId := a.borrowerId, borrowTime := a.borrowTime, returnTime := a.returnTime,
               status := a.status, logs := a.logs) == a
  {
    var logs := if a.borrowerId.Some? && a.borrowerId.value != ""
      then a.logs + [AssetLog(ReturnAction, a.borrowerId.value, now)] else a.logs;
    a.(returnTime := Some(now), logs := logs, borrowerId := None, borrowTime := None, status := Available)
  }

  /** Status says borrowed exactly when a borrower is recorded. */
  predicate BorrowConsistent(a: Asset) {
    a.status == Borrowed <==> a.borrowerId.Some?
  }

  /** Borrow and return both leave an asset whose status agrees with its
      borrower field, and both only ever append to the log. */
  lemma TransitionsKeepConsistency(a: Asset, who: string, now: Timestamp)
    ensures BorrowConsistent(BorrowedBy(a, who, now)) && BorrowConsistent(Returned(a, now))
    ensures a.logs <= BorrowedBy(a, who, now).logs && a.logs <= Returned(a, now).logs
  {
  }

  /** A borrow followed by a return restores availability and leaves exactly
      two new log entries, the borrow and the return, both naming the borrower. */
  lemma BorrowThenReturn(a: Asset, who: string, t1: Timestamp, t2: Timestamp)
    requires who != ""
    ensures var r := Returned(BorrowedBy(a, who, t1), t2);
      && r.status == Available && r.borrowerId == None && r.borrowTime == None
      && r.returnTime == Some(t2)
      && r.logs == a.logs + [AssetLog(BorrowAction, who, t1), AssetLog(ReturnAction, who, t2)]
  {
    var b := BorrowedBy(a, who, t1);
    assert HasBorrower(b);
  }

  /** Nothing guards a second borrow: it overwrites the borrower and logs
      a second borrow event. */
  lemma ReborrowOverwrites(a: Asset, w1: string, t1: Timestamp, w2: string, t2: Timestamp)
    ensures var r := BorrowedBy(BorrowedBy(a, w1, t1), w2, t2);
      && r.borrowerId == Some(w2) && r.borrowTime == Some(t2)
      && r.logs == a.logs + [AssetLog(BorrowAction, w1, t1), AssetLog(BorrowAction, w2, t2)]
  {
  }

  /** The text fields `search` looks at: name, category, location, remark. */
  function SearchFields(a: Asset): seq<string> {
    [a.name, a.category, a.location] + (if a.remark.Some? then [a.remark.value] else [])
  }

  /** `[...].filter(Boolean).some(f => f.toLowerCase().includes(kw))`. */
  predicate MatchesKeyword(a: Asset, kw: string) {
    exists i :: 0 <= i < |SearchFields(a)| && SearchFields(a)[i] != "" && Includes(Lower(SearchFields(a)[i]), kw)
  }

  function Matching(kw: string): Asset -> bool {
    a => MatchesKeyword(a, kw)
  }

  /** The keyword as `search` compares it: trimmed and lower-cased. */
  function Keyword(keyword: string): string {
    Lower(Trim(keyword))
  }

  /** Normalising a keyword twice is normalising it once. */
  lemma KeywordIdempotent(keyword: string)
    ensures Keyword(Keyword(keyword)) == Keyword(keyword)
  {
    TrimAfterLower(keyword);
    LowerIdempotent(Trim(keyword));
  }

  class AssetStore {
    const engine: EntityStore.Store<Asset>

    ghost predicate Valid() {
      engine.idOf == AssetId && !engine.catchesWriteErrors
    }

    constructor (slot: Slot<seq<Asset>>)
      ensures Valid() && engine.slot == slot && fresh(engine)
      ensures engine.list == [] && engine.nextId == 1
    {
      engine := new EntityStore.Store(slot, AssetId, false);
    }

    /** `load`, as the engine does it. */
    method Load()
      requires Valid()
      modifies engine
      ensures match old(engine.slot.content)
        case None => engine.list == old(engine.list) && engine.nextId == old(engine.nextId)
        case Some(Malformed(_)) => engine.list == [] && engine.nextId == 1
        case Some(Holds(l)) => engine.list == l && engine.nextId == NextIdAfter(l, AssetId)
      ensures old(engine.slot.content).Some? ==> engine.FreshIds()
    {
      engine.Load();
    }

    /** `add`: appends `NewAsset(nextId, data)`, bumps `nextId`, saves once;
        a failing write escapes after the list has changed. */
    method Add(data: AssetDraft) returns (thrown: Option<string>)
      requires Valid()
      modifies engine, engine.slot
      ensures engine.list == old(engine.list) + [NewAsset(old(engine.nextId), data)]
      ensures engine.nextId == old(engine.nextId) + 1
      ensures engine.SavedOnce() && thrown == engine.slot.failure
      ensures old(engine.FreshIds()) ==> engine.FreshIds()
    {
      thrown := engine.Add(n => NewAsset(n, data));
    }

    /** `update`: shallow-merges `data` into the first asset with `id`, or
        does nothing at all when there is none. */
    method Update(id: int, data: AssetPatch) returns (thrown: Option<string>)
      requires Valid()
      modifies engine, engine.slot
      ensures engine.nextId == old(engine.nextId)
      ensures var i := FindIndex(old(engine.list), id, AssetId);
        if i == -1 then engine.list == old(engine.list) && unchanged(engine.slot) && thrown == None
        else (engine.list == old(engine.list)[i := Merge(old(engine.list)[i], data)]
          && engine.SavedOnce() && thrown == engine.slot.failure)
    {
      thrown := engine.Update(id, a => Merge(a, data));
    }

    /** `remove`: keeps, in order, every asset whose id is not `id`. */
    method Remove(id: int) returns (thrown: Option<string>)
      requires Valid()
      modifies engine, engine.slot
      ensures engine.list == Filter(old(engine.list), OtherThan(id, AssetId))
      ensures engine.nextId == old(engine.nextId)
      ensures engine.SavedOnce() && thrown == engine.slot.failure
      ensures old(engine.FreshIds()) ==> engine.FreshIds()
    {
      thrown := engine.Remove(id);
    }

    /** `borrow(id, borrowerId)` at time `now`: a missing id is a no-op. */
    method Borrow(id: int, borrowerId: string, now: Timestamp) returns (thrown: Option<string>)
      requires Valid()
      modifies engine, engine.slot
      ensures engine.nextId == old(engine.nextId)
      ensures var i := FindIndex(old(engine.list), id, AssetId);
        if i == -1 then engine.list == old(engine.list) && unchanged(engine.slot) && thrown == None
        else (engine.list == old(engine.list)[i := BorrowedBy(old(engine.list)[i], borrowerId, now)]
          && engine.SavedOnce() && thrown == engine.slot.failure)
    {
      thrown := engine.Update(id, a => BorrowedBy(a, borrowerId, now));
    }

    /** `returnAsset(id)` at time `now`: a missing id is a no-op. */
    method ReturnAsset(id: int, now: Timestamp) returns (thrown: Option<string>)
      requires Valid()
      modifies engine, engine.slot
      ensures engine.nextId == old(engine.nextId)
      ensures var i := FindIndex(old(engine.list), id, AssetId);
        if i == -1 then engine.list == old(engine.list) && unchanged(engine.slot) && thrown == None
        else (engine.list == old(engine.list)[i := Returned(old(engine.list)[i], now)]
          && engine.SavedOnce() && thrown == engine.slot.failure)
    {
      thrown := engine.Update(id, a => Returned(a, now));
    }

    /** `search(keyword)`: the assets, in list order, that have a non-empty
        searched field containing the trimmed, lower-cased keyword once that
        field is lower-cased. The list itself is only read. */
    function Search(keyword: string): (r: seq<Asset>)
      reads engine
      ensures forall i :: 0 <= i < |r| ==> r[i] in engine.list && MatchesKeyword(r[i], Keyword(keyword))
      ensures forall i :: 0 <= i < |engine.list| && MatchesKeyword(engine.list[i], Keyword(keyword)) ==> engine.list[i] in r
    {
      Filter(engine.list, Matching(Keyword(keyword)))
    }
  }

  /** Searching with an already trimmed, lower-cased keyword finds the same
      assets, in the same order, as searching with the raw keyword. */
  lemma SearchNormalisedKeyword(s: AssetStore, keyword: string)
    ensures s.Search(Keyword(keyword)) == s.Search(keyword)
  {
    KeywordIdempotent(keyword);
  }

  /** Two adds on an empty store give the ids 1 and 2, with one write each. */
  method AddTwiceFromEmpty(slot: Slot<seq<Asset>>, d1: AssetDraft, d2: AssetDraft) returns (s: AssetStore)
    modifies slot
    ensures s.Valid() && s.engine.slot == slot
    ensures |s.engine.list| == 2 && s.engine.list[0].id == 1 && s.engine.list[1].id == 2
    ensures slot.writes == old(slot.writes) + 2
  {
    s := new AssetStore(slot);
    var _ := s.Add(d1);
    var _ := s.Add(d2);
  }

  /** `search('lap')` over a laptop and a server rack finds the laptop only. */
  lemma SearchFindsLaptop(s: AssetStore, laptop: Asset, rack: Asset)
    requires laptop.name == "Laptop" && rack.name == "Server Rack"
    requires laptop.category == "" && laptop.location == "" && laptop.remark == None
    requires rack.category == "" && rack.location == "" && rack.remark == None
    requires s.engine.list == [laptop, rack]
    ensures s.Search("lap") == [laptop]
  {
    KeywordLap();
    LaptopMatches(laptop);
    RackDoesNotMatch(rack);
    var m := Matching("lap");
    assert m(laptop) && !m(rack);
    assert [laptop, rack][1..] == [rack];
    assert Filter([rack], m) == [] by {
      assert [rack][1..] == [];
    }
  }

  lemma KeywordLap()
    ensures Keyword("lap") == "lap"
  {
    assert TrimStart("lap") == "lap";
    assert TrimEnd("lap") == "lap";
  }

  lemma LaptopMatches(laptop: Asset)
    requires laptop.name == "Laptop"
    ensures MatchesKeyword(laptop, "lap")
  {
    assert Lower("Laptop") == "laptop";
    assert OccursAt("laptop", "lap", 0);
    assert SearchFields(laptop)[0] == "Laptop";
  }

  lemma RackDoesNotMatch(rack: Asset)
    requires rack.name == "Server Rack" && rack.category == "" && rack.location == "" && rack.remark == None
    ensures !MatchesKeyword(rack, "lap")
  {
    var low := Lower("Server Rack");
    assert forall k :: 0 <= k < |low| ==> low[k] != 'l';
    assert SearchFields(rack) == ["Server Rack", "", ""];
    assert forall j :: OccursAt(low, "lap", j) ==> low[j] == 'l';
  }
}
