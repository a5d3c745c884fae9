/** The notification store (`idc-notifications`). Records reach it from the
    notification service or from its own storage slot in loose shapes, and
    `fromService` normalises every one of them into one canonical shape. The
    outcome of each service call is an input of the action that makes it. */
module Notifications {
  import opened Common
  import opened Seqs
  import opened Storage
  import opened JsText

  /** A JSON value as `fromService` tells values apart with `typeof`. */
  datatype Value = Num(n: int) | Str(s: string) | Bool(b: bool) | Other

  /** A record of unknown shape: its properties and their values. A value
      that is not an object (`null`, a number) has no properties, so it is
      the empty record. */
  type Loose = map<string, Value>

  /** The unified notification; `kind` is the source's `type` property. */
  datatype Notification = Notification(
    id: int,
    title: Option<string>,
    message: Option<string>,
    createdAt: Option<Timestamp>,
    read: Option<bool>,
    publisher: Option<string>,
    kind: Option<string>,
    date: Option<Timestamp>,
    confirmed: Option<bool>,
    confirmedCount: Option<int>)

  /** One line of the confirmation statistics. */
  datatype Stat = Stat(id: int, title: string, confirmed: int, unconfirmed: seq<string>)

  function NotificationId(n: Notification): int { n.id }

  predicate IsStr(o: Loose, key: string) { key in o && o[key].Str? }
  predicate IsNum(o: Loose, key: string) { key in o && o[key].Num? }
  predicate IsBool(o: Loose, key: string) { key in o && o[key].Bool? }

  /** The default title of a notification without one: `通知 #<id>`. */
  function Numbered(id: int): string {
    "通知 #" + IntToString(id)
  }

  /** The shape `fromService` produces: every field but `publisher` and
      `type` is present, and `date` repeats `createdAt`. */
  predicate Canonical(n: Notification) {
    && n.title.Some? && n.message.Some? && n.createdAt.Some? && n.read.Some?
    && n.confirmed.Some? && n.confirmedCount.Some?
    && n.date == n.createdAt
  }

  /** `fromService(o, fallbackId)`, with `now` standing for the clock it reads
      when `o` carries no timestamp. It is total: every record, whatever its
      shape, normalises to a canonical notification. */
  function FromService(o: Loose, fallbackId: int, now: Timestamp): (n: Notification)
    ensures Canonical(n)
  {
    var id := if IsNum(o, "id") then o["id"].n else fallbackId;
    var createdAt :=
      if IsStr(o, "createdAt") then o["createdAt"].s
      else if IsStr(o, "date") then o["date"].s
      else now;
    var title :=
      if IsStr(o, "title") then o["title"].s
      else if IsStr(o, "name") then o["name"].s
      else if IsStr(o, "message") then o["message"].s
      else Numbered(id);
    var message :=
      if IsStr(o, "message") then o["message"].s
      else if IsStr(o, "content") then o["content"].s
      else "";
    var confirmedBool :=
      if IsBool(o, "confirmed") then o["confirmed"].b
      else if IsStr(o, "status") then o["status"].s == "confirmed" || o["status"].s == "done"
      else false;
    var confirmedCount :=
      if IsNum(o, "confirmedCount") then o["confirmedCount"].n
      else if IsNum(o, "confirmed") then o["confirmed"].n
      else if confirmedBool then 1 else 0;
    var read := if IsBool(o, "read") then o["read"].b else false;
    Notification(
      id, Some(title), Some(message), Some(createdAt), Some(read),
      if IsStr(o, "publisher") then Some(o["publisher"].s) else None,
      if IsStr(o, "type") then Some(o["type"].s) else None,
      Some(createdAt), Some(confirmedBool), Some(confirmedCount))
  }

  /** The first of `keys` whose value is a string, or `default`: the fallback
      chains of `fromService` read as one rule. */
  function FirstString(o: Loose, keys: seq<string>, default: string): string
    decreases |keys|
  {
    if keys == [] then default
    else if IsStr(o, keys[0]) then o[keys[0]].s
    else FirstString(o, keys[1..], default)
  }

  /** The fallback chains of `fromService`: the id is a numeric `id` or the
      fallback; `createdAt` (and `date` with it) is `createdAt`, then `date`,
      then now; `title` is `title`, then `name`, then `message`, then
      `通知 #<id>`; `message` is `message`, then `content`, then `''`;
      `read` is a boolean `read`, else false; `publisher` and `type` are kept
      when they are strings. */
  lemma {:induction false} FromServiceChains(o: Loose, fallbackId: int, now: Timestamp)
    ensures var n := FromService(o, fallbackId, now);
      && n.id == (if IsNum(o, "id") then o["id"].n else fallbackId)
      && n.createdAt == n.date == Some(FirstString(o, ["createdAt", "date"], now))
      && n.title == Some(FirstString(o, ["title", "name", "message"], Numbered(n.id)))
      && n.message == Some(FirstString(o, ["message", "content"], ""))
      && n.read == Some(IsBool(o, "read") && o["read"].b)
      && n.publisher == (if IsStr(o, "publisher") then Some(o["publisher"].s) else None)
      && n.kind == (if IsStr(o, "type") then Some(o["type"].s) else None)
  {
    var ts: seq<string> := ["title", "name", "message"];
    assert ts[1..] == ["name", "message"] && ts[1..][1..] == ["message"] && ts[1..][1..][1..] == [];
    var cs: seq<string> := ["createdAt", "date"];
    assert cs[1..] == ["date"] && cs[1..][1..] == [];
    var ms: seq<string> := ["message", "content"];
    assert ms[1..] == ["content"] && ms[1..][1..] == [];
  }

  /** The confirmation rules of `fromService`: `confirmed` is a boolean
      `confirmed`, else whether a string `status` is 'confirmed' or 'done',
      else false; the count is a numeric `confirmedCount`, else a numeric
      `confirmed`, else 1 or 0 after the boolean. */
  lemma ConfirmationRules(o: Loose, fallbackId: int, now: Timestamp)
    ensures var n := FromService(o, fallbackId, now);
      && (n.confirmed == Some(true) <==>
            if IsBool(o, "confirmed") then o["confirmed"].b
            else IsStr(o, "status") && o["status"].s in {"confirmed", "done"})
      && n.confirmedCount == Some(
            if IsNum(o, "confirmedCount") then o["confirmedCount"].n
            else if IsNum(o, "confirmed") then o["confirmed"].n
            else if n.confirmed == Some(true) then 1 else 0)
  {
  }

  /** A numeric `confirmed` is a count, not a flag: `{ confirmed: 3 }`
      normalises to an unconfirmed notification confirmed three times. */
  lemma NumericConfirmedIsACount(fallbackId: int, now: Timestamp)
    ensures var n := FromService(map["confirmed" := Num(3)], fallbackId, now);
      n.confirmed == Some(false) && n.confirmedCount == Some(3)
      && n.id == fallbackId && n.title == Some(Numbered(fallbackId)) && n.message == Some("")
  {
  }

  /** A stored `confirmed: true` with `confirmedCount: 0` stays so: the flag
      and the count are normalised independently. */
  lemma FlagAndCountIndependent(fallbackId: int, now: Timestamp)
    ensures var n := FromService(map["confirmed" := Bool(true), "confirmedCount" := Num(0)], fallbackId, now);
      n.confirmed == Some(true) && n.confirmedCount == Some(0)
  {
  }

  /** A field of the JSON encoding: present when the field is. */
  function Put(o: Loose, key: string, v: Option<Value>): Loose {
    match v
    case Some(x) => o[key := x]
    case None => o
  }

  function OptStr(x: Option<string>): Option<Value> {
    match x case Some(s) => Some(Str(s)) case None => None
  }

  function OptBool(x: Option<bool>): Option<Value> {
    match x case Some(b) => Some(Bool(b)) case None => None
  }

  function OptNum(x: Option<int>): Option<Value> {
    match x case Some(k) => Some(Num(k)) case None => None
  }

  /** `JSON.stringify` of a notification, read back as a record: the absent
      fields are dropped. */
  function ToLoose(n: Notification): Loose {
    var o := map["id" := Num(n.id)];
    var o := Put(o, "title", OptStr(n.title));
    var o := Put(o, "message", OptStr(n.message));
    var o := Put(o, "createdAt", OptStr(n.createdAt));
    var o := Put(o, "read", OptBool(n.read));
    var o := Put(o, "publisher", OptStr(n.publisher));
    var o := Put(o, "type", OptStr(n.kind));
    var o := Put(o, "date", OptStr(n.date));
    var o := Put(o, "confirmed", OptBool(n.confirmed));
    Put(o, "confirmedCount", OptNum(n.confirmedCount))
  }

  /** Every field of a canonical notification satisfies the first branch of
      its own chain, so `fromService` gives it back unchanged, whatever the
      fallback id and the clock. */
  lemma FromServiceKeepsCanonical(n: Notification, fallbackId: int, now: Timestamp)
    requires Canonical(n)
    ensures FromService(ToLoose(n), fallbackId, now) == n
  {
    var o := ToLoose(n);
    assert o["id"] == Num(n.id);
    assert o["title"] == Str(n.title.value) && o["message"] == Str(n.message.value);
    assert o["createdAt"] == Str(n.createdAt.value) && o["read"] == Bool(n.read.value);
    assert o["confirmed"] == Bool(n.confirmed.value) && o["confirmedCount"] == Num(n.confirmedCount.value);
    assert n.publisher.Some? <==> IsStr(o, "publisher");
    assert n.kind.Some? <==> IsStr(o, "type");
  }

  /** `fromService` is idempotent through storage: normalising the stored
      form of a normalised record gives the same record. */
  lemma {:induction false} FromServiceIdempotent(o: Loose, fallbackId: int, now: Timestamp, laterId: int, later: Timestamp)
    ensures var n := FromService(o, fallbackId, now);
      FromService(ToLoose(n), laterId, later) == n
  {
    FromServiceKeepsCanonical(FromService(o, fallbackId, now), laterId, later);
  }

  /** The stored form of a list: one record per notification. */
  function Encode(list: seq<Notification>): seq<Loose> {
    seq(|list|, i requires 0 <= i < |list| => ToLoose(list[i]))
  }

  /** `arr.map((o, idx) => fromService(o, idx + 1))`: element `idx` falls back
      to id `idx + 1`. */
  function NormalizeAll(arr: seq<Loose>, now: Timestamp): (r: seq<Notification>)
    ensures |r| == |arr|
    ensures forall i :: 0 <= i < |r| ==> Canonical(r[i])
  {
    seq(|arr|, i requires 0 <= i < |arr| => FromService(arr[i], i + 1, now))
  }

  predicate AllCanonical(list: seq<Notification>) {
    forall i :: 0 <= i < |list| ==> Canonical(list[i])
  }

  /** Reading back what `save` wrote gives the same list of canonical
      notifications. */
  lemma {:induction false} NormalizeEncoded(list: seq<Notification>, now: Timestamp)
    requires AllCanonical(list)
    ensures NormalizeAll(Encode(list), now) == list
  {
    var r := NormalizeAll(Encode(list), now);
    forall i | 0 <= i < |list|
      ensures r[i] == list[i]
    {
      NormalizeEncodedAt(list, now, i);
    }
  }

  lemma NormalizeEncodedAt(list: seq<Notification>, now: Timestamp, i: int)
    requires 0 <= i < |list| && Canonical(list[i])
    ensures NormalizeAll(Encode(list), now)[i] == list[i]
  {
    var encoded := Encode(list);
    assert encoded[i] == ToLoose(list[i]);
    FromServiceKeepsCanonical(list[i], i + 1, now);
  }

  /** `n.title || n.message || '通知 #<id>'`: the first non-empty text. */
  function DisplayTitle(n: Notification): string {
    if n.title.Some? && n.title.value != "" then n.title.value
    else if n.message.Some? && n.message.value != "" then n.message.value
    else Numbered(n.id)
  }

  /** `n.confirmedCount ?? (n.confirmed ? 1 : 0)`. */
  function EffectiveCount(n: Notification): int {
    match n.confirmedCount
    case Some(c) => c
    case None => if n.confirmed == Some(true) then 1 else 0
  }

  /** The statistics derived from the list, one line per notification. */
  function StatsOf(list: seq<Notification>): (r: seq<Stat>)
    ensures |r| == |list|
    ensures forall i :: 0 <= i < |list| ==>
      r[i].id == list[i].id && r[i].title != "" && r[i].confirmed == EffectiveCount(list[i])
      && r[i].unconfirmed == []
  {
    seq(|list|, i requires 0 <= i < |list| => Stat(list[i].id, DisplayTitle(list[i]), EffectiveCount(list[i]), []))
  }

  /** `{ ...n, confirmed: true, confirmedCount: count + 1 }`: confirmed, with
      the effective count one higher, and every other field unchanged. */
  function Confirmed(n: Notification): (r: Notification)
    ensures r.confirmed == Some(true) && EffectiveCount(r) == EffectiveCount(n) + 1
    ensures r.(confirmed := n.confirmed, confirmedCount := n.confirmedCount) == n
  {
    n.(confirmed := Some(true), confirmedCount := Some(EffectiveCount(n) + 1))
  }

  /** A notification counts as unread unless `read` is true. */
  predicate IsUnread(n: Notification) { n.read != Some(true) }

  /** The `unreadCount` getter over a list. */
  function UnreadIn(list: seq<Notification>): (r: nat)
    ensures r == Count(list, IsUnread) && r <= |list|
    ensures r == 0 <==> forall i :: 0 <= i < |list| ==> !IsUnread(list[i])
  {
    var unread := Filter(list, IsUnread);
    FilterLength(list, IsUnread);
    if unread != [] then
      assert unread[0] in list;
      |unread|
    else
      |unread|
  }

  /** `list.map(n => ({ ...n, read: true }))`: nothing is left unread and no
      other field changes. */
  function AllRead(list: seq<Notification>): (r: seq<Notification>)
    ensures |r| == |list| && UnreadIn(r) == 0
    ensures forall i :: 0 <= i < |list| ==> r[i].(read := list[i].read) == list[i]
  {
    seq(|list|, i requires 0 <= i < |list| => list[i].(read := Some(true)))
  }

  /** The notification a message yields without the service: numbered
      locally, titled by the message, stamped now, unread and unconfirmed. */
  function LocalRecord(id: int, arg: string, now: Timestamp): Notification {
    Notification(id, Some(arg), Some(arg), Some(now), Some(false), None, None, Some(now), Some(false), Some(0))
  }

  /** What `add(arg)` keeps of the record `{ id, message: arg, confirmed: false }`
      the service returns: `fromService` of it, with the `||=` fix-ups. It
      is the record the local fallback would build, under the service's id. */
  function Posted(arg: string, id: int, fallbackId: int, now: Timestamp): (n: Notification)
    ensures n == LocalRecord(id, arg, now)
  {
    var n := FromService(map["id" := Num(id), "message" := Str(arg), "confirmed" := Bool(false)], fallbackId, now);
    var createdAt := if n.createdAt.Some? && n.createdAt.value != "" then n.createdAt else Some(now);
    n.(createdAt := createdAt,
       date := createdAt,
       title := if n.title.Some? && n.title.value != "" then n.title else Some(arg),
       message := if n.message.Some? && n.message.value != "" then n.message else Some(arg),
       confirmed := if n.confirmed == Some(true) then n.confirmed else Some(false),
       confirmedCount := if n.confirmedCount.Some? && n.confirmedCount.value != 0 then n.confirmedCount else Some(0),
       read := Some(false))
  }

  /** `{ ...arg, id, createdAt: now, read: false, confirmed: false, confirmedCount: 0 }`. */
  function Stamped(arg: Loose, id: int, now: Timestamp): Loose {
    arg + map["id" := Num(id), "createdAt" := Str(now), "read" := Bool(false),
              "confirmed" := Bool(false), "confirmedCount" := Num(0)]
  }

  /** The notification `add` builds from a record: the given id, created now,
      unread and unconfirmed whatever the record says, with title, message,
      publisher and type taken from the record by the `fromService` chains. */
  function FromRecord(arg: Loose, id: int, now: Timestamp): (n: Notification)
    ensures n.id == id && n.createdAt == n.date == Some(now)
    ensures n.read == Some(false) && n.confirmed == Some(false) && n.confirmedCount == Some(0)
    ensures n.title == Some(FirstString(arg, ["title", "name", "message"], Numbered(id)))
    ensures n.message == Some(FirstString(arg, ["message", "content"], ""))
    ensures n.publisher == (if IsStr(arg, "publisher") then Some(arg["publisher"].s) else None)
    ensures n.kind == (if IsStr(arg, "type") then Some(arg["type"].s) else None)
  {
    StampedFlags(arg, id, now);
    StampedTexts(arg, id, now);
    FromService(Stamped(arg, id, now), id, now)
  }

  /** The stamped properties win over the caller's. */
  lemma StampedFlags(arg: Loose, id: int, now: Timestamp)
    ensures var n := FromService(Stamped(arg, id, now), id, now);
      && n.id == id && n.createdAt == n.date == Some(now)
      && n.read == Some(false) && n.confirmed == Some(false) && n.confirmedCount == Some(0)
  {
    var o := Stamped(arg, id, now);
    assert o["id"] == Num(id) && o["createdAt"] == Str(now) && o["read"] == Bool(false);
    assert o["confirmed"] == Bool(false) && o["confirmedCount"] == Num(0);
  }

  /** The texts come from the caller's record by the `fromService` chains. */
  lemma StampedTexts(arg: Loose, id: int, now: Timestamp)
    ensures var n := FromService(Stamped(arg, id, now), id, now);
      && n.title == Some(FirstString(arg, ["title", "name", "message"], Numbered(id)))
      && n.message == Some(FirstString(arg, ["message", "content"], ""))
      && n.publisher == (if IsStr(arg, "publisher") then Some(arg["publisher"].s) else None)
      && n.kind == (if IsStr(arg, "type") then Some(arg["type"].s) else None)
  {
    var o := Stamped(arg, id, now);
    StampedFlags(arg, id, now);
    FromServiceChains(o, id, now);
    StampedKeeps(arg, id, now, ["title", "name", "message"]);
    StampedKeeps(arg, id, now, ["message", "content"]);
    StampedKeeps(arg, id, now, ["publisher", "type"]);
    FirstStringAgrees(o, arg, ["title", "name", "message"], Numbered(id));
    FirstStringAgrees(o, arg, ["message", "content"], "");
  }

  /** Stamping overrides only the stamped properties, so every other key
      reads the same in the stamped record as in the caller's. */
  lemma StampedKeeps(arg: Loose, id: int, now: Timestamp, keys: seq<string>)
    requires forall k :: k in keys ==> k !in {"id", "createdAt", "read", "confirmed", "confirmedCount"}
    ensures forall k :: k in keys ==>
      var o := Stamped(arg, id, now);
      IsStr(o, k) == IsStr(arg, k) && (IsStr(o, k) ==> o[k] == arg[k])
  {
  }

  /** Two records that agree on the string values of `keys` give the same
      `FirstString` over them. */
  lemma {:induction false} FirstStringAgrees(o: Loose, p: Loose, keys: seq<string>, default: string)
    requires forall k :: k in keys ==> IsStr(o, k) == IsStr(p, k) && (IsStr(o, k) ==> o[k] == p[k])
    ensures FirstString(o, keys, default) == FirstString(p, keys, default)
    decreases |keys|
  {
    if keys != [] {
      FirstStringAgrees(o, p, keys[1..], default);
    }
  }

  /** The two demonstration notifications `seedIfEmpty` installs. */
  function SeedList(now: Timestamp): seq<Notification> {
    [Notification(1, Some("服务器维护通知"), Some("今晚 23:00-24:00 维护窗口"), Some(now), Some(false),
                  None, None, None, Some(false), Some(0)),
     Notification(2, Some("安全提醒"), Some("请及时更新密码"), Some(now), Some(false),
                  None, None, None, Some(false), Some(0))]
  }

  const SeedStats: seq<Stat> :=
    [Stat(1, "服务器维护通知", 3, ["张三", "李四"]), Stat(2, "安全提醒", 5, [])]

  class NotificationStore {
    const slot: Slot<seq<Loose>>
    var list: seq<Notification>
    var nextId: int
    var error: Option<string>
    var stats: seq<Stat>

    constructor (slot: Slot<seq<Loose>>)
      ensures this.slot == slot
      ensures list == [] && nextId == 1 && error == None && stats == []
    {
      this.slot := slot;
      list := [];
      nextId := 1;
      error := None;
      stats := [];
    }

    /** `nextId` is above every id in the list. */
    predicate FreshIds()
      reads this
    {
      IdsBelow(list, nextId, NotificationId)
    }

    /** The `unreadCount` getter. */
    function UnreadCount(): nat
      reads this
    {
      UnreadIn(list)
    }

    /** One `save` of the current list: it took effect unless the slot
        rejects writes. */
    twostate predicate SavedOnce()
      reads this, slot
    {
      && slot.failure == old(slot.failure)
      && slot.writes == old(slot.writes) + 1
      && slot.content == if slot.failure.None? then Some(Holds(Encode(list))) else old(slot.content)
    }

    /** The end of `add` and `confirm`: `error` carries the write failure, if
        any, and is cleared otherwise. */
    twostate predicate ReportsWrite()
      reads this, slot
    {
      error == slot.failure
    }

    /** `load`. `fetched` is what `fetchNotifications` resolved to, or `None`
        when it failed. Fetched records are normalised (element `idx` falling
        back to id `idx + 1`) and saved; when the fetch or that save fails, the
        store falls back to its own slot: absent empties the store, a parse
        failure also records the error, and stored records are normalised
        like fetched ones. Either way `nextId` is one past the largest id and
        the statistics follow the list. */
    method Load(fetched: Option<seq<Loose>>, now: Timestamp)
      modifies this, slot
      ensures slot.failure == old(slot.failure)
      ensures slot.writes == old(slot.writes) + (if fetched.Some? then 1 else 0)
      ensures if fetched.Some? && old(slot.failure).None? then
          && list == NormalizeAll(fetched.value, now) && error == None
          && slot.content == Some(Holds(Encode(list)))
        else (
          && slot.content == old(slot.content)
          && match old(slot.content)
            case None => list == [] && error == None
            case Some(Malformed(reason)) => list == [] && error == Some(reason)
            case Some(Holds(arr)) => list == NormalizeAll(arr, now) && error == None)
      ensures nextId == NextIdAfter(list, NotificationId) && stats == StatsOf(list)
      ensures FreshIds() && AllCanonical(list)
    {
      error := None;
      var fallBack := true;
      if fetched.Some? {
        list := NormalizeAll(fetched.value, now);
        nextId := MaxIdFrom(0, list, NotificationId) + 1;
        stats := StatsOf(list);
        var w := slot.Set(Encode(list));
        fallBack := w.Fail?;
      }
      if fallBack {
        var raw := slot.content;
        match raw {
          case None =>
            list := [];
            nextId := 1;
            stats := [];
          case Some(Malformed(reason)) =>
            error := Some(reason);
            list := [];
            nextId := 1;
            stats := [];
          case Some(Holds(arr)) =>
            list := NormalizeAll(arr, now);
            nextId := MaxIdFrom(0, list, NotificationId) + 1;
            stats := StatsOf(list);
        }
      }
    }

    /** `save`: writes the list; a failing write throws. */
    method Save() returns (r: Outcome<string>)
      modifies slot
      ensures SavedOnce()
      ensures r == if slot.failure.Some? then Fail(slot.failure.value) else Pass
    {
      r := slot.Set(Encode(list));
    }

    /** The tail of `add`: save, then either record the write failure or
        recompute the statistics. */
    method SaveAndCount()
      modifies this, slot
      ensures list == old(list) && nextId == old(nextId)
      ensures SavedOnce() && ReportsWrite()
      ensures stats == if slot.failure.None? then StatsOf(list) else old(stats)
    {
      var r := Save();
      if r.Fail? {
        error := Some(r.error);
      } else {
        error := None;
        stats := StatsOf(list);
      }
    }

    /** `add(message)`. `posted` is the id of the record `postNotification`
        returned, or `None` when it failed. Either way one unread, unconfirmed
        notification titled by the message is appended: under the service's
        id, with `nextId` raised past it if needed, or under `nextId++`. */
    method AddMessage(arg: string, posted: Option<int>, now: Timestamp)
      modifies this, slot
      ensures var id := posted.GetOr(old(nextId));
        && list == old(list) + [LocalRecord(id, arg, now)]
        && nextId == if posted.Some? && id + 1 > old(nextId) then id + 1
                     else if posted.Some? then old(nextId) else old(nextId) + 1
      ensures nextId > list[|list| - 1].id
      ensures old(FreshIds()) ==> FreshIds()
      ensures old(AllCanonical(list)) ==> AllCanonical(list)
      ensures SavedOnce() && ReportsWrite()
      ensures stats == if slot.failure.None? then StatsOf(list) else old(stats)
    {
      error := None;
      match posted {
        case Some(id) =>
          var n := Posted(arg, id, nextId, now);
          list := list + [n];
          nextId := if nextId > n.id + 1 then nextId else n.id + 1;
        case None =>
          var n := LocalRecord(nextId, arg, now);
          nextId := nextId + 1;
          list := list + [n];
      }
      SaveAndCount();
    }

    /** `add(record)`: the record is stamped with `nextId`, the time, and
        unread and unconfirmed flags, normalised by `fromService`, and
        appended; `nextId` moves past it. */
    method AddRecord(arg: Loose, now: Timestamp)
      modifies this, slot
      ensures list == old(list) + [FromRecord(arg, old(nextId), now)]
      ensures nextId == old(nextId) + 1 && nextId > list[|list| - 1].id
      ensures old(FreshIds()) ==> FreshIds()
      ensures old(AllCanonical(list)) ==> AllCanonical(list)
      ensures SavedOnce() && ReportsWrite()
      ensures stats == if slot.failure.None? then StatsOf(list) else old(stats)
    {
      error := None;
      var n := FromService(Stamped(arg, nextId, now), nextId, now);
      assert n == FromRecord(arg, nextId, now);
      nextId := nextId + 1;
      list := list + [n];
      SaveAndCount();
    }

    /** `confirm(id)`: whatever the service answers, the first notification
        carrying `id` is confirmed once more; a missing id leaves the list as
        it was. The list is saved in both cases and the statistics are not
        touched. */
    method Confirm(id: int)
      modifies this, slot
      ensures var i := FindIndex(old(list), id, NotificationId);
        list == if i == -1 then old(list) else old(list)[i := Confirmed(old(list)[i])]
      ensures nextId == old(nextId) && stats == old(stats)
      ensures old(AllCanonical(list)) ==> AllCanonical(list)
      ensures SavedOnce() && ReportsWrite()
    {
      error := None;
      var idx := FindIndex(list, id, NotificationId);
      if idx != -1 {
        list := list[idx := Confirmed(list[idx])];
      }
      var r := Save();
      if r.Fail? {
        error := Some(r.error);
      }
    }

    /** `markAllRead`: every notification is marked read and saved; a
        failing write escapes. */
    method MarkAllRead() returns (thrown: Option<string>)
      modifies this, slot
      ensures list == AllRead(old(list))
      ensures UnreadCount() == 0
      ensures nextId == old(nextId) && stats == old(stats) && error == old(error)
      ensures SavedOnce() && thrown == slot.failure
    {
      list := AllRead(list);
      var r := Save();
      thrown := if r.Fail? then Some(r.error) else None;
    }

    /** `seedIfEmpty`: an empty store receives the two demonstration
        notifications, `nextId` 3 and the demonstration statistics; a store
        with notifications is left alone. Nothing is saved. */
    method SeedIfEmpty(now: Timestamp)
      modifies this
      ensures if old(list) == [] then list == SeedList(now) && nextId == 3 && stats == SeedStats
        else list == old(list) && nextId == old(nextId) && stats == old(stats)
      ensures error == old(error)
    {
      if |list| == 0 {
        list := SeedList(now);
        nextId := 3;
        stats := SeedStats;
      }
    }
  }

  /** Confirming the same notification twice raises its effective count by
      two and leaves it confirmed. */
  lemma ConfirmTwice(n: Notification)
    ensures Confirmed(Confirmed(n)).confirmed == Some(true)
    ensures EffectiveCount(Confirmed(Confirmed(n))) == EffectiveCount(n) + 2
  {
  }

  /** The seeded store has fresh ids and two unread notifications. */
  lemma SeedState(now: Timestamp)
    ensures IdsBelow(SeedList(now), 3, NotificationId)
    ensures UnreadIn(SeedList(now)) == 2
  {
    var s := SeedList(now);
    assert s[1..] == [s[1]] && s[1..][1..] == [];
    assert Filter(s, IsUnread) == s;
  }

  /** Saving a loaded store and loading it again from storage alone restores
      the same list and `nextId`. */
  method ReloadRestores(slot: Slot<seq<Loose>>, fetched: Option<seq<Loose>>, now: Timestamp, later: Timestamp)
    returns (first: NotificationStore, second: NotificationStore)
    requires slot.failure.None?
    modifies slot
    ensures second.list == first.list && second.nextId == first.nextId && second.error == None
  {
    first := new NotificationStore(slot);
    first.Load(fetched, now);
    var _ := first.Save();
    NormalizeEncoded(first.list, later);
    second := new NotificationStore(slot);
    second.Load(None, later);
  }
}
