/** The mock notification service: a list of `{ id, message, confirmed }`
    records kept in the `idc-notifications` storage slot, read afresh by every
    call. The artificial delay of each call is not part of the model. */
module NotificationService {
  import opened Common
  import opened Seqs
  import opened Storage

  datatype Notification = Notification(id: int, message: string, confirmed: bool)

  function NotificationId(n: Notification): int { n.id }

  /** `read`: the stored list, and `[]` both for an absent slot and for one
      that fails to parse. */
  function Read(content: Option<Stored<seq<Notification>>>): (r: seq<Notification>)
    ensures content.Some? && content.value.Holds? ==> r == content.value.value
    ensures !(content.Some? && content.value.Holds?) ==> r == []
  {
    match content
    case Some(Holds(l)) => l
    case _ => []
  }

  /** `write`: stores the list, so that the next `read` returns it; a failing
      write throws and the slot keeps what it held. */
  method Write(slot: Slot<seq<Notification>>, list: seq<Notification>) returns (r: Outcome<string>)
    modifies slot
    ensures r.Pass? <==> old(slot.failure).None?
    ensures r.Pass? ==> Read(slot.content) == list
    ensures r.Fail? ==> r.error == old(slot.failure).value && slot.content == old(slot.content)
    ensures slot.failure == old(slot.failure) && slot.writes == old(slot.writes) + 1
  {
    r := slot.Set(list);
  }

  /** The record `confirmNotification` leaves at index `i`: the same record,
      confirmed. */
  function ConfirmAt(list: seq<Notification>, i: int): (r: seq<Notification>)
    requires 0 <= i < |list|
    ensures |r| == |list| && r[i].confirmed
    ensures r[i] == list[i].(confirmed := true)
    ensures forall k :: 0 <= k < |list| && k != i ==> r[k] == list[k]
  {
    list[i := list[i].(confirmed := true)]
  }

  /** Confirming keeps every id where it was, so a second `confirmNotification`
      of the same id finds the same index, and changes nothing more. */
  lemma ConfirmTwiceIsConfirmOnce(list: seq<Notification>, id: int)
    requires FindIndex(list, id, NotificationId) != -1
    ensures var i := FindIndex(list, id, NotificationId);
      && FindIndex(ConfirmAt(list, i), id, NotificationId) == i
      && ConfirmAt(ConfirmAt(list, i), i) == ConfirmAt(list, i)
  {
    var i := FindIndex(list, id, NotificationId);
    var after := ConfirmAt(list, i);
    assert forall k :: 0 <= k < |list| ==> after[k].id == list[k].id;
  }

  /** `postNotification(message)`: the new record takes one past the largest
      stored id (1 for an empty list), is appended and written, and is
      returned; when the write throws, so does the call. */
  method PostNotification(slot: Slot<seq<Notification>>, message: string)
    returns (r: Result<Notification, string>)
    modifies slot
    ensures var before := Read(old(slot.content));
      var n := Notification(NextIdAfter(before, NotificationId), message, false);
      if old(slot.failure).None? then r == Ok(n) && Read(slot.content) == before + [n]
      else r == Err(old(slot.failure).value) && slot.content == old(slot.content)
    ensures r.Ok? ==> IdsBelow(Read(old(slot.content)), r.value.id, NotificationId) && r.value.id >= 1
    ensures slot.failure == old(slot.failure) && slot.writes == old(slot.writes) + 1
  {
    var list := Read(slot.content);
    var nextId := MaxIdFrom(0, list, NotificationId) + 1;
    var notification := Notification(nextId, message, false);
    list := list + [notification];
    var w := Write(slot, list);
    if w.Fail? {
      return Err(w.error);
    }
    return Ok(notification);
  }

  /** `confirmNotification(id)`: throws 'Notification not found' without
      writing when no stored record carries `id`; otherwise confirms the first
      one, writes the list and returns the confirmed record. */
  method ConfirmNotification(slot: Slot<seq<Notification>>, id: int)
    returns (r: Result<Notification, string>)
    modifies slot
    ensures var before := Read(old(slot.content));
      var i := FindIndex(before, id, NotificationId);
      if i == -1 then r == Err("Notification not found") && unchanged(slot)
      else (&& slot.writes == old(slot.writes) + 1 && slot.failure == old(slot.failure)
        && if old(slot.failure).None?
           then r == Ok(before[i].(confirmed := true)) && Read(slot.content) == ConfirmAt(before, i)
           else r == Err(old(slot.failure).value) && slot.content == old(slot.content))
  {
    var list := Read(slot.content);
    var idx := FindIndex(list, id, NotificationId);
    if idx == -1 {
      return Err("Notification not found");
    }
    list := list[idx := list[idx].(confirmed := true)];
    var w := Write(slot, list);
    if w.Fail? {
      return Err(w.error);
    }
    return Ok(list[idx]);
  }

  /** Confirming the same id twice against a writable slot leaves the slot as
      the first confirmation left it. */
  method ConfirmTwice(slot: Slot<seq<Notification>>, id: int)
    returns (first: Result<Notification, string>, second: Result<Notification, string>)
    requires slot.failure.None?
    requires FindIndex(Read(slot.content), id, NotificationId) != -1
    modifies slot
    ensures first.Ok? && second == first
    ensures var before := Read(old(slot.content));
      Read(slot.content) == ConfirmAt(before, FindIndex(before, id, NotificationId))
  {
    ghost var before := Read(slot.content);
    ConfirmTwiceIsConfirmOnce(before, id);
    first := ConfirmNotification(slot, id);
    second := ConfirmNotification(slot, id);
  }
}
