/** The browser's key-value storage, one slot per key. The JSON text of a
    slot is abstracted away: a slot is either absent, holds text that does
    not parse into the expected shape, or holds an encoded value. */
module Storage {
  import opened Common

  /** What `JSON.parse(localStorage.getItem(key))` yields for a present slot:
      a parse or shape failure carrying the exception's message, or a value. */
  datatype Stored<T> = Malformed(reason: string) | Holds(value: T)

  /** One key of `localStorage`. `content == None` stands for `getItem`
      returning `null` or the empty string, which every reader treats alike.
      `failure == Some(msg)` means `setItem` throws an error with message `msg`
      (a full quota, a private-mode browser); `writes` counts `setItem` calls. */
  class Slot<T> {
    const key: string
    var content: Option<Stored<T>>
    var failure: Option<string>
    var writes: nat

    constructor (key: string, content: Option<Stored<T>>, failure: Option<string>)
      ensures this.key == key && this.content == content && this.failure == failure
      ensures writes == 0
    {
      this.key := key;
      this.content := content;
      this.failure := failure;
      writes := 0;
    }

    /** `localStorage.setItem(key, JSON.stringify(v))`: stores `v`, or throws
        and leaves the slot as it was. */
    method Set(v: T) returns (r: Outcome<string>)
      modifies this
      ensures r == (if old(failure).Some? then Fail(old(failure).value) else Pass)
      ensures content == if r.Pass? then Some(Holds(v)) else old(content)
      ensures failure == old(failure) && writes == old(writes) + 1
    {
      writes := writes + 1;
      if failure.Some? {
        r := Fail(failure.value);
      } else {
        content := Some(Holds(v));
        r := Pass;
      }
    }

    /** `localStorage.removeItem(key)`. */
    method Remove()
      modifies this
      ensures content == None
      ensures failure == old(failure) && writes == old(writes)
    {
      content := None;
    }
  }
}
