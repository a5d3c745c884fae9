/** The translation lookup `t(path)`: a dotted path walked key by key through
    the nested message catalogue of the current locale. */
module Locale {
  import opened Common

  /** A catalogue entry: a text, or a table of nested entries. */
  datatype Message = Text(text: string) | Table(entries: map<string, Message>)

  /** `path.split('.')`: the pieces between the dots, in order, and never
      an empty list (`''` splits into `['']`). */
  function Split(path: string): (r: seq<string>)
    ensures |r| >= 1
    ensures forall i :: 0 <= i < |r| ==> '.' !in r[i]
  {
    if path == [] then [""]
    else
      var rest := Split(path[1..]);
      if path[0] == '.' then [""] + rest
      else [[path[0]] + rest[0]] + rest[1..]
  }

  /** `parts.join('.')`. */
  function Join(parts: seq<string>): string
    requires |parts| >= 1
  {
    if |parts| == 1 then parts[0] else parts[0] + "." + Join(parts[1..])
  }

  /** Joining the pieces of a path with dots gives the path back. */
  lemma {:induction false} JoinSplit(path: string)
    ensures Join(Split(path)) == path
  {
    if path != [] {
      JoinSplit(path[1..]);
      var rest := Split(path[1..]);
      if path[0] == '.' {
        assert Split(path)[1..] == rest;
      } else if |rest| > 1 {
        assert Split(path)[1..] == rest[1..];
        assert Join(Split(path)) == [path[0]] + rest[0] + "." + Join(rest[1..]);
      }
      assert path == [path[0]] + path[1..];
    }
  }

  /** A dot-free prefix sticks to the first piece of what follows it. */
  lemma {:induction false} SplitPrefix(p: string, s: string)
    requires '.' !in p
    ensures Split(p + s) == [p + Split(s)[0]] + Split(s)[1..]
  {
    if p != [] {
      SplitPrefix(p[1..], s);
      var r := Split(s);
      var rest := Split(p[1..] + s);
      assert (p + s)[0] == p[0] != '.';
      assert (p + s)[1..] == p[1..] + s;
      assert rest[0] == p[1..] + r[0] && rest[1..] == r[1..];
      assert [p[0]] + rest[0] == p + r[0];
    } else {
      var r := Split(s);
      assert p + s == s && p + r[0] == r[0];
      assert r == [r[0]] + r[1..];
    }
  }

  /** Splitting a dot-joined list of dot-free keys gives the keys back. */
  lemma {:induction false} SplitJoin(parts: seq<string>)
    requires |parts| >= 1
    requires forall i :: 0 <= i < |parts| ==> '.' !in parts[i]
    ensures Split(Join(parts)) == parts
  {
    if |parts| == 1 {
      SplitPrefix(parts[0], "");
      assert parts[0] + "" == parts[0];
    } else {
      var tail := Join(parts[1..]);
      SplitJoin(parts[1..]);
      assert ("." + tail)[1..] == tail;
      assert Split("." + tail) == [""] + parts[1..];
      SplitPrefix(parts[0], "." + tail);
      assert parts[0] + "." + tail == parts[0] + ("." + tail);
      assert parts[0] + "" == parts[0];
      assert parts == [parts[0]] + parts[1..];
    }
  }

  /** `value?.[key]`: the entry of a table, and nothing for a missing key or
      for a text. */
  function Child(value: Message, key: string): Option<Message> {
    match value
    case Table(m) => if key in m then Some(m[key]) else None
    case Text(_) => None
  }

  /** The entry the keys lead to from `value`, or nothing as soon as one key
      is missing. */
  function Walk(value: Message, keys: seq<string>): Option<Message>
    decreases |keys|
  {
    if keys == [] then Some(value)
    else match Child(value, keys[0])
      case None => None
      case Some(c) => Walk(c, keys[1..])
  }

  /** What `t(path)` returns from the catalogue `root`: the entry the path
      leads to, or `''` when a key is missing. */
  function Translate(root: Message, path: string): Message {
    match Walk(root, Split(path))
    case None => Text("")
    case Some(v) => v
  }

  /** `t(path)`: splits the path and walks the keys in order, returning `''`
      at the first missing one. */
  method T(root: Message, path: string) returns (r: Message)
    ensures r == Translate(root, path)
  {
    var keys := Split(path);
    var value := root;
    for i := 0 to |keys|
      invariant Walk(root, keys) == Walk(value, keys[i..])
    {
      assert keys[i..][1..] == keys[i + 1..];
      var next := Child(value, keys[i]);
      if next.None? {
        return Text("");
      }
      value := next.value;
    }
    assert keys[|keys|..] == [];
    return value;
  }

  /** Walking `a + b` walks `a` and then `b` from where `a` ended; once `a`
      meets a missing key, no key of `b` is looked at. */
  lemma {:induction false} WalkAppend(value: Message, a: seq<string>, b: seq<string>)
    ensures Walk(value, a + b) == match Walk(value, a)
      case None => None
      case Some(w) => Walk(w, b)
    decreases |a|
  {
    if a == [] {
      assert a + b == b;
    } else {
      assert (a + b)[1..] == a[1..] + b;
      match Child(value, a[0])
      case None =>
      case Some(c) => WalkAppend(c, a[1..], b);
    }
  }

  /** A missing key anywhere along the path makes `t` return `''`, whatever
      keys follow it. */
  lemma MissingKeyGivesEmpty(root: Message, path: string, j: nat)
    requires j <= |Split(path)| && Walk(root, Split(path)[..j]) == None
    ensures Translate(root, path) == Text("")
  {
    var keys := Split(path);
    WalkAppend(root, keys[..j], keys[j..]);
    assert keys[..j] + keys[j..] == keys;
  }

  /** When every key is present, `t` returns the entry the last key reaches:
      the lookup of a dot-joined list of keys is the walk along them. */
  lemma PresentKeysGiveEntry(root: Message, keys: seq<string>, entry: Message)
    requires |keys| >= 1 && forall i :: 0 <= i < |keys| ==> '.' !in keys[i]
    requires Walk(root, keys) == Some(entry)
    ensures Translate(root, Join(keys)) == entry
  {
    SplitJoin(keys);
  }

  /** A path without dots is looked up directly in the top-level table. */
  lemma SingleSegment(root: Message, key: string)
    requires '.' !in key
    ensures Translate(root, key) == match Child(root, key)
      case None => Text("")
      case Some(c) => c
  {
    SplitJoin([key]);
    assert Join([key]) == key;
    assert Split(key) == [key];
    assert [key][1..] == [];
    match Child(root, key)
    case None =>
    case Some(c) => assert Walk(c, []) == Some(c);
  }

  /** `t('nav.home')` over `{ nav: { home: '首页' } }` is '首页'. */
  lemma NavHome()
    ensures Translate(Table(map["nav" := Table(map["home" := Text("首页")])]), "nav.home") == Text("首页")
  {
    var root := Table(map["nav" := Table(map["home" := Text("首页")])]);
    var keys: seq<string> := ["nav", "home"];
    assert Join(keys) == "nav.home";
    assert keys[1..] == ["home"] && keys[1..][1..] == [];
    assert Walk(root, keys) == Some(Text("首页"));
    PresentKeysGiveEntry(root, keys, Text("首页"));
  }

  /** `t('nav.none.deeper')` over the same catalogue is `''`: `none` is
      missing, so `deeper` is never looked up. */
  lemma NavMissing()
    ensures Translate(Table(map["nav" := Table(map["home" := Text("首页")])]), "nav.none.deeper") == Text("")
  {
    var root := Table(map["nav" := Table(map["home" := Text("首页")])]);
    var keys: seq<string> := ["nav", "none", "deeper"];
    assert Join(keys) == "nav.none.deeper";
    SplitJoin(keys);
    assert keys[..2] == ["nav", "none"] && keys[..2][1..] == ["none"];
    assert Walk(root, keys[..2]) == None;
    MissingKeyGivesEmpty(root, "nav.none.deeper", 2);
  }
}
