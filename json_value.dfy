/** The values `json.loads` produces and the Python operators the guard applies
    to them: `k in v`, `v[k]` with a string key, `v[0]` and `for x in v`. Each
    operator returns a `Result`, so that a `TypeError`, `KeyError` or
    `IndexError` raised by Python is part of the model. */
module JsonValue {
  import opened Outcomes

  /** A parsed JSON value. An object keeps its members in insertion order, as a
      Python dict does. The type itself allows a key to repeat; lookups take the
      first member with the key, which is the only one when the keys are
      distinct, as they are in every dict `json.loads` returns. A number keeps
      its literal text: no code here compares numbers. */
  datatype Json =
    | Null
    | Bool(b: bool)
    | Num(text: string)
    | Str(s: string)
    | Arr(items: seq<Json>)
    | Obj(members: seq<(string, Json)>)

  predicate HasKey(members: seq<(string, Json)>, key: string)
  {
    |members| > 0 && (members[0].0 == key || HasKey(members[1..], key))
  }

  /** `HasKey` is the key test of a dict: some member carries the key. */
  lemma {:induction false} HasKeyIffSomeMember(members: seq<(string, Json)>, key: string)
    ensures HasKey(members, key) <==> exists i :: 0 <= i < |members| && members[i].0 == key
  {
    if members != [] {
      HasKeyIffSomeMember(members[1..], key);
      assert forall i :: 1 <= i < |members| ==> members[i] == members[1..][i - 1];
    }
  }

  /** The value of the first member named `key`. */
  function Lookup(members: seq<(string, Json)>, key: string): (v: Json)
    requires HasKey(members, key)
    ensures exists i :: 0 <= i < |members| && members[i] == (key, v)
                        && forall j :: 0 <= j < i ==> members[j].0 != key
  {
    if members[0].0 == key then members[0].1
    else
      var v := Lookup(members[1..], key);
      assert forall i :: 1 <= i < |members| ==> members[i] == members[1..][i - 1];
      v
  }

  /** Python's `k in s` on two strings: `k` occurs in `s` as a contiguous run. */
  predicate IsSubstring(k: string, s: string)
    decreases |s|
  {
    if |k| > |s| then false
    else if s[..|k|] == k then true
    else |s| > 0 && IsSubstring(k, s[1..])
  }

  /** Python's `key in v`: a key test on a dict, a membership test on a list,
      a substring test on a string, and a `TypeError` on anything else. */
  function PyIn(v: Json, key: string): (r: Result<bool>)
  {
    match v
    case Obj(members) => Ok(HasKey(members, key))
    case Arr(items) => Ok(Str(key) in items)
    case Str(s) => Ok(IsSubstring(key, s))
    case _ => Raise(TypeError)
  }

  /** Python's `v[key]` with a string key: only a dict can be subscripted so. */
  function PyGetItem(v: Json, key: string): (r: Result<Json>)
  {
    match v
    case Obj(members) => if HasKey(members, key) then Ok(Lookup(members, key)) else Raise(KeyError)
    case _ => Raise(TypeError)
  }

  /** Python's `v[0]`: the first element of a list, the first character of a
      string; an empty list or string raises `IndexError`, a dict `KeyError`
      (JSON object keys are strings, never the integer 0). */
  function PyFirst(v: Json): (r: Result<Json>)
  {
    match v
    case Arr(items) => if |items| > 0 then Ok(items[0]) else Raise(IndexError)
    case Str(s) => if |s| > 0 then Ok(Str([s[0]])) else Raise(IndexError)
    case Obj(_) => Raise(KeyError)
    case _ => Raise(TypeError)
  }

  /** What `for x in v` visits: a list's elements, a dict's keys, a string's
      characters as one-character strings; anything else raises `TypeError`. */
  function PyIter(v: Json): (r: Result<seq<Json>>)
  {
    match v
    case Arr(items) => Ok(items)
    case Obj(members) => Ok(seq(|members|, i requires 0 <= i < |members| => Str(members[i].0)))
    case Str(s) => Ok(seq(|s|, i requires 0 <= i < |s| => Str([s[i]])))
    case _ => Raise(TypeError)
  }
}
