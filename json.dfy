/** Loaded JSON documents as the scripts see them after `json.load`: Python dicts
    keep their insertion order, so an object is a sequence of members. Floats are
    not modelled. */
module Json {
  import opened Wrappers
  import Text

  datatype Json =
    | JNull
    | JBool(b: bool)
    | JInt(i: int)
    | JStr(s: string)
    | JList(items: seq<Json>)
    | JObj(members: seq<Member>)

  datatype Member = Member(key: string, value: Json)

  type Object = seq<Member>

  /** Python truthiness: `None`, `False`, `0`, `""`, `[]` and `{}` are false. */
  predicate Truthy(j: Json) {
    match j
    case JNull => false
    case JBool(b) => b
    case JInt(i) => i != 0
    case JStr(s) => |s| > 0
    case JList(items) => |items| > 0
    case JObj(ms) => |ms| > 0
  }

  /** Python `key in d`. */
  predicate HasKey(ms: Object, key: string) {
    exists i :: 0 <= i < |ms| && ms[i].key == key
  }

  /** Python `d.get(key)`: the value stored under `key`, if any. */
  function Get(ms: Object, key: string): (r: Option<Json>)
    ensures r.Some? <==> HasKey(ms, key)
    decreases |ms|
  {
    if |ms| == 0 then None
    else if ms[0].key == key then Some(ms[0].value)
    else
      assert forall i :: 1 <= i < |ms| ==> ms[i] == ms[1..][i - 1];
      Get(ms[1..], key)
  }

  /** Python `d.get(key, default)`. */
  function GetOr(ms: Object, key: string, default: Json): Json {
    Get(ms, key).GetOr(default)
  }

  /** Python `bool(d.get(key))`: an unset flag reads as false. */
  predicate Flag(ms: Object, key: string) {
    Truthy(GetOr(ms, key, JNull))
  }

  /** Python `needle in container` for a text needle: membership in a list, a
      substring of a text, a key of a dict; any other container raises. */
  function ContainsText(container: Json, needle: string): (r: Result<bool>)
    ensures container.JList? ==> r == Ok(JStr(needle) in container.items)
    ensures container.JObj? ==> r == Ok(HasKey(container.members, needle))
    ensures container.JStr? ==> r == Ok(Text.Contains(container.s, needle))
    ensures r.Raised? <==> !(container.JList? || container.JObj? || container.JStr?)
  {
    match container
    case JList(items) => Ok(JStr(needle) in items)
    case JStr(s) => Ok(Text.Contains(s, needle))
    case JObj(ms) => Ok(HasKey(ms, needle))
    case _ => Raised("TypeError")
  }

  /** Python `x in container` for any `x`: a text needle as `ContainsText`; any
      other value is sought in a list, is never a key of a dict (whose keys are
      texts) unless it cannot be hashed, and cannot be sought in a text. */
  function In(x: Json, container: Json): (r: Result<bool>)
    ensures x.JStr? ==> r == ContainsText(container, x.s)
    ensures container.JList? ==> r == Ok(x in container.items)
    ensures r.Raised? <==>
      !(container.JList? || container.JObj? || container.JStr?) ||
      (container.JStr? && !x.JStr?) || (container.JObj? && (x.JList? || x.JObj?))
  {
    if x.JStr? then ContainsText(container, x.s)
    else match container
      case JList(items) => Ok(x in items)
      case JObj(_) => if x.JList? || x.JObj? then Raised("TypeError") else Ok(false)
      case _ => Raised("TypeError")
  }

  /** Python's number view of an int or a bool (`True` is 1, `False` is 0). */
  predicate IsNumber(j: Json) {
    j.JInt? || j.JBool?
  }

  function NumberOf(j: Json): int
    requires IsNumber(j)
  {
    if j.JInt? then j.i else if j.b then 1 else 0
  }

  /** Python `for x in v`: a list's items, a text's characters, a dict's keys;
      any other value cannot be walked. */
  function Iterate(v: Json): Result<seq<Json>> {
    match v
    case JList(items) => Ok(items)
    case JStr(s) => Ok(seq(|s|, i requires 0 <= i < |s| => JStr([s[i]])))
    case JObj(ms) => Ok(seq(|ms|, i requires 0 <= i < |ms| => JStr(ms[i].key)))
    case _ => Raised("TypeError")
  }

  /** A loop over a value walks what the membership test `in` finds, and fails
      on the same values: a list's items and a dict's keys are exactly the texts
      `in` finds, and a text yields the one-character texts it contains. */
  lemma IterateSpec(v: Json, needle: string)
    ensures Iterate(v).Raised? <==> ContainsText(v, needle).Raised?
    ensures Iterate(v).Ok? ==>
      (JStr(needle) in Iterate(v).value <==> ContainsText(v, needle) == Ok(true) && (v.JStr? ==> |needle| == 1))
  {
    match v
    case JStr(s) =>
      var xs := Iterate(v).value;
      if JStr(needle) in xs {
        var i :| 0 <= i < |xs| && xs[i] == JStr(needle);
        assert Text.OccursAt(s, needle, i);
      }
      if |needle| == 1 && Text.Contains(s, needle) {
        var i :| 0 <= i <= |s| - |needle| && Text.OccursAt(s, needle, i);
        assert needle == [s[i]];
        assert xs[i] == JStr(needle);
      }
    case JObj(ms) =>
      var xs := Iterate(v).value;
      if JStr(needle) in xs {
        var i :| 0 <= i < |xs| && xs[i] == JStr(needle);
        assert ms[i].key == needle;
      }
      if HasKey(ms, needle) {
        var i :| 0 <= i < |ms| && ms[i].key == needle;
        assert xs[i] == JStr(needle);
      }
    case _ =>
  }

  /** Python `d[key] = value`: an existing key keeps its position, a new key goes last. */
  function Put(ms: Object, key: string, value: Json): (r: Object)
    ensures Get(r, key) == Some(value)
    ensures forall k :: k != key ==> Get(r, k) == Get(ms, k)
    ensures |r| == if HasKey(ms, key) then |ms| else |ms| + 1
    decreases |ms|
  {
    if |ms| == 0 then [Member(key, value)]
    else if ms[0].key == key then [Member(key, value)] + ms[1..]
    else
      assert forall i :: 1 <= i < |ms| ==> ms[i] == ms[1..][i - 1];
      [ms[0]] + Put(ms[1..], key, value)
  }

  lemma HasKeyPut(ms: Object, key: string, value: Json, k: string)
    ensures HasKey(Put(ms, key, value), k) <==> HasKey(ms, k) || k == key
  {
    assert Get(Put(ms, key, value), k).Some? <==> HasKey(Put(ms, key, value), k);
  }

  /** A write leaves every other key as it was. Stated on symbolic keys, so a
      caller with literal keys does not have to compare the literals. */
  lemma PutOther(ms: Object, key: string, k: string, value: Json)
    requires k != key
    ensures Get(Put(ms, key, value), k) == Get(ms, k)
  {
  }

  /** Writing back the value a key already holds leaves the dict as it was. */
  lemma {:induction false} PutUnchanged(ms: Object, key: string, value: Json)
    requires Get(ms, key) == Some(value)
    ensures Put(ms, key, value) == ms
    decreases |ms|
  {
    if ms[0].key != key {
      PutUnchanged(ms[1..], key, value);
    }
  }

  /** A second write to the same key overrides the first. */
  lemma {:induction false} PutPut(ms: Object, key: string, v1: Json, v2: Json)
    ensures Put(Put(ms, key, v1), key, v2) == Put(ms, key, v2)
    decreases |ms|
  {
    if |ms| > 0 && ms[0].key != key {
      PutPut(ms[1..], key, v1, v2);
    }
  }

  /** A Python dict that the scripts mutate in place. */
  class JsonDict {
    var members: Object

    constructor(ms: Object)
      ensures members == ms
    {
      members := ms;
    }

    function Lookup(key: string): Option<Json>
      reads this
    {
      Get(members, key)
    }

    predicate IsSet(key: string)
      reads this
    {
      Flag(members, key)
    }

    method Assign(key: string, value: Json)
      modifies this
      ensures members == Put(old(members), key, value)
    {
      members := Put(members, key, value);
    }
  }
}
