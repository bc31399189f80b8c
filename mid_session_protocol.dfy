/** Progress clocks as the mid-session protocol reads them: any dict with a
    current-value key and a maximum key, under one of several spellings. */
module MidSessionProtocol {
  import opened Wrappers
  import opened Text
  import opened Json
  import opened Bounds

  /** `_as_int`: ints (and bools, which are ints in Python) pass through, strings go
      through `int()`, anything else gives `default`. */
  function AsInt(value: Json, default: int): int {
    match value
    case JInt(i) => i
    case JBool(b) => if b then 1 else 0
    case JStr(s) => ParseInt(s).GetOr(default)
    case _ => default
  }

  /** `_as_int(str(n))` recovers `n`; `None`, lists and dicts give the default. */
  lemma AsIntCases(n: int, default: int, other: Json)
    requires other.JNull? || other.JList? || other.JObj?
    ensures AsInt(JInt(n), default) == n
    ensures AsInt(JStr(IntToString(n)), default) == n
    ensures AsInt(other, default) == default
  {
    ParseIntToString(n);
  }

  /** A string `int()` refuses gives the default. */
  lemma AsIntUnparsable(s: string, default: int)
    requires forall i :: 0 <= i < |s| ==> !IsDigit(s[i])
    ensures AsInt(JStr(s), default) == default
  {
    if ParseInt(s).Some? {
      ParseIntNeedsDigit(s);
    }
  }

  /** A clock in normalised form; `name` and `description` are copied as found. */
  datatype Clock = Clock(current: int, max: int, name: Json, description: Json)

  const CurrentKeys: seq<string> := ["current", "progress"]
  const MaxKeys: seq<string> := ["max", "maximum", "max_progress", "max_segments", "total_segments"]

  predicate HasAnyKey(ms: Object, keys: seq<string>) {
    exists j :: 0 <= j < |keys| && HasKey(ms, keys[j])
  }

  predicate HasCurrent(ms: Object) {
    HasKey(ms, "current") || HasKey(ms, "progress")
  }

  predicate HasMax(ms: Object) {
    HasKey(ms, "max") || HasKey(ms, "maximum") || HasKey(ms, "max_progress")
    || HasKey(ms, "max_segments") || HasKey(ms, "total_segments")
  }

  /** The current value, read through the `get` chain with default 0. */
  function CurrentValue(ms: Object): int {
    AsInt(GetOr(ms, "current", GetOr(ms, "progress", JInt(0))), 0)
  }

  /** The maximum, read through the `get` chain with default 0. */
  function MaxValue(ms: Object): int {
    AsInt(MaxJson(ms), 0)
  }

  /** The value the maximum is read from. */
  function MaxJson(ms: Object): Json {
    GetOr(ms, "max", GetOr(ms, "maximum", GetOr(ms, "max_progress",
      GetOr(ms, "max_segments", GetOr(ms, "total_segments", JInt(0))))))
  }

  /** `detect_clock_format`. */
  function DetectClockFormat(obj: Json): (r: Option<Clock>)
    ensures r.Some? ==> obj.JObj? && r.value.max > 0
  {
    if !obj.JObj? then None
    else if !(HasCurrent(obj.members) && HasMax(obj.members)) then None
    else if MaxValue(obj.members) <= 0 then None
    else
      var ms := obj.members;
      Some(Clock(CurrentValue(ms), MaxValue(ms), GetOr(ms, "name", JStr("Unknown Clock")), GetOr(ms, "description", JStr(""))))
  }

  /** The position in `keys` of the first key the dict has. */
  function FirstKey(ms: Object, keys: seq<string>): (j: nat)
    requires HasAnyKey(ms, keys)
    ensures j < |keys| && HasKey(ms, keys[j])
    ensures forall i :: 0 <= i < j ==> !HasKey(ms, keys[i])
  {
    if HasKey(ms, keys[0]) then 0
    else
      assert HasAnyKey(ms, keys[1..]) by {
        var j :| 0 <= j < |keys| && HasKey(ms, keys[j]);
        assert keys[1..][j - 1] == keys[j];
      }
      1 + FirstKey(ms, keys[1..])
  }

  /** The value under the first alias present, read with `_as_int`. */
  function AliasValue(ms: Object, keys: seq<string>): int
    requires HasAnyKey(ms, keys)
  {
    AsInt(Get(ms, keys[FirstKey(ms, keys)]).value, 0)
  }

  /** `d.get(k0, d.get(k1, ... d.get(kn, default)))`. */
  function GetChain(ms: Object, keys: seq<string>, default: Json): Json {
    if |keys| == 0 then default else GetOr(ms, keys[0], GetChain(ms, keys[1..], default))
  }

  lemma {:induction false} GetChainFirst(ms: Object, keys: seq<string>, default: Json)
    requires HasAnyKey(ms, keys)
    ensures GetChain(ms, keys, default) == Get(ms, keys[FirstKey(ms, keys)]).value
  {
    if !HasKey(ms, keys[0]) {
      GetChainFirst(ms, keys[1..], default);
    }
  }

  lemma AliasKeys(ms: Object)
    ensures HasAnyKey(ms, CurrentKeys) <==> HasCurrent(ms)
    ensures HasAnyKey(ms, MaxKeys) <==> HasMax(ms)
    ensures CurrentValue(ms) == AsInt(GetChain(ms, CurrentKeys, JInt(0)), 0)
    ensures MaxValue(ms) == AsInt(GetChain(ms, MaxKeys, JInt(0)), 0)
  {
    if HasCurrent(ms) {
      if HasKey(ms, "current") { assert HasKey(ms, CurrentKeys[0]); }
      else { assert HasKey(ms, CurrentKeys[1]); }
    }
    if HasMax(ms) {
      if HasKey(ms, "max") { assert HasKey(ms, MaxKeys[0]); }
      else if HasKey(ms, "maximum") { assert HasKey(ms, MaxKeys[1]); }
      else if HasKey(ms, "max_progress") { assert HasKey(ms, MaxKeys[2]); }
      else if HasKey(ms, "max_segments") { assert HasKey(ms, MaxKeys[3]); }
      else { assert HasKey(ms, MaxKeys[4]); }
    }
    var z := JInt(0);
    assert GetChain(ms, ["progress"], z) == GetOr(ms, "progress", z) by {
      assert ["progress"][1..] == [];
    }
    assert GetChain(ms, CurrentKeys, z) == GetOr(ms, "current", GetChain(ms, ["progress"], z)) by {
      assert CurrentKeys[1..] == ["progress"];
    }
    var m4 := ["total_segments"];
    var m3 := ["max_segments", "total_segments"];
    var m2 := ["max_progress", "max_segments", "total_segments"];
    var m1 := ["maximum", "max_progress", "max_segments", "total_segments"];
    assert GetChain(ms, m4, z) == GetOr(ms, "total_segments", z) by { assert m4[1..] == []; }
    assert GetChain(ms, m3, z) == GetOr(ms, "max_segments", GetChain(ms, m4, z)) by { assert m3[1..] == m4; }
    assert GetChain(ms, m2, z) == GetOr(ms, "max_progress", GetChain(ms, m3, z)) by { assert m2[1..] == m3; }
    assert GetChain(ms, m1, z) == GetOr(ms, "maximum", GetChain(ms, m2, z)) by { assert m1[1..] == m2; }
    assert GetChain(ms, MaxKeys, z) == GetOr(ms, "max", GetChain(ms, m1, z)) by { assert MaxKeys[1..] == m1; }
  }

  /** A value is a clock exactly when it is a dict with a current alias, a maximum
      alias, and a maximum that reads as a positive int. `current` is read before
      `progress`, and the maximum aliases in the order of `MaxKeys`. */
  lemma DetectClockFormatSpec(obj: Json)
    ensures DetectClockFormat(obj).Some? <==>
      obj.JObj? && HasAnyKey(obj.members, CurrentKeys) && HasAnyKey(obj.members, MaxKeys)
      && AliasValue(obj.members, MaxKeys) > 0
    ensures DetectClockFormat(obj).Some? ==>
      DetectClockFormat(obj).value.current == AliasValue(obj.members, CurrentKeys) &&
      DetectClockFormat(obj).value.max == AliasValue(obj.members, MaxKeys)
  {
    if obj.JObj? {
      var ms := obj.members;
      AliasKeys(ms);
      if HasAnyKey(ms, CurrentKeys) && HasAnyKey(ms, MaxKeys) {
        GetChainFirst(ms, CurrentKeys, JInt(0));
        GetChainFirst(ms, MaxKeys, JInt(0));
      }
    }
  }

  /** `is_clock_complete`. */
  predicate IsClockComplete(obj: Json) {
    match DetectClockFormat(obj)
    case None => false
    case Some(c) => c.current >= c.max
  }

  /** `current/max` as the progress text shows it. */
  function Counts(c: Clock): string {
    IntToString(c.current) + "/" + IntToString(c.max)
  }

  /** `get_clock_progress`. */
  function GetClockProgress(obj: Json): string {
    match DetectClockFormat(obj)
    case None => "Invalid Clock"
    case Some(c) => if IsClockComplete(obj) then "Complete (" + Counts(c) + ")" else Counts(c)
  }

  lemma IntToStringHead(n: int)
    ensures |IntToString(n)| > 0 && (IntToString(n)[0] == '-' || IsDigit(IntToString(n)[0]))
  {
    if n < 0 {
      assert IntToString(n)[1..] == NatToString(-n);
    }
  }

  /** "Invalid Clock" is reported exactly for values that are not clocks, and the
      "Complete (" prefix exactly for complete clocks. */
  lemma GetClockProgressSpec(obj: Json)
    ensures GetClockProgress(obj) == "Invalid Clock" <==> DetectClockFormat(obj).None?
    ensures StartsWith(GetClockProgress(obj), "Complete (") <==> IsClockComplete(obj)
  {
    if DetectClockFormat(obj).Some? {
      var c := DetectClockFormat(obj).value;
      var counts := Counts(c);
      IntToStringHead(c.current);
      assert counts[0] == IntToString(c.current)[0];
      if !IsClockComplete(obj) {
        assert GetClockProgress(obj) == counts;
        assert |counts| < 10 || counts[..10][0] != "Complete ("[0];
        assert counts[0] != "Invalid Clock"[0];
      } else {
        var msg := "Complete (" + counts + ")";
        assert msg[..10] == "Complete (";
        assert msg[0] != "Invalid Clock"[0];
      }
    } else {
      assert !StartsWith("Invalid Clock", "Complete (") by {
        assert "Invalid Clock"[..10][0] == 'I';
      }
    }
  }

  /** The dict `advance_clock` leaves behind: the stored value becomes
      `max(0, min(max, current + amount))`, written to `current` when that key is
      present and to `progress` otherwise. */
  function Advanced(ms: Object, amount: int): Result<Object> {
    match DetectClockFormat(JObj(ms))
    case None => Raised("ValueError")
    case Some(c) =>
      var v := JInt(AdvancedValue(c, amount));
      if HasKey(ms, "current") then Ok(Put(ms, "current", v))
      else if HasKey(ms, "progress") then Ok(Put(ms, "progress", v))
      else Ok(ms)
  }

  /** `advance_clock`: updates the caller's dict in place, or raises `ValueError`
      without touching it. */
  method AdvanceClock(clock: JsonDict, amount: int) returns (r: Result<()>)
    modifies clock
    ensures Advanced(old(clock.members), amount).Raised? ==>
      r == Raised("ValueError") && clock.members == old(clock.members)
    ensures Advanced(old(clock.members), amount).Ok? ==>
      r == Ok(()) && clock.members == Advanced(old(clock.members), amount).value
  {
    var normalized := DetectClockFormat(JObj(clock.members));
    if normalized.None? {
      return Raised("ValueError");
    }
    var newCurrent := Max(0, Min(normalized.value.max, normalized.value.current + amount));
    if HasKey(clock.members, "current") {
      clock.Assign("current", JInt(newCurrent));
    } else if HasKey(clock.members, "progress") {
      clock.Assign("progress", JInt(newCurrent));
    }
    return Ok(());
  }

  /** The current-value keys are none of the keys the maximum, the name and the
      description are read from. */
  lemma CurrentKeysDiffer(key: string)
    requires key == "current" || key == "progress"
    ensures key != "max" && key != "maximum" && key != "max_progress" && key != "max_segments" && key != "total_segments"
    ensures key != "name" && key != "description"
  {
    assert key[0] == 'c' || key[0] == 'p';
    assert "max"[0] == 'm' && "maximum"[0] == 'm' && "max_progress"[0] == 'm' && "max_segments"[0] == 'm';
    assert "total_segments"[0] == 't' && "name"[0] == 'n' && "description"[0] == 'd';
  }

  /** Writing the current-value key leaves the maximum, the name and the description
      as they were. */
  lemma PutCurrentKeepsMax(ms: Object, key: string, v: int)
    requires key == "current" || key == "progress"
    ensures HasMax(Put(ms, key, JInt(v))) == HasMax(ms)
    ensures MaxValue(Put(ms, key, JInt(v))) == MaxValue(ms)
    ensures GetOr(Put(ms, key, JInt(v)), "name", JStr("Unknown Clock")) == GetOr(ms, "name", JStr("Unknown Clock"))
    ensures GetOr(Put(ms, key, JInt(v)), "description", JStr("")) == GetOr(ms, "description", JStr(""))
  {
    CurrentKeysDiffer(key);
    PutOther(ms, key, "max", JInt(v));
    PutOther(ms, key, "maximum", JInt(v));
    PutOther(ms, key, "max_progress", JInt(v));
    PutOther(ms, key, "max_segments", JInt(v));
    PutOther(ms, key, "total_segments", JInt(v));
    PutOther(ms, key, "name", JInt(v));
    PutOther(ms, key, "description", JInt(v));
  }

  /** The key written is the one the current value is read from. */
  lemma PutCurrentValue(ms: Object, key: string, v: int)
    requires key == "current" || (key == "progress" && !HasKey(ms, "current"))
    ensures HasCurrent(Put(ms, key, JInt(v)))
    ensures CurrentValue(Put(ms, key, JInt(v))) == v
  {
    var ms' := Put(ms, key, JInt(v));
    if key == "progress" {
      assert Get(ms', "current") == Get(ms, "current");
    }
  }

  /** The key `advance_clock` writes: `current` when present, else `progress`. */
  function StoredKey(ms: Object): string {
    if HasKey(ms, "current") then "current" else "progress"
  }

  /** Advancing fails exactly on a non-clock, and otherwise writes the clamped sum
      under the stored key and changes no other key. */
  lemma AdvancedWrites(ms: Object, amount: int)
    ensures Advanced(ms, amount).Raised? <==> DetectClockFormat(JObj(ms)).None?
    ensures Advanced(ms, amount).Ok? ==>
      Advanced(ms, amount).value == Put(ms, StoredKey(ms), JInt(AdvancedValue(DetectClockFormat(JObj(ms)).value, amount)))
  {
  }

  /** The value `advance_clock` stores: `max(0, min(max, current + amount))`. */
  function AdvancedValue(c: Clock, amount: int): int {
    Clamp(c.current + amount, 0, c.max)
  }

  /** After advancing, the dict is still a clock with the same maximum, name and
      description, and its current value is the clamped sum, so `0 <= current <= max`. */
  lemma AdvancedStaysClock(ms: Object, amount: int)
    requires DetectClockFormat(JObj(ms)).Some?
    ensures DetectClockFormat(JObj(Put(ms, StoredKey(ms), JInt(AdvancedValue(DetectClockFormat(JObj(ms)).value, amount)))))
      == Some(DetectClockFormat(JObj(ms)).value.(current := AdvancedValue(DetectClockFormat(JObj(ms)).value, amount)))
    ensures 0 <= AdvancedValue(DetectClockFormat(JObj(ms)).value, amount) <= DetectClockFormat(JObj(ms)).value.max
  {
    var c := DetectClockFormat(JObj(ms)).value;
    var v := AdvancedValue(c, amount);
    var ms' := Put(ms, StoredKey(ms), JInt(v));
    PutCurrentKeepsMax(ms, StoredKey(ms), v);
    PutCurrentValue(ms, StoredKey(ms), v);
    assert HasCurrent(ms') && HasMax(ms');
    assert MaxValue(ms') == c.max;
    assert CurrentValue(ms') == v;
    assert DetectClockFormat(JObj(ms')) == Some(Clock(v, c.max, c.name, c.description));
  }

  /** Once complete, a clock stays complete under any non-negative advance, and an
      advance by at least the remaining distance completes it. */
  lemma AdvanceCompletes(ms: Object, amount: int)
    requires DetectClockFormat(JObj(ms)).Some?
    requires var c := DetectClockFormat(JObj(ms)).value;
      amount >= c.max - c.current && (amount >= 0 || c.current + amount >= c.max)
    ensures IsClockComplete(JObj(Advanced(ms, amount).value))
  {
    AdvancedWrites(ms, amount);
    AdvancedStaysClock(ms, amount);
  }

  /** The clock the demonstration in `main` advances, at a given current value. */
  function DemoClock(current: int): Object {
    [Member("name", JStr("Advancement Test")), Member("current", JInt(current)), Member("max", JInt(5))]
  }

  lemma DemoClockShape(n: int, m: int)
    ensures DetectClockFormat(JObj(DemoClock(n))) == Some(Clock(n, 5, JStr("Advancement Test"), JStr("")))
    ensures Put(DemoClock(n), "current", JInt(m)) == DemoClock(m)
  {
    var ms := DemoClock(n);
    var tail := [Member("max", JInt(5))];
    assert ms[1..][1..] == tail && tail[1..] == [];
    assert Get(tail, "max") == Some(JInt(5));
    assert Get(ms, "current") == Some(JInt(n));
    assert Get(ms, "max") == Some(JInt(5));
    assert Get(ms, "description") == None;
  }

  lemma ProgressOf(obj: Json, c: Clock)
    requires DetectClockFormat(obj) == Some(c)
    ensures GetClockProgress(obj) == if c.current >= c.max then "Complete (" + Counts(c) + ")" else Counts(c)
  {
  }

  lemma DemoComplete()
    ensures GetClockProgress(JObj(DemoClock(5))) == "Complete (5/5)"
  {
    var c := Clock(5, 5, JStr("Advancement Test"), JStr(""));
    var counts := Counts(c);
    assert counts == "5/5" by {
      assert IntToString(5) == "5";
    }
    assert GetClockProgress(JObj(DemoClock(5))) == "Complete (" + counts + ")" by {
      DemoClockShape(5, 5);
      ProgressOf(JObj(DemoClock(5)), c);
    }
  }

  /** The demonstration in `main`: a 2/5 clock advanced by 1 reads "3/5", then by 2
      reads "Complete (5/5)". */
  lemma WorkedExample()
    ensures GetClockProgress(JObj(DemoClock(2))) == "2/5"
    ensures Advanced(DemoClock(2), 1) == Ok(DemoClock(3))
    ensures GetClockProgress(JObj(DemoClock(3))) == "3/5"
    ensures Advanced(DemoClock(3), 2) == Ok(DemoClock(5))
    ensures GetClockProgress(JObj(DemoClock(5))) == "Complete (5/5)"
  {
    var c := Clock(2, 5, JStr("Advancement Test"), JStr(""));
    assert Counts(c) == "2/5" && Counts(c.(current := 3)) == "3/5" && Counts(c.(current := 5)) == "5/5" by {
      assert IntToString(2) == "2" && IntToString(3) == "3" && IntToString(5) == "5";
    }
    DemoClockShape(2, 3);
    DemoClockShape(3, 5);
    DemoClockShape(5, 5);
    assert GetClockProgress(JObj(DemoClock(2))) == "2/5" by {
      ProgressOf(JObj(DemoClock(2)), c);
    }
    assert GetClockProgress(JObj(DemoClock(3))) == "3/5" by {
      ProgressOf(JObj(DemoClock(3)), c.(current := 3));
    }
    DemoComplete();
    assert Advanced(DemoClock(2), 1) == Ok(DemoClock(3)) by {
      AdvancedWrites(DemoClock(2), 1);
    }
    assert Advanced(DemoClock(3), 2) == Ok(DemoClock(5)) by {
      AdvancedWrites(DemoClock(3), 2);
    }
  }

  // ---------------------------------------------------------------------------
  // find_all_clocks

  /** The path of a dict member: `path/key`, or just `key` at the root. */
  function ChildPath(path: string, key: string): string {
    if path == "" then key else path + "/" + key
  }

  /** The path of a list item: `path[i]`. */
  function ItemPath(path: string, i: nat): string {
    path + "[" + IntToString(i) + "]"
  }

  /** `find_all_clocks`: every clock in the tree by path. When two clocks end up
      under the same path, the one visited later wins, as with `dict.update`. */
  function FindAllClocks(data: Json, path: string): map<string, Json>
    decreases data, 1
  {
    match data
    case JObj(ms) =>
      (if DetectClockFormat(data).Some? then map[path := data] else map[]) + ClocksInMembers(ms, path, 0)
    case JList(items) => ClocksInItems(items, path, 0)
    case _ => map[]
  }

  function ClocksInMembers(ms: seq<Member>, path: string, i: nat): map<string, Json>
    requires i <= |ms|
    decreases JObj(ms), 0, |ms| - i
  {
    if i == |ms| then map[]
    else FindAllClocks(ms[i].value, ChildPath(path, ms[i].key)) + ClocksInMembers(ms, path, i + 1)
  }

  function ClocksInItems(items: seq<Json>, path: string, i: nat): map<string, Json>
    requires i <= |items|
    decreases JList(items), 0, |items| - i
  {
    if i == |items| then map[]
    else FindAllClocks(items[i], ItemPath(path, i)) + ClocksInItems(items, path, i + 1)
  }

  /** One step down the tree: the i-th member of a dict or the i-th item of a list. */
  datatype Step = Field(index: nat) | Item(index: nat)

  /** The sub-value reached by `steps`, with the path `find_all_clocks` gives it. */
  function Descend(data: Json, path: string, steps: seq<Step>): Option<(string, Json)>
    decreases |steps|
  {
    if |steps| == 0 then Some((path, data))
    else
      match (data, steps[0])
      case (JObj(ms), Field(i)) =>
        if i < |ms| then Descend(ms[i].value, ChildPath(path, ms[i].key), steps[1..]) else None
      case (JList(items), Item(i)) =>
        if i < |items| then Descend(items[i], ItemPath(path, i), steps[1..]) else None
      case _ => None
  }

  /** Every clock anywhere in the tree, the root included, has its path in the result. */
  lemma {:induction false} FindAllClocksComplete(data: Json, path: string, steps: seq<Step>)
    requires Descend(data, path, steps).Some?
    requires DetectClockFormat(Descend(data, path, steps).value.1).Some?
    ensures Descend(data, path, steps).value.0 in FindAllClocks(data, path)
    decreases |steps|
  {
    var p := Descend(data, path, steps).value.0;
    if |steps| > 0 {
      match (data, steps[0])
      case (JObj(ms), Field(i)) =>
        FindAllClocksComplete(ms[i].value, ChildPath(path, ms[i].key), steps[1..]);
        MembersInclude(ms, path, 0, i, p);
      case (JList(items), Item(i)) =>
        FindAllClocksComplete(items[i], ItemPath(path, i), steps[1..]);
        ItemsInclude(items, path, 0, i, p);
    }
  }

  lemma {:induction false} MembersInclude(ms: seq<Member>, path: string, j: nat, i: nat, p: string)
    requires j <= i < |ms|
    requires p in FindAllClocks(ms[i].value, ChildPath(path, ms[i].key))
    ensures p in ClocksInMembers(ms, path, j)
    decreases i - j
  {
    assert ClocksInMembers(ms, path, j) == FindAllClocks(ms[j].value, ChildPath(path, ms[j].key)) + ClocksInMembers(ms, path, j + 1);
    if j < i {
      MembersInclude(ms, path, j + 1, i, p);
    }
  }

  lemma {:induction false} ItemsInclude(items: seq<Json>, path: string, j: nat, i: nat, p: string)
    requires j <= i < |items|
    requires p in FindAllClocks(items[i], ItemPath(path, i))
    ensures p in ClocksInItems(items, path, j)
    decreases i - j
  {
    if j < i {
      ItemsInclude(items, path, j + 1, i, p);
    }
  }

  /** Every entry of the result is a clock, and is the sub-value of the tree found
      at that path. */
  lemma {:induction false} FindAllClocksSound(data: Json, path: string, p: string) returns (steps: seq<Step>)
    requires p in FindAllClocks(data, path)
    ensures Descend(data, path, steps) == Some((p, FindAllClocks(data, path)[p]))
    ensures DetectClockFormat(FindAllClocks(data, path)[p]).Some?
    decreases data, 1
  {
    match data
    case JObj(ms) =>
      if p in ClocksInMembers(ms, path, 0) {
        steps := MembersSound(ms, path, 0, p);
      } else {
        steps := [];
      }
    case JList(items) =>
      steps := ItemsSound(items, path, 0, p);
  }

  lemma {:induction false} MembersSound(ms: seq<Member>, path: string, i: nat, p: string) returns (steps: seq<Step>)
    requires i <= |ms| && p in ClocksInMembers(ms, path, i)
    ensures Descend(JObj(ms), path, steps) == Some((p, ClocksInMembers(ms, path, i)[p]))
    ensures DetectClockFormat(ClocksInMembers(ms, path, i)[p]).Some?
    decreases JObj(ms), 0, |ms| - i
  {
    var child := ChildPath(path, ms[i].key);
    if p in ClocksInMembers(ms, path, i + 1) {
      steps := MembersSound(ms, path, i + 1, p);
    } else {
      var rest := FindAllClocksSound(ms[i].value, child, p);
      steps := [Field(i)] + rest;
      assert steps[1..] == rest;
    }
  }

  lemma {:induction false} ItemsSound(items: seq<Json>, path: string, i: nat, p: string) returns (steps: seq<Step>)
    requires i <= |items| && p in ClocksInItems(items, path, i)
    ensures Descend(JList(items), path, steps) == Some((p, ClocksInItems(items, path, i)[p]))
    ensures DetectClockFormat(ClocksInItems(items, path, i)[p]).Some?
    decreases JList(items), 0, |items| - i
  {
    var child := ItemPath(path, i);
    if p in ClocksInItems(items, path, i + 1) {
      steps := ItemsSound(items, path, i + 1, p);
    } else {
      var rest := FindAllClocksSound(items[i], child, p);
      steps := [Item(i)] + rest;
      assert steps[1..] == rest;
    }
  }
}
