/** The session context manager. Its fields stand for the `sessions` directory
    (session logs as loaded JSON objects, by file name) and the `pcs` directory
    (character sheets, by file name). */
module SessionManager {
  import opened Wrappers
  import opened Text
  import opened Json

  // ---------------------------------------------------------------------------
  // Session file names

  /** `f"{n:03d}"`: at least three digits, zero-padded after the sign. */
  function Pad3(n: int): string {
    if n >= 0 then Repeat('0', 3 - |NatToString(n)|) + NatToString(n)
    else "-" + Repeat('0', 2 - |NatToString(-n)|) + NatToString(-n)
  }

  /** `f"session_{n:03d}.json"`. */
  function SessionFileName(n: int): string {
    "session_" + Pad3(n) + ".json"
  }

  /** Leading zeros do not change the value a digit string spells. */
  lemma {:induction false} LeadingZeros(zs: string, d: string)
    requires forall i :: 0 <= i < |zs| ==> zs[i] == '0'
    ensures DigitsValue(zs + d) == DigitsValue(d)
    decreases |d|, |zs|
  {
    if |d| == 0 {
      assert zs + d == zs;
      if |zs| > 0 {
        LeadingZeros(zs[..|zs| - 1], []);
        assert zs[..|zs| - 1] + [] == zs[..|zs| - 1];
      }
    } else {
      var s := zs + d;
      assert s[..|s| - 1] == zs + d[..|d| - 1];
      assert s[|s| - 1] == d[|d| - 1];
      LeadingZeros(zs, d[..|d| - 1]);
    }
  }

  /** Zero-padding keeps a digit string acceptable to `int`. */
  lemma PaddedDigits(zs: string, d: string)
    requires forall i :: 0 <= i < |zs| ==> zs[i] == '0'
    requires DigitGroups(d) && forall i :: 0 <= i < |d| ==> IsDigit(d[i])
    ensures DigitGroups(zs + d)
  {
    var s := zs + d;
    assert s[|s| - 1] == d[|d| - 1];
    forall i | 0 <= i < |s|
      ensures IsDigit(s[i])
    {
      if i < |zs| {
        assert s[i] == zs[i];
      } else {
        assert s[i] == d[i - |zs|];
      }
    }
  }

  /** `int` reads a plain digit string as the number it spells. */
  lemma ParseDigits(body: string)
    requires DigitGroups(body)
    ensures ParseInt(body) == Some(DigitsValue(body) as int)
  {
    StripClean(body);
  }

  /** `int` reads a minus sign and a digit string as the negated number. */
  lemma ParseNegativeDigits(body: string)
    requires DigitGroups(body)
    ensures ParseInt("-" + body) == Some(-(DigitsValue(body) as int))
  {
    var s := "-" + body;
    assert s[1..] == body;
    assert IsDigit(s[|s| - 1]) by {
      assert s[|s| - 1] == body[|body| - 1];
    }
    StripClean(s);
    ParseMinus(s);
  }

  /** A stripped minus sign followed by digit groups reads as a negative. */
  lemma ParseMinus(s: string)
    requires |s| > 1 && s[0] == '-' && Strip(s) == s && DigitGroups(s[1..])
    ensures ParseInt(s) == Some(-(DigitsValue(s[1..]) as int))
  {
  }

  /** The padded text of a number: its sign, zeros, then its digits. */
  lemma Pad3Parts(n: int) returns (zs: string, d: string)
    ensures Pad3(n) == (if n < 0 then "-" else "") + (zs + d)
    ensures forall i :: 0 <= i < |zs| ==> zs[i] == '0'
    ensures d == NatToString(if n < 0 then -n else n)
    ensures n >= 0 ==> |zs + d| == if |d| >= 3 then |d| else 3
  {
    d := NatToString(if n < 0 then -n else n);
    zs := Repeat('0', (if n >= 0 then 3 else 2) - |d|);
    if n < 0 {
      assert Pad3(n) == "-" + (zs + d);
    }
  }

  /** Three characters for the numbers 0 to 999, and `int` reads the number back
      from the padded text. */
  lemma Pad3Spec(n: int)
    ensures 0 <= n <= 999 ==> |Pad3(n)| == 3
    ensures ParseInt(Pad3(n)) == Some(n)
  {
    var zs, d := Pad3Parts(n);
    var body := zs + d;
    assert DigitGroups(body) && DigitsValue(body) == if n < 0 then -n else n by {
      NatToStringDigits(if n < 0 then -n else n);
      PaddedDigits(zs, d);
      LeadingZeros(zs, d);
    }
    if n >= 0 {
      if n <= 999 {
        NatToStringShort(n);
      }
      PaddedValue(body, n);
    } else {
      NegativePaddedValue(body, -n);
    }
  }

  lemma PaddedValue(body: string, n: nat)
    requires DigitGroups(body)
    requires DigitsValue(body) == n
    ensures ParseInt("" + body) == Some(n)
  {
    ParseDigits(body);
    assert "" + body == body;
  }

  lemma NegativePaddedValue(body: string, n: nat)
    requires DigitGroups(body)
    requires DigitsValue(body) == n
    ensures ParseInt("-" + body) == Some(-(n as int))
  {
    ParseNegativeDigits(body);
  }

  /** Numbers below 1000 have at most three digits. */
  lemma NatToStringShort(n: nat)
    requires n <= 999
    ensures |NatToString(n)| <= 3
  {
    if n >= 10 {
      if n >= 100 {
        assert |NatToString(n / 10 / 10)| == 1;
      }
    }
  }

  /** The session number can be read back from the file name, so distinct
      sessions never share a file. */
  lemma FileNameRoundTrip(n: int)
    ensures var f := SessionFileName(n);
      |f| >= 13 && f[..8] == "session_" && f[|f| - 5..] == ".json" && ParseInt(f[8..|f| - 5]) == Some(n)
  {
    var f := SessionFileName(n);
    Pad3Spec(n);
    assert f[8..|f| - 5] == Pad3(n);
  }

  lemma FileNamesDistinct(m: int, n: int)
    requires m != n
    ensures SessionFileName(m) != SessionFileName(n)
  {
    FileNameRoundTrip(m);
    FileNameRoundTrip(n);
  }

  // ---------------------------------------------------------------------------
  // create_session

  /** The new session log, its keys in the order of the source; `date` is the
      day of creation. */
  function NewSession(n: int, date: string, title: string, gm: string, playersPresent: Json): Object {
    Header(n, date, title, gm, playersPresent) + Records() + Rewards()
  }

  /** The keys that identify the session. */
  function Header(n: int, date: string, title: string, gm: string, playersPresent: Json): Object {
    [Member("session_number", JInt(n)), Member("date", JStr(date)), Member("title", JStr(title)),
     Member("gm", JStr(gm)), Member("players_present", playersPresent)]
  }

  /** The keys that record what happened, all empty. */
  function Records(): Object {
    [Member("characters_present", JList([])), Member("session_summary", JStr("")),
     Member("key_events", JList([])), Member("npcs_encountered", JList([])),
     Member("locations_visited", JList([])), Member("quests_updated", JList([])),
     Member("loot_acquired", JList([]))]
  }

  /** The keys that record rewards and preparation, all empty. */
  function Rewards(): Object {
    [Member("experience_gained", JInt(0)), Member("fate_points_awarded", JInt(0)),
     Member("notes", JStr("")), Member("next_session_prep", JList([]))]
  }

  /** Looking a key up in two joined objects finds it in the first one first. */
  lemma {:induction false} GetAppend(a: Object, b: Object, k: string)
    ensures Get(a + b, k) == if HasKey(a, k) then Get(a, k) else Get(b, k)
    decreases |a|
  {
    if |a| > 0 {
      assert (a + b)[1..] == a[1..] + b;
      GetAppend(a[1..], b, k);
      if a[0].key != k {
        assert HasKey(a, k) <==> HasKey(a[1..], k) by {
          assert Get(a, k) == Get(a[1..], k);
        }
      }
    } else {
      assert a + b == b;
    }
  }

  lemma HeaderSpec(n: int, date: string, title: string, gm: string, playersPresent: Json)
    ensures var h := Header(n, date, title, gm, playersPresent);
      Get(h, "session_number") == Some(JInt(n)) &&
      !HasKey(h, "characters_present") && !HasKey(h, "experience_gained") && !HasKey(h, "fate_points_awarded")
  {
    var h := Header(n, date, title, gm, playersPresent);
    assert |h[0].key| == 14 && |h[1].key| == 4 && |h[2].key| == 5 && |h[3].key| == 2 && |h[4].key| == 15;
  }

  lemma RecordsSpec()
    ensures Get(Records(), "characters_present") == Some(JList([]))
    ensures !HasKey(Records(), "experience_gained") && !HasKey(Records(), "fate_points_awarded")
  {
    var r := Records();
    assert |r[0].key| == 18 && |r[1].key| == 15 && |r[2].key| == 10 && |r[3].key| == 16;
    assert |r[4].key| == 17 && r[4].key[0] == 'l' && |r[5].key| == 14 && |r[6].key| == 13;
  }

  lemma RewardsSpec()
    ensures Get(Rewards(), "experience_gained") == Some(JInt(0))
    ensures Get(Rewards(), "fate_points_awarded") == Some(JInt(0))
  {
    assert Rewards()[0].key != "fate_points_awarded";
  }

  /** A new session has nobody present and awards nothing yet. */
  lemma NewSessionSpec(n: int, date: string, title: string, gm: string, playersPresent: Json)
    ensures var s := NewSession(n, date, title, gm, playersPresent);
      Get(s, "session_number") == Some(JInt(n)) &&
      Get(s, "characters_present") == Some(JList([])) &&
      Get(s, "experience_gained") == Some(JInt(0)) &&
      Get(s, "fate_points_awarded") == Some(JInt(0)) &&
      CharacterIds(s) == Ok([])
  {
    var h := Header(n, date, title, gm, playersPresent);
    var r := Records();
    var w := Rewards();
    var s := h + r + w;
    assert s == h + (r + w);
    HeaderSpec(n, date, title, gm, playersPresent);
    RecordsSpec();
    RewardsSpec();
    GetAppend(h, r + w, "session_number");
    GetAppend(h, r + w, "characters_present");
    GetAppend(r, w, "characters_present");
    GetAppend(h, r + w, "experience_gained");
    GetAppend(h, r + w, "fate_points_awarded");
    GetAppend(r, w, "experience_gained");
    GetAppend(r, w, "fate_points_awarded");
    NobodyListed(s);
  }

  lemma NobodyListed(s: Object)
    requires Get(s, "characters_present") == Some(JList([]))
    ensures CharacterIds(s) == Ok([])
  {
  }

  // ---------------------------------------------------------------------------
  // update_session

  /** One update: only an existing key changes; a list updated with a list is
      extended, anything else is replaced. */
  function MergeOne(session: Object, key: string, value: Json): Object {
    match Get(session, key)
    case None => session
    case Some(current) =>
      if current.JList? && value.JList? then Put(session, key, JList(current.items + value.items))
      else Put(session, key, value)
  }

  /** All updates, in order. */
  function Merge(session: Object, updates: Object): Object
    decreases |updates|
  {
    if |updates| == 0 then session
    else Merge(MergeOne(session, updates[0].key, updates[0].value), updates[1..])
  }

  /** A single update extends a list with a list, old entries first, replaces any
      other value, and ignores a key the session does not have; no other key
      changes. */
  lemma MergeOneSpec(session: Object, key: string, value: Json)
    ensures var r := MergeOne(session, key, value);
      (forall k :: HasKey(r, k) <==> HasKey(session, k)) &&
      (forall k :: k != key ==> Get(r, k) == Get(session, k)) &&
      (!HasKey(session, key) ==> r == session) &&
      (HasKey(session, key) && Get(session, key).value.JList? && value.JList? ==>
        Get(r, key) == Some(JList(Get(session, key).value.items + value.items))) &&
      (HasKey(session, key) && !(Get(session, key).value.JList? && value.JList?) ==> Get(r, key) == Some(value))
  {
    var r := MergeOne(session, key, value);
    forall k
      ensures HasKey(r, k) <==> HasKey(session, k)
    {
      assert Get(r, k).Some? <==> HasKey(r, k);
      assert Get(session, k).Some? <==> HasKey(session, k);
    }
  }

  /** Merging never adds or removes a key, and keys no update names keep their
      values. */
  lemma {:induction false} MergeSpec(session: Object, updates: Object)
    ensures forall k :: HasKey(Merge(session, updates), k) <==> HasKey(session, k)
    ensures forall k :: (forall i :: 0 <= i < |updates| ==> updates[i].key != k) ==>
      Get(Merge(session, updates), k) == Get(session, k)
    decreases |updates|
  {
    if |updates| > 0 {
      var next := MergeOne(session, updates[0].key, updates[0].value);
      MergeOneSpec(session, updates[0].key, updates[0].value);
      MergeSpec(next, updates[1..]);
      forall k | forall i :: 0 <= i < |updates| ==> updates[i].key != k
        ensures Get(Merge(session, updates), k) == Get(session, k)
      {
        assert updates[0].key != k;
        assert forall i :: 0 <= i < |updates[1..]| ==> updates[1..][i] == updates[i + 1];
      }
    }
  }

  // ---------------------------------------------------------------------------
  // get_character_session_history

  /** `character_id in session.get('characters_present', [])`: a list holds the id,
      a text contains it, a dict has it as a key; anything else raises. */
  function Present(session: Object, characterId: string): Result<bool> {
    ContainsText(GetOr(session, "characters_present", JList([])), characterId)
  }

  /** Python `a < b` on text: the first differing character decides, and a
      proper prefix comes first. */
  predicate SortsBefore(a: string, b: string)
    decreases |a|
  {
    |b| > 0 && (|a| == 0 || a[0] < b[0] || (a[0] == b[0] && SortsBefore(a[1..], b[1..])))
  }

  /** Names in strictly increasing order. */
  predicate Sorted(names: seq<string>) {
    forall i, j :: 0 <= i < j < |names| ==> SortsBefore(names[i], names[j])
  }

  /** A name the pattern `session_*.json` matches. */
  predicate SessionFile(f: string) {
    |f| >= 13 && StartsWith(f, "session_") && f[|f| - 5..] == ".json"
  }

  /** `sorted(sessions_dir.glob("session_*.json"))`: every session log, each
      once, in increasing order of name. */
  predicate SessionListing(sessions: map<string, Object>, listing: seq<string>) {
    Sorted(listing) &&
    (forall f :: f in listing ==> f in sessions && SessionFile(f)) &&
    (forall f :: f in sessions && SessionFile(f) ==> f in listing)
  }

  /** The sessions, in listing order, whose characters include the id. */
  function History(sessions: map<string, Object>, listing: seq<string>, characterId: string): Result<seq<Object>>
    requires forall f :: f in listing ==> f in sessions
    decreases |listing|
  {
    if |listing| == 0 then Ok([])
    else
      match Present(sessions[listing[0]], characterId)
      case Raised(e) => Raised(e)
      case Ok(p) =>
        match History(sessions, listing[1..], characterId)
        case Raised(e) => Raised(e)
        case Ok(rest) => Ok(if p then [sessions[listing[0]]] + rest else rest)
  }

  /** The names of the listed logs the character was present in, in listing order. */
  function PresentFiles(sessions: map<string, Object>, listing: seq<string>, characterId: string): (names: seq<string>)
    requires forall f :: f in listing ==> f in sessions
    ensures forall f :: f in names ==> f in listing
    decreases |listing|
  {
    if |listing| == 0 then []
    else
      var first := if Present(sessions[listing[0]], characterId) == Ok(true) then [listing[0]] else [];
      first + PresentFiles(sessions, listing[1..], characterId)
  }

  /** The history fails exactly when some listed log cannot be searched for the id. */
  lemma {:induction false} HistoryRaises(sessions: map<string, Object>, listing: seq<string>, characterId: string)
    requires forall f :: f in listing ==> f in sessions
    ensures History(sessions, listing, characterId).Raised? <==>
      exists i :: 0 <= i < |listing| && Present(sessions[listing[i]], characterId).Raised?
    decreases |listing|
  {
    if |listing| > 0 {
      var tail := listing[1..];
      HistoryRaises(sessions, tail, characterId);
      if exists i :: 0 <= i < |tail| && Present(sessions[tail[i]], characterId).Raised? {
        var i :| 0 <= i < |tail| && Present(sessions[tail[i]], characterId).Raised?;
        assert tail[i] == listing[i + 1];
      }
      if exists i :: 0 <= i < |listing| && Present(sessions[listing[i]], characterId).Raised? {
        var i :| 0 <= i < |listing| && Present(sessions[listing[i]], characterId).Raised?;
        if i > 0 {
          assert listing[i] == tail[i - 1];
        }
      }
    }
  }

  /** A history that does not fail holds, in order, the log of each file
      `PresentFiles` names. */
  lemma {:induction false} HistoryFiles(sessions: map<string, Object>, listing: seq<string>, characterId: string)
    requires forall f :: f in listing ==> f in sessions
    requires History(sessions, listing, characterId).Ok?
    ensures var h := History(sessions, listing, characterId).value;
      var names := PresentFiles(sessions, listing, characterId);
      |h| == |names| && forall k :: 0 <= k < |names| ==> h[k] == sessions[names[k]]
    decreases |listing|
  {
    if |listing| > 0 {
      HistoryFiles(sessions, listing[1..], characterId);
    }
  }

  /** `PresentFiles` names exactly the listed files the character was present in. */
  lemma {:induction false} PresentFilesMembers(sessions: map<string, Object>, listing: seq<string>, characterId: string)
    requires forall f :: f in listing ==> f in sessions
    ensures forall f :: f in PresentFiles(sessions, listing, characterId) <==>
      f in listing && Present(sessions[f], characterId) == Ok(true)
    decreases |listing|
  {
    if |listing| > 0 {
      PresentFilesMembers(sessions, listing[1..], characterId);
      assert forall f :: f in listing <==> f == listing[0] || f in listing[1..];
    }
  }

  /** The rest of a sorted listing is sorted, and comes after its first name. */
  lemma SortedTail(listing: seq<string>)
    requires Sorted(listing) && |listing| > 0
    ensures Sorted(listing[1..])
    ensures forall f :: f in listing[1..] ==> SortsBefore(listing[0], f)
  {
    var tail := listing[1..];
    forall i, j | 0 <= i < j < |tail|
      ensures SortsBefore(tail[i], tail[j])
    {
      assert tail[i] == listing[i + 1] && tail[j] == listing[j + 1];
    }
    forall f | f in tail
      ensures SortsBefore(listing[0], f)
    {
      var k :| 0 <= k < |tail| && tail[k] == f;
      assert listing[k + 1] == f;
    }
  }

  /** A name before every name of a sorted sequence can go in front of it. */
  lemma SortedCons(x: string, rest: seq<string>)
    requires Sorted(rest)
    requires forall f :: f in rest ==> SortsBefore(x, f)
    ensures Sorted([x] + rest)
  {
    var names := [x] + rest;
    forall i, j | 0 <= i < j < |names|
      ensures SortsBefore(names[i], names[j])
    {
      assert names[j] == rest[j - 1] && rest[j - 1] in rest;
      if i > 0 {
        assert names[i] == rest[i - 1];
      }
    }
  }

  /** `PresentFiles` keeps a sorted listing sorted. */
  lemma {:induction false} PresentFilesSorted(sessions: map<string, Object>, listing: seq<string>, characterId: string)
    requires forall f :: f in listing ==> f in sessions
    requires Sorted(listing)
    ensures Sorted(PresentFiles(sessions, listing, characterId))
    decreases |listing|
  {
    if |listing| > 0 {
      var tail := listing[1..];
      SortedTail(listing);
      PresentFilesSorted(sessions, tail, characterId);
      var rest := PresentFiles(sessions, tail, characterId);
      if Present(sessions[listing[0]], characterId) == Ok(true) {
        SortedCons(listing[0], rest);
      } else {
        assert PresentFiles(sessions, listing, characterId) == [] + rest == rest;
      }
    }
  }

  /** The history fails exactly when some listed log cannot be searched for the
      id; otherwise it is the logs the character was present in, one per such
      file, in the order of the listing, so in name order for a sorted listing. */
  lemma HistorySpec(sessions: map<string, Object>, listing: seq<string>, characterId: string)
    requires forall f :: f in listing ==> f in sessions
    ensures History(sessions, listing, characterId).Raised? <==>
      exists i :: 0 <= i < |listing| && Present(sessions[listing[i]], characterId).Raised?
    ensures History(sessions, listing, characterId).Ok? ==>
      var h := History(sessions, listing, characterId).value;
      var names := PresentFiles(sessions, listing, characterId);
      |h| == |names| && (forall k :: 0 <= k < |names| ==> h[k] == sessions[names[k]])
    ensures forall f :: f in PresentFiles(sessions, listing, characterId) <==>
      f in listing && Present(sessions[f], characterId) == Ok(true)
    ensures Sorted(listing) ==> Sorted(PresentFiles(sessions, listing, characterId))
  {
    HistoryRaises(sessions, listing, characterId);
    if History(sessions, listing, characterId).Ok? {
      HistoryFiles(sessions, listing, characterId);
    }
    PresentFilesMembers(sessions, listing, characterId);
    if Sorted(listing) {
      PresentFilesSorted(sessions, listing, characterId);
    }
  }

  // ---------------------------------------------------------------------------
  // update_character_from_session

  datatype Stress = Stress(physical: seq<bool>, mental: seq<bool>)

  datatype Consequences = Consequences(mild: Option<string>, moderate: Option<string>, severe: Option<string>)

  /** A character sheet; the optional parts are keys a sheet may lack. */
  datatype Pc = Pc(
    id: Option<string>,
    name: string,
    experience: Option<int>,
    refresh: Option<int>,
    fatePoints: Option<int>,
    stress: Option<Stress>,
    consequences: Option<Consequences>)

  /** `pc.get('id') == char_id`: a sheet without an id matches a `null` entry. */
  predicate Matches(pc: Pc, charId: Json) {
    if pc.id.None? then charId == JNull else charId == JStr(pc.id.value)
  }

  function Falses(n: nat): (r: seq<bool>)
    ensures |r| == n && forall i :: 0 <= i < n ==> !r[i]
  {
    seq(n, i => false)
  }

  /** The reset of one sheet after a session that awarded `gained` experience
      (`None` when the log names none). */
  function Reset(pc: Pc, gained: Option<int>): Pc {
    pc.(
      experience := if pc.experience.Some? && gained.Some? then Some(pc.experience.value + gained.value) else pc.experience,
      fatePoints := if pc.refresh.Some? then pc.refresh else pc.fatePoints,
      stress := if pc.stress.Some? then Some(Stress(Falses(|pc.stress.value.physical|), Falses(|pc.stress.value.mental|))) else None,
      consequences := if pc.consequences.Some? && pc.consequences.value.mild.Some? && |pc.consequences.value.mild.value| > 0
        then Some(pc.consequences.value.(mild := None)) else pc.consequences)
  }

  /** Experience grows by the award, fate points return to the refresh, every
      stress box is cleared with the tracks keeping their lengths, and a mild
      consequence is cleared while moderate and severe ones stay. */
  lemma ResetSpec(pc: Pc, gained: Option<int>)
    ensures var r := Reset(pc, gained);
      r.id == pc.id && r.name == pc.name && r.refresh == pc.refresh &&
      (pc.experience.Some? && gained.Some? ==> r.experience == Some(pc.experience.value + gained.value)) &&
      (pc.refresh.Some? ==> r.fatePoints == pc.refresh) &&
      (pc.refresh.None? ==> r.fatePoints == pc.fatePoints) &&
      (pc.stress.Some? <==> r.stress.Some?) &&
      (pc.stress.Some? ==> (|r.stress.value.physical| == |pc.stress.value.physical| &&
        |r.stress.value.mental| == |pc.stress.value.mental| &&
        (forall i :: 0 <= i < |r.stress.value.physical| ==> !r.stress.value.physical[i]) &&
        (forall i :: 0 <= i < |r.stress.value.mental| ==> !r.stress.value.mental[i]))) &&
      (pc.consequences.Some? <==> r.consequences.Some?) &&
      (pc.consequences.Some? ==> (r.consequences.value.moderate == pc.consequences.value.moderate &&
        r.consequences.value.severe == pc.consequences.value.severe &&
        (r.consequences.value.mild.None? || r.consequences.value.mild.value == "")))
  {
  }

  /** Resetting again changes only the experience, which grows by the award again. */
  lemma ResetAgain(pc: Pc, gained: Option<int>)
    ensures var once := Reset(pc, gained);
      Reset(once, gained) == once.(experience := if once.experience.Some? && gained.Some? then Some(once.experience.value + gained.value) else once.experience)
  {
    var once := Reset(pc, gained);
    if once.consequences.Some? && once.consequences.value.mild.Some? {
      assert |once.consequences.value.mild.value| == 0;
    }
  }

  /** Every sheet matching one entry of `characters_present` is reset. */
  function ResetMatching(pcs: map<string, Pc>, charId: Json, gained: Option<int>): (r: map<string, Pc>)
    ensures r.Keys == pcs.Keys
  {
    map k | k in pcs :: if Matches(pcs[k], charId) then Reset(pcs[k], gained) else pcs[k]
  }

  /** The entries of `characters_present`, in order. */
  function ResetAll(pcs: map<string, Pc>, charIds: seq<Json>, gained: Option<int>): (r: map<string, Pc>)
    ensures r.Keys == pcs.Keys
    decreases |charIds|
  {
    if |charIds| == 0 then pcs else ResetAll(ResetMatching(pcs, charIds[0], gained), charIds[1..], gained)
  }

  /** How often a sheet's id is listed. */
  function Occurrences(charIds: seq<Json>, pc: Pc): nat
    decreases |charIds|
  {
    if |charIds| == 0 then 0 else (if Matches(pc, charIds[0]) then 1 else 0) + Occurrences(charIds[1..], pc)
  }

  function ResetTimes(pc: Pc, n: nat, gained: Option<int>): Pc
    decreases n
  {
    if n == 0 then pc else ResetTimes(Reset(pc, gained), n - 1, gained)
  }

  /** Each sheet is reset once per listing of its id, and a sheet whose id is not
      listed is left alone. */
  lemma {:induction false} ResetAllSpec(pcs: map<string, Pc>, charIds: seq<Json>, gained: Option<int>, k: string)
    requires k in pcs
    ensures ResetAll(pcs, charIds, gained)[k] == ResetTimes(pcs[k], Occurrences(charIds, pcs[k]), gained)
    decreases |charIds|
  {
    if |charIds| > 0 {
      var next := ResetMatching(pcs, charIds[0], gained);
      ResetAllSpec(next, charIds[1..], gained, k);
      if Matches(pcs[k], charIds[0]) {
        ResetKeepsMatch(pcs[k], gained, charIds[1..]);
      }
    }
  }

  /** A reset keeps the id, so it keeps which entries match. */
  lemma ResetKeepsMatch(pc: Pc, gained: Option<int>, charIds: seq<Json>)
    ensures Occurrences(charIds, Reset(pc, gained)) == Occurrences(charIds, pc)
  {
  }

  /** After a session a listed character holds the refresh as fate points, and
      `n` listings add the award `n` times. */
  lemma {:induction false} ResetTimesSpec(pc: Pc, n: nat, gained: Option<int>)
    requires n > 0
    ensures var r := ResetTimes(pc, n, gained);
      r.id == pc.id &&
      (pc.refresh.Some? ==> r.fatePoints == pc.refresh) &&
      (pc.experience.Some? && gained.Some? ==> r.experience == Some(pc.experience.value + n * gained.value)) &&
      (pc.stress.Some? ==> r.stress.Some? && |r.stress.value.physical| == |pc.stress.value.physical|)
    decreases n
  {
    ResetSpec(pc, gained);
    if n > 1 {
      ResetTimesSpec(Reset(pc, gained), n - 1, gained);
    }
  }

  /** `characters_present` as the loop walks it. */
  function CharacterIds(session: Object): Result<seq<Json>> {
    Iterate(GetOr(session, "characters_present", JList([])))
  }

  /** `experience_gained` when it is a number (a bool adds as 0 or 1); a value of
      another kind raises as soon as a listed character with experience is met. */
  function Award(session: Object, pcs: map<string, Pc>, charIds: seq<Json>): Result<Option<int>> {
    match Get(session, "experience_gained")
    case None => Ok(None)
    case Some(g) =>
      if IsNumber(g) then Ok(Some(NumberOf(g)))
      else if exists k, i :: k in pcs && 0 <= i < |charIds| && Matches(pcs[k], charIds[i]) && pcs[k].experience.Some?
      then Raised("TypeError") else Ok(None)
  }

  class SessionContextManager {
    /** The session logs, by file name. */
    var sessions: map<string, Object>
    /** The character sheets, by file name. */
    var pcs: map<string, Pc>

    constructor(sessions: map<string, Object>, pcs: map<string, Pc>)
      ensures this.sessions == sessions && this.pcs == pcs
    {
      this.sessions := sessions;
      this.pcs := pcs;
    }

    /** `create_session`: writes the new log, replacing any log with that number. */
    method CreateSession(n: int, date: string, title: string, gm: string, playersPresent: Json) returns (session: Object)
      modifies this
      ensures session == NewSession(n, date, title, gm, playersPresent)
      ensures sessions == old(sessions)[SessionFileName(n) := session]
      ensures pcs == old(pcs)
    {
      session := NewSession(n, date, title, gm, playersPresent);
      sessions := sessions[SessionFileName(n) := session];
    }

    /** `update_session`: `False` when there is no log with that number. */
    method UpdateSession(n: int, updates: Object) returns (r: bool)
      modifies this
      ensures r == (SessionFileName(n) in old(sessions))
      ensures r ==> sessions == old(sessions)[SessionFileName(n) := Merge(old(sessions)[SessionFileName(n)], updates)]
      ensures !r ==> sessions == old(sessions)
      ensures pcs == old(pcs)
    {
      var file := SessionFileName(n);
      if file !in sessions {
        return false;
      }
      var session := sessions[file];
      ghost var start := session;
      var i := 0;
      while i < |updates|
        invariant 0 <= i <= |updates|
        invariant Merge(start, updates) == Merge(session, updates[i..])
      {
        assert updates[i..][0] == updates[i] && updates[i..][1..] == updates[i + 1..];
        var key := updates[i].key;
        var value := updates[i].value;
        if HasKey(session, key) {
          var current := Get(session, key).value;
          if current.JList? && value.JList? {
            session := Put(session, key, JList(current.items + value.items));
          } else {
            session := Put(session, key, value);
          }
        }
        i := i + 1;
      }
      sessions := sessions[file := session];
      return true;
    }

    /** `update_character_from_session`: `Ok(false)` when the log is missing or
        empty. */
    method UpdateCharacterFromSession(n: int) returns (r: Result<bool>)
      modifies this
      ensures var file := SessionFileName(n);
        var present := file in old(sessions) && |old(sessions)[file]| > 0;
        var ids := if present then CharacterIds(old(sessions)[file]) else Ok([]);
        var award := if present && ids.Ok? then Award(old(sessions)[file], old(pcs), ids.value) else Ok(None);
        r == (if !present then Ok(false) else if ids.Raised? then Raised(ids.exception)
              else if award.Raised? then Raised(award.exception) else Ok(true)) &&
        pcs == (if r == Ok(true) then ResetAll(old(pcs), ids.value, award.value) else old(pcs))
      ensures sessions == old(sessions)
    {
      var file := SessionFileName(n);
      if file !in sessions || |sessions[file]| == 0 {
        return Ok(false);
      }
      var session := sessions[file];
      var ids := CharacterIds(session);
      if ids.Raised? {
        return Raised(ids.exception);
      }
      var charIds := ids.value;
      var award := Award(session, pcs, charIds);
      if award.Raised? {
        return Raised(award.exception);
      }
      var gained := award.value;
      ghost var start := pcs;
      var i := 0;
      while i < |charIds|
        invariant 0 <= i <= |charIds|
        invariant ResetAll(start, charIds, gained) == ResetAll(pcs, charIds[i..], gained)
        invariant sessions == old(sessions)
      {
        assert charIds[i..][0] == charIds[i] && charIds[i..][1..] == charIds[i + 1..];
        var charId := charIds[i];
        pcs := map k | k in pcs :: if Matches(pcs[k], charId) then Reset(pcs[k], gained) else pcs[k];
        i := i + 1;
      }
      return Ok(true);
    }

    /** `get_character_session_history`: the logs the character was present in,
        in the sorted order of their file names (`listing`). */
    method GetCharacterSessionHistory(characterId: string, listing: seq<string>) returns (r: Result<seq<Object>>)
      requires SessionListing(sessions, listing)
      ensures r == History(sessions, listing, characterId)
      ensures r.Ok? ==>
        var names := PresentFiles(sessions, listing, characterId);
        |r.value| == |names| && (forall k :: 0 <= k < |names| ==> r.value[k] == sessions[names[k]]) &&
        Sorted(names)
    {
      var found: seq<Object> := [];
      var i := 0;
      while i < |listing|
        invariant 0 <= i <= |listing|
        invariant History(sessions, listing, characterId).Ok? ==>
          History(sessions, listing[i..], characterId).Ok? &&
          History(sessions, listing, characterId).value == found + History(sessions, listing[i..], characterId).value
        invariant History(sessions, listing, characterId).Raised? ==>
          History(sessions, listing[i..], characterId) == History(sessions, listing, characterId)
      {
        assert listing[i..][0] == listing[i] && listing[i..][1..] == listing[i + 1..];
        var session := sessions[listing[i]];
        var present := Present(session, characterId);
        if present.Raised? {
          return Raised(present.exception);
        }
        if present.value {
          found := found + [session];
        }
        i := i + 1;
      }
      assert listing[i..] == [];
      assert History(sessions, listing[i..], characterId) == Ok([]);
      assert found + [] == found;
      HistorySpec(sessions, listing, characterId);
      return Ok(found);
    }
  }
}
