/** The data query manager. Its fields stand for the data directories it reads:
    the loaded JSON documents of each directory, in the order the directory is
    listed. Nothing is ever written. */
module QueryData {
  import opened Wrappers
  import opened Bounds
  import opened Text
  import opened Json
  import opened LocationUtils

  // ---------------------------------------------------------------------------
  // Record filters

  /** `record.get(key, '')` about to be lower-cased: the record must be a dict and
      the value text, or the call raises. */
  function TextField(rec: Json, key: string): Result<string> {
    if !rec.JObj? then Raised("AttributeError")
    else
      match Get(rec.members, key)
      case None => Ok("")
      case Some(JStr(s)) => Ok(s)
      case Some(_) => Raised("AttributeError")
  }

  /** A partial filter: the lower-cased filter must occur in the lower-cased field.
      An absent or empty filter accepts without looking at the record. */
  function PartialFilter(filter: Option<string>, rec: Json, key: string): Result<bool> {
    if !Given(filter) then Ok(true)
    else
      match TextField(rec, key)
      case Raised(e) => Raised(e)
      case Ok(v) => Ok(Contains(Lower(v), Lower(filter.value)))
  }

  /** An exact filter: the field must equal the filter, ignoring case. */
  function ExactFilter(filter: Option<string>, rec: Json, key: string): Result<bool> {
    if !Given(filter) then Ok(true)
    else
      match TextField(rec, key)
      case Raised(e) => Raised(e)
      case Ok(v) => Ok(Lower(v) == Lower(filter.value))
  }

  /** `location_matches(search, sheet.get('location', ''))`: a missing or false
      location never matches; one that is neither false nor text raises. */
  function SheetLocationMatches(search: Option<string>, sheet: Object): Result<bool> {
    match Get(sheet, "location")
    case None => Ok(false)
    case Some(JStr(s)) => Ok(LocationMatches(search, Some(s)))
    case Some(v) => if Truthy(v) && Given(search) then Raised("AttributeError") else Ok(false)
  }

  /** The location filter of the stat sheet query. */
  function LocationFilter(filter: Option<string>, rec: Json): Result<bool> {
    if !Given(filter) then Ok(true)
    else if !rec.JObj? then Raised("AttributeError")
    else SheetLocationMatches(filter, rec.members)
  }

  /** Every filter of a query is evaluated in turn, so the first one that raises
      ends the query; otherwise a record is kept when all of them accept. */
  function And(a: Result<bool>, b: Result<bool>): (r: Result<bool>)
    ensures r.Ok? <==> a.Ok? && b.Ok?
    ensures r.Ok? ==> (r.value <==> a.value && b.value)
  {
    if a.Raised? then a else if b.Raised? then b else Ok(a.value && b.value)
  }

  /** `stat_sheet.get('category') != 'Enemy'` skips the sheet. */
  function IsEnemy(rec: Json): Result<bool> {
    if !rec.JObj? then Raised("AttributeError")
    else Ok(Get(rec.members, "category") == Some(JStr("Enemy")))
  }

  datatype Tier = Primary | Contested | Rare

  /** The hold bucket an enemy sheet goes to, if any: the `primary`, `contested`
      and `rare` lists of `hold_context` are tried in that order, and only a sheet
      with an empty `hold_context` falls back to its location. */
  function HoldTier(sheet: Json, hold: string): Result<Option<Tier>> {
    match IsEnemy(sheet)
    case Raised(e) => Raised(e)
    case Ok(enemy) =>
      if !enemy then Ok(None)
      else
        var context := GetOr(sheet.members, "hold_context", JObj([]));
        if !context.JObj? then Raised("AttributeError")
        else
          match ContainsText(GetOr(context.members, "primary", JList([])), hold)
          case Raised(e) => Raised(e)
          case Ok(true) => Ok(Some(Primary))
          case Ok(false) =>
            match ContainsText(GetOr(context.members, "contested", JList([])), hold)
            case Raised(e) => Raised(e)
            case Ok(true) => Ok(Some(Contested))
            case Ok(false) =>
              match ContainsText(GetOr(context.members, "rare", JList([])), hold)
              case Raised(e) => Raised(e)
              case Ok(true) => Ok(Some(Rare))
              case Ok(false) =>
                match SheetLocationMatches(Some(hold), sheet.members)
                case Raised(e) => Raised(e)
                case Ok(m) => Ok(if m && |context.members| == 0 then Some(Primary) else None)
  }

  /** The test each query applies to one record. */
  datatype Query =
    | Npcs(name: Option<string>, location: Option<string>, faction: Option<string>)
    | Quests(status: Option<string>, questType: Option<string>, name: Option<string>)
    | StatSheets(name: Option<string>, entityType: Option<string>, category: Option<string>, location: Option<string>)
    | EnemiesInAct(act: string)
    | EnemiesInHold(hold: string, tier: Tier)
    | FactionQuest(questId: Option<string>, questAct: Option<string>)

  function Test(q: Query, rec: Json): Result<bool> {
    match q
    case Npcs(name, location, faction) =>
      And(And(PartialFilter(name, rec, "name"), ExactFilter(location, rec, "location")), ExactFilter(faction, rec, "faction"))
    case Quests(status, questType, name) =>
      And(And(ExactFilter(status, rec, "status"), ExactFilter(questType, rec, "type")), PartialFilter(name, rec, "name"))
    case StatSheets(name, entityType, category, location) =>
      And(And(And(PartialFilter(name, rec, "name"), ExactFilter(entityType, rec, "type")),
        ExactFilter(category, rec, "category")), LocationFilter(location, rec))
    case EnemiesInAct(act) =>
      (match IsEnemy(rec)
       case Raised(e) => Raised(e)
       case Ok(enemy) => if !enemy then Ok(false) else ContainsText(GetOr(rec.members, "act_context", JList([])), act))
    case EnemiesInHold(hold, tier) =>
      (match HoldTier(rec, hold)
       case Raised(e) => Raised(e)
       case Ok(t) => Ok(t == Some(tier)))
    case FactionQuest(questId, act) =>
      if !Given(questId) && !Given(act) then Ok(true)
      else if !rec.JObj? then Raised("AttributeError")
      else if Given(questId) && Get(rec.members, "id") != Some(JStr(questId.value)) then Ok(false)
      else if Given(act) then ContainsText(GetOr(rec.members, "act_context", JList([])), act.value)
      else Ok(true)
  }

  /** The records a query keeps, in listing order; the first record whose test
      raises ends the query. */
  function Select(q: Query, records: seq<Json>): Result<seq<Json>>
    decreases |records|
  {
    if |records| == 0 then Ok([])
    else
      match Test(q, records[0])
      case Raised(e) => Raised(e)
      case Ok(keep) =>
        match Select(q, records[1..])
        case Raised(e) => Raised(e)
        case Ok(rest) => Ok(if keep then [records[0]] + rest else rest)
  }

  /** A query raises exactly when one of its tests does; otherwise it keeps exactly
      the records its test accepts. */
  lemma {:induction false} SelectSpec(q: Query, records: seq<Json>)
    ensures Select(q, records).Raised? <==> exists i :: 0 <= i < |records| && Test(q, records[i]).Raised?
    ensures Select(q, records).Ok? ==>
      |Select(q, records).value| <= |records| &&
      (forall x :: x in Select(q, records).value ==> x in records && Test(q, x) == Ok(true)) &&
      (forall i :: 0 <= i < |records| && Test(q, records[i]) == Ok(true) ==> records[i] in Select(q, records).value)
    decreases |records|
  {
    if |records| > 0 {
      SelectSpec(q, records[1..]);
      forall i | 1 <= i < |records|
        ensures records[i] == records[1..][i - 1]
      {
      }
      if Test(q, records[0]).Ok? && Select(q, records[1..]).Raised? {
        var j :| 0 <= j < |records[1..]| && Test(q, records[1..][j]).Raised?;
        assert Test(q, records[j + 1]).Raised?;
      }
    }
  }

  /** The records `acc` followed by those of `records` the query keeps, in
      listing order. */
  function Gather(acc: seq<Json>, q: Query, records: seq<Json>): Result<seq<Json>>
    decreases |records|
  {
    if |records| == 0 then Ok(acc)
    else
      match Test(q, records[0])
      case Raised(e) => Raised(e)
      case Ok(keep) => Gather(if keep then acc + [records[0]] else acc, q, records[1..])
  }

  /** Gathering after `acc` keeps `acc` and then what the query selects. */
  lemma {:induction false} GatherSpec(acc: seq<Json>, q: Query, records: seq<Json>)
    ensures Gather(acc, q, records).Raised? <==> Select(q, records).Raised?
    ensures Gather(acc, q, records).Raised? ==> Gather(acc, q, records) == Select(q, records)
    ensures Gather(acc, q, records).Ok? ==> Gather(acc, q, records).value == acc + Select(q, records).value
    decreases |records|
  {
    if |records| == 0 {
      assert acc + [] == acc;
    } else {
      var t := Test(q, records[0]);
      if t.Ok? {
        var acc' := if t.value then acc + [records[0]] else acc;
        GatherSpec(acc', q, records[1..]);
        if t.value && Select(q, records[1..]).Ok? {
          assert acc + [records[0]] + Select(q, records[1..]).value == acc + ([records[0]] + Select(q, records[1..]).value);
        }
      }
    }
  }

  /** With no filters every NPC is kept. */
  lemma {:induction false} NoFiltersKeepAll(records: seq<Json>)
    ensures Select(Npcs(None, None, None), records) == Ok(records)
    decreases |records|
  {
    if |records| > 0 {
      NoFiltersKeepAll(records[1..]);
      assert [records[0]] + records[1..] == records;
    }
  }

  /** The NPC filters: the name as a case-insensitive substring, location and
      faction as case-insensitive exact matches, an absent filter accepting
      everything. */
  lemma NpcTestSpec(npc: Object, name: Option<string>, location: Option<string>, faction: Option<string>)
    requires TextField(JObj(npc), "name").Ok? && TextField(JObj(npc), "location").Ok? && TextField(JObj(npc), "faction").Ok?
    ensures Test(Npcs(name, location, faction), JObj(npc)) == Ok(
      (Given(name) ==> Contains(Lower(TextField(JObj(npc), "name").value), Lower(name.value))) &&
      (Given(location) ==> Lower(TextField(JObj(npc), "location").value) == Lower(location.value)) &&
      (Given(faction) ==> Lower(TextField(JObj(npc), "faction").value) == Lower(faction.value)))
  {
  }

  /** The quest filters: status and type exact, the name a substring, all ignoring
      case. */
  lemma QuestTestSpec(quest: Object, status: Option<string>, questType: Option<string>, name: Option<string>)
    requires TextField(JObj(quest), "status").Ok? && TextField(JObj(quest), "type").Ok? && TextField(JObj(quest), "name").Ok?
    ensures Test(Quests(status, questType, name), JObj(quest)) == Ok(
      (Given(status) ==> Lower(TextField(JObj(quest), "status").value) == Lower(status.value)) &&
      (Given(questType) ==> Lower(TextField(JObj(quest), "type").value) == Lower(questType.value)) &&
      (Given(name) ==> Contains(Lower(TextField(JObj(quest), "name").value), Lower(name.value))))
  {
  }

  /** The stat sheet filters: name partial, type and category exact, and the
      location matched in either direction by `location_matches`. */
  lemma StatTestSpec(sheet: Object, name: Option<string>, entityType: Option<string>, category: Option<string>, location: string)
    requires TextField(JObj(sheet), "name").Ok? && TextField(JObj(sheet), "type").Ok? && TextField(JObj(sheet), "category").Ok?
    requires Get(sheet, "location") == Some(JStr(location))
    ensures Test(StatSheets(name, entityType, category, None), JObj(sheet)) == Ok(
      (Given(name) ==> Contains(Lower(TextField(JObj(sheet), "name").value), Lower(name.value))) &&
      (Given(entityType) ==> Lower(TextField(JObj(sheet), "type").value) == Lower(entityType.value)) &&
      (Given(category) ==> Lower(TextField(JObj(sheet), "category").value) == Lower(category.value)))
    ensures forall search :: Given(Some(search)) && Test(StatSheets(None, None, None, Some(search)), JObj(sheet)) == Ok(true) <==>
      Given(Some(search)) && LocationMatches(Some(search), Some(location))
  {
  }

  /** Filters ignore the case the user types them in. */
  lemma FiltersIgnoreCase(npc: Json, name: string, location: string, faction: string)
    ensures Test(Npcs(Some(Lower(name)), Some(Lower(location)), Some(Lower(faction))), npc) ==
      Test(Npcs(Some(name), Some(location), Some(faction)), npc)
  {
    LowerIdempotent(name);
    LowerIdempotent(location);
    LowerIdempotent(faction);
  }

  /** `get_enemies_by_act` keeps exactly the enemy sheets whose `act_context` list
      names the act. */
  lemma ActSpec(sheet: Object, act: string, contexts: seq<Json>)
    requires GetOr(sheet, "act_context", JList([])) == JList(contexts)
    ensures Test(EnemiesInAct(act), JObj(sheet)) == Ok(Get(sheet, "category") == Some(JStr("Enemy")) && JStr(act) in contexts)
  {
  }

  /** A sheet that is not an enemy goes to no bucket; one whose `primary` list
      names the hold always goes to the primary bucket; and the location fallback
      is taken only by a sheet without `hold_context`. */
  lemma HoldTierSpec(sheet: Object, hold: string)
    ensures Get(sheet, "category") != Some(JStr("Enemy")) ==> HoldTier(JObj(sheet), hold) == Ok(None)
    ensures var context := GetOr(sheet, "hold_context", JObj([]));
      Get(sheet, "category") == Some(JStr("Enemy")) && context.JObj? &&
      ContainsText(GetOr(context.members, "primary", JList([])), hold) == Ok(true) ==>
      HoldTier(JObj(sheet), hold) == Ok(Some(Primary))
    ensures var context := GetOr(sheet, "hold_context", JObj([]));
      HoldTier(JObj(sheet), hold) == Ok(Some(Primary)) &&
      ContainsText(GetOr(context.members, "primary", JList([])), hold) != Ok(true) ==>
      context == JObj([]) || (context.JObj? && |context.members| == 0)
  {
  }

  // ---------------------------------------------------------------------------
  // get_enemies_by_hold

  datatype Buckets = Buckets(primary: seq<Json>, contested: seq<Json>, rare: seq<Json>)

  /** The three buckets, filled in listing order. */
  function ByHold(sheets: seq<Json>, hold: string): Result<Buckets>
    decreases |sheets|
  {
    if |sheets| == 0 then Ok(Buckets([], [], []))
    else
      match HoldTier(sheets[0], hold)
      case Raised(e) => Raised(e)
      case Ok(t) =>
        match ByHold(sheets[1..], hold)
        case Raised(e) => Raised(e)
        case Ok(b) =>
          Ok(match t
             case None => b
             case Some(Primary) => b.(primary := [sheets[0]] + b.primary)
             case Some(Contested) => b.(contested := [sheets[0]] + b.contested)
             case Some(Rare) => b.(rare := [sheets[0]] + b.rare))
  }

  /** The bucket of a tier. */
  function Bucket(b: Buckets, tier: Tier): seq<Json> {
    match tier
    case Primary => b.primary
    case Contested => b.contested
    case Rare => b.rare
  }

  /** The bucket of a tier holds exactly the sheets the tier's query keeps. */
  lemma {:induction false} ByHoldTier(sheets: seq<Json>, hold: string, tier: Tier)
    ensures ByHold(sheets, hold).Ok? <==> Select(EnemiesInHold(hold, tier), sheets).Ok?
    ensures ByHold(sheets, hold).Ok? ==> Bucket(ByHold(sheets, hold).value, tier) == Select(EnemiesInHold(hold, tier), sheets).value
    decreases |sheets|
  {
    if |sheets| > 0 {
      ByHoldTier(sheets[1..], hold, tier);
    }
  }

  /** No sheet lands in two buckets. */
  lemma {:induction false} ByHoldSize(sheets: seq<Json>, hold: string)
    requires ByHold(sheets, hold).Ok?
    ensures var b := ByHold(sheets, hold).value; |b.primary| + |b.contested| + |b.rare| <= |sheets|
    decreases |sheets|
  {
    if |sheets| > 0 {
      ByHoldSize(sheets[1..], hold);
    }
  }

  /** Each bucket holds exactly the sheets of its tier, so no sheet is in two
      buckets and together they hold at most all the sheets. */
  lemma ByHoldSpec(sheets: seq<Json>, hold: string)
    ensures ByHold(sheets, hold).Ok? <==> Select(EnemiesInHold(hold, Primary), sheets).Ok?
    ensures ByHold(sheets, hold).Ok? <==> Select(EnemiesInHold(hold, Contested), sheets).Ok?
    ensures ByHold(sheets, hold).Ok? <==> Select(EnemiesInHold(hold, Rare), sheets).Ok?
    ensures ByHold(sheets, hold).Ok? ==>
      var b := ByHold(sheets, hold).value;
      b.primary == Select(EnemiesInHold(hold, Primary), sheets).value &&
      b.contested == Select(EnemiesInHold(hold, Contested), sheets).value &&
      b.rare == Select(EnemiesInHold(hold, Rare), sheets).value &&
      |b.primary| + |b.contested| + |b.rare| <= |sheets|
  {
    ByHoldTier(sheets, hold, Primary);
    ByHoldTier(sheets, hold, Contested);
    ByHoldTier(sheets, hold, Rare);
    if ByHold(sheets, hold).Ok? {
      ByHoldSize(sheets, hold);
    }
  }

  /** The buckets `b` followed by the buckets `c`. */
  function Concat(b: Buckets, c: Buckets): Buckets {
    Buckets(b.primary + c.primary, b.contested + c.contested, b.rare + c.rare)
  }

  /** `b` with the sheet `s` appended to the bucket of its tier. */
  function AddTo(b: Buckets, t: Option<Tier>, s: Json): Buckets {
    match t
    case None => b
    case Some(Primary) => b.(primary := b.primary + [s])
    case Some(Contested) => b.(contested := b.contested + [s])
    case Some(Rare) => b.(rare := b.rare + [s])
  }

  /** The buckets `b` filled further with `sheets`, in listing order. */
  function Fill(b: Buckets, sheets: seq<Json>, hold: string): Result<Buckets>
    decreases |sheets|
  {
    if |sheets| == 0 then Ok(b)
    else
      match HoldTier(sheets[0], hold)
      case Raised(e) => Raised(e)
      case Ok(t) => Fill(AddTo(b, t, sheets[0]), sheets[1..], hold)
  }

  /** Appending a sheet to `b` before `c` is putting it in front of `c`. */
  lemma ConcatAddTo(b: Buckets, t: Option<Tier>, s: Json, c: Buckets)
    ensures Concat(AddTo(b, t, s), c) == Concat(b, match t
      case None => c
      case Some(Primary) => c.(primary := [s] + c.primary)
      case Some(Contested) => c.(contested := [s] + c.contested)
      case Some(Rare) => c.(rare := [s] + c.rare))
  {
    assert b.primary + [s] + c.primary == b.primary + ([s] + c.primary);
    assert b.contested + [s] + c.contested == b.contested + ([s] + c.contested);
    assert b.rare + [s] + c.rare == b.rare + ([s] + c.rare);
  }

  /** Filling `b` with sheets appends their buckets to it, and raises as the
      sorting of the sheets does. */
  lemma {:induction false} FillSpec(b: Buckets, sheets: seq<Json>, hold: string)
    ensures Fill(b, sheets, hold).Raised? <==> ByHold(sheets, hold).Raised?
    ensures Fill(b, sheets, hold).Raised? ==> Fill(b, sheets, hold) == ByHold(sheets, hold)
    ensures Fill(b, sheets, hold).Ok? ==> Fill(b, sheets, hold).value == Concat(b, ByHold(sheets, hold).value)
    decreases |sheets|
  {
    if |sheets| == 0 {
      assert Concat(b, Buckets([], [], [])) == b;
    } else {
      var t := HoldTier(sheets[0], hold);
      if t.Ok? {
        var b' := AddTo(b, t.value, sheets[0]);
        FillSpec(b', sheets[1..], hold);
        if ByHold(sheets[1..], hold).Ok? {
          ConcatAddTo(b, t.value, sheets[0], ByHold(sheets[1..], hold).value);
        }
      }
    }
  }

  // ---------------------------------------------------------------------------
  // query_faction_quests

  /** One faction of the answer. */
  datatype FactionQuests = FactionQuests(questline: Json, quests: seq<Json>, sideQuests: Json)

  /** The answer: `FileMissing` is the `{"error": ...}` reply for a missing
      `factions.json`. */
  datatype FactionAnswer = FileMissing | Answer(entries: seq<(string, FactionQuests)>)

  /** One faction's entry, or `None` when the faction is filtered out or a quest id
      was given and none of its quests has it. */
  function FactionEntry(faction: string, questData: Json, factionId: Option<string>, questId: Option<string>, act: Option<string>): Result<Option<FactionQuests>> {
    if Given(factionId) && faction != factionId.value then Ok(None)
    else if !questData.JObj? then Raised("AttributeError")
    else QuestDataEntry(questData.members, questId, act)
  }

  /** The entry of a faction the filter keeps: its quests that pass the quest id
      and act filters, or `None` when a quest id matched none of them. */
  function QuestDataEntry(questData: Object, questId: Option<string>, act: Option<string>): Result<Option<FactionQuests>> {
    match Iterate(GetOr(questData, "quests", JList([])))
    case Raised(e) => Raised(e)
    case Ok(quests) =>
      match Select(FactionQuest(questId, act), quests)
      case Raised(e) => Raised(e)
      case Ok(kept) =>
        if |kept| > 0 || !Given(questId) then
          Ok(Some(FactionQuests(GetOr(questData, "questline", JNull), kept,
            GetOr(questData, "side_quests", JList([])))))
        else Ok(None)
  }

  function FactionEntries(factionQuests: Object, factionId: Option<string>, questId: Option<string>, act: Option<string>): Result<seq<(string, FactionQuests)>>
    decreases |factionQuests|
  {
    if |factionQuests| == 0 then Ok([])
    else
      match FactionEntry(factionQuests[0].key, factionQuests[0].value, factionId, questId, act)
      case Raised(e) => Raised(e)
      case Ok(entry) =>
        match FactionEntries(factionQuests[1..], factionId, questId, act)
        case Raised(e) => Raised(e)
        case Ok(rest) => Ok(if entry.Some? then [(factionQuests[0].key, entry.value)] + rest else rest)
  }

  function FactionQuestsOf(data: Option<Json>, factionId: Option<string>, questId: Option<string>, act: Option<string>): Result<FactionAnswer> {
    if data.None? then Ok(FileMissing)
    else if !data.value.JObj? then Raised("AttributeError")
    else
      var factionQuests := GetOr(data.value.members, "faction_quests", JObj([]));
      if !factionQuests.JObj? then Raised("AttributeError")
      else
        match FactionEntries(factionQuests.members, factionId, questId, act)
        case Raised(e) => Raised(e)
        case Ok(entries) => Ok(Answer(entries))
  }

  /** The entries `acc` followed by those computed for the factions `ms`, in
      their order in the file. */
  function GatherEntries(acc: seq<(string, FactionQuests)>, ms: Object, factionId: Option<string>, questId: Option<string>, act: Option<string>)
    : Result<seq<(string, FactionQuests)>>
    decreases |ms|
  {
    if |ms| == 0 then Ok(acc)
    else
      match FactionEntry(ms[0].key, ms[0].value, factionId, questId, act)
      case Raised(e) => Raised(e)
      case Ok(entry) => GatherEntries(if entry.Some? then acc + [(ms[0].key, entry.value)] else acc, ms[1..], factionId, questId, act)
  }

  /** Gathering after `acc` keeps `acc` and then the factions' entries. */
  lemma {:induction false} GatherEntriesSpec(acc: seq<(string, FactionQuests)>, ms: Object, factionId: Option<string>, questId: Option<string>, act: Option<string>)
    ensures GatherEntries(acc, ms, factionId, questId, act).Raised? <==> FactionEntries(ms, factionId, questId, act).Raised?
    ensures GatherEntries(acc, ms, factionId, questId, act).Raised? ==>
      GatherEntries(acc, ms, factionId, questId, act) == FactionEntries(ms, factionId, questId, act)
    ensures GatherEntries(acc, ms, factionId, questId, act).Ok? ==>
      GatherEntries(acc, ms, factionId, questId, act).value == acc + FactionEntries(ms, factionId, questId, act).value
    decreases |ms|
  {
    if |ms| == 0 {
      assert acc + [] == acc;
    } else {
      var e := FactionEntry(ms[0].key, ms[0].value, factionId, questId, act);
      if e.Ok? {
        var acc' := if e.value.Some? then acc + [(ms[0].key, e.value.value)] else acc;
        GatherEntriesSpec(acc', ms[1..], factionId, questId, act);
        var rest := FactionEntries(ms[1..], factionId, questId, act);
        if e.value.Some? && rest.Ok? {
          assert acc + [(ms[0].key, e.value.value)] + rest.value == acc + ([(ms[0].key, e.value.value)] + rest.value);
        }
      }
    }
  }

  /** One faction's entry, as the loop of `query_faction_quests` computes it. */
  method EntryOf(faction: string, questData: Json, factionId: Option<string>, questId: Option<string>, act: Option<string>)
    returns (r: Result<Option<FactionQuests>>)
    ensures r == FactionEntry(faction, questData, factionId, questId, act)
  {
    if Given(factionId) && faction != factionId.value {
      return Ok(None);
    }
    if !questData.JObj? {
      return Raised("AttributeError");
    }
    var quests := Iterate(GetOr(questData.members, "quests", JList([])));
    if quests.Raised? {
      return Raised(quests.exception);
    }
    var kept := Collect(FactionQuest(questId, act), quests.value);
    if kept.Raised? {
      return Raised(kept.exception);
    }
    if |kept.value| > 0 || !Given(questId) {
      return Ok(Some(FactionQuests(GetOr(questData.members, "questline", JNull), kept.value,
        GetOr(questData.members, "side_quests", JList([])))));
    }
    return Ok(None);
  }

  /** The loop of `query_faction_quests` over the factions of the file, stopping
      at the first faction whose entry raises. */
  method EntriesOf(ms: Object, factionId: Option<string>, questId: Option<string>, act: Option<string>)
    returns (r: Result<seq<(string, FactionQuests)>>)
    ensures r == FactionEntries(ms, factionId, questId, act)
  {
    var results: seq<(string, FactionQuests)> := [];
    GatherEntriesSpec(results, ms, factionId, questId, act);
    if FactionEntries(ms, factionId, questId, act).Ok? {
      assert [] + FactionEntries(ms, factionId, questId, act).value == FactionEntries(ms, factionId, questId, act).value;
    }
    var i := 0;
    while i < |ms|
      invariant 0 <= i <= |ms|
      invariant GatherEntries(results, ms[i..], factionId, questId, act) == FactionEntries(ms, factionId, questId, act)
    {
      assert ms[i..][0] == ms[i] && ms[i..][1..] == ms[i + 1..];
      var entry := EntryOf(ms[i].key, ms[i].value, factionId, questId, act);
      if entry.Raised? {
        return Raised(entry.exception);
      }
      if entry.value.Some? {
        results := results + [(ms[i].key, entry.value.value)];
      }
      i := i + 1;
    }
    assert ms[i..] == [];
    return Ok(results);
  }

  /** A listed faction is left out only when the faction filter rejects it, or when
      a quest id was given and none of its quests matched; the quests kept all
      carry the quest id and name the act. */
  lemma FactionEntrySpec(faction: string, questData: Object, factionId: Option<string>, questId: Option<string>, act: Option<string>, quests: seq<Json>)
    requires Iterate(GetOr(questData, "quests", JList([]))) == Ok(quests)
    requires Select(FactionQuest(questId, act), quests).Ok?
    ensures var e := FactionEntry(faction, JObj(questData), factionId, questId, act);
      e.Ok? &&
      (e.value.None? <==>
        ((Given(factionId) && faction != factionId.value) ||
         (Given(questId) && |Select(FactionQuest(questId, act), quests).value| == 0)))
    ensures var e := FactionEntry(faction, JObj(questData), factionId, questId, act);
      e.Ok? && e.value.Some? ==>
      forall q :: q in e.value.value.quests ==>
        (q in quests &&
         (Given(questId) ==> q.JObj? && Get(q.members, "id") == Some(JStr(questId.value))) &&
         (Given(act) ==> q.JObj? && ContainsText(GetOr(q.members, "act_context", JList([])), act.value) == Ok(true)))
  {
    SelectSpec(FactionQuest(questId, act), quests);
  }

  /** The entry `p` is the one computed for a faction of the file. */
  predicate EntryFrom(factionQuests: Object, p: (string, FactionQuests), factionId: Option<string>, questId: Option<string>, act: Option<string>) {
    exists i :: 0 <= i < |factionQuests| && factionQuests[i].key == p.0 &&
      FactionEntry(factionQuests[i].key, factionQuests[i].value, factionId, questId, act) == Ok(Some(p.1))
  }

  /** The answer lists the factions in their order in the file, each with the entry
      computed for it, and only those. */
  lemma {:induction false} FactionEntriesSpec(factionQuests: Object, factionId: Option<string>, questId: Option<string>, act: Option<string>)
    requires FactionEntries(factionQuests, factionId, questId, act).Ok?
    ensures var r := FactionEntries(factionQuests, factionId, questId, act).value;
      |r| <= |factionQuests| &&
      (forall i :: 0 <= i < |factionQuests| ==>
        FactionEntry(factionQuests[i].key, factionQuests[i].value, factionId, questId, act).Ok? &&
        (FactionEntry(factionQuests[i].key, factionQuests[i].value, factionId, questId, act).value.Some? ==>
          (factionQuests[i].key, FactionEntry(factionQuests[i].key, factionQuests[i].value, factionId, questId, act).value.value) in r)) &&
      (forall p :: p in r ==> EntryFrom(factionQuests, p, factionId, questId, act))
    decreases |factionQuests|
  {
    if |factionQuests| > 0 {
      FactionEntriesSpec(factionQuests[1..], factionId, questId, act);
      forall i | 1 <= i < |factionQuests|
        ensures factionQuests[i] == factionQuests[1..][i - 1]
      {
      }
      var r := FactionEntries(factionQuests, factionId, questId, act).value;
      forall p | p in r
        ensures EntryFrom(factionQuests, p, factionId, questId, act)
      {
        if p !in FactionEntries(factionQuests[1..], factionId, questId, act).value {
          assert factionQuests[0].key == p.0;
        } else {
          assert EntryFrom(factionQuests[1..], p, factionId, questId, act);
          var j :| 0 <= j < |factionQuests[1..]| && factionQuests[1..][j].key == p.0 &&
            FactionEntry(factionQuests[1..][j].key, factionQuests[1..][j].value, factionId, questId, act) == Ok(Some(p.1));
          assert factionQuests[j + 1] == factionQuests[1..][j];
        }
      }
    }
  }

  // ---------------------------------------------------------------------------
  // search_rules

  datatype RulesFile = RulesFile(name: string, content: string)

  datatype RuleHit = RuleHit(file: string, matches: seq<string>)

  predicate Mentions(text: string, keyword: string) {
    Contains(Lower(text), Lower(keyword))
  }

  /** The context of a matching line: two lines before it and two after, cut at
      the ends of the file. */
  function Window(lines: seq<string>, i: int): seq<string>
    requires 0 <= i < |lines|
  {
    lines[Max(0, i - 2)..Min(|lines|, i + 3)]
  }

  /** A window holds at most five lines and includes the matching line itself. */
  lemma WindowSpec(lines: seq<string>, i: int)
    requires 0 <= i < |lines|
    ensures 1 <= |Window(lines, i)| <= 5
    ensures Window(lines, i)[i - Max(0, i - 2)] == lines[i]
    ensures forall x :: x in Window(lines, i) ==> x in lines
  {
  }

  /** The windows of the matching lines among the first `n`, in order; windows of
      nearby matches overlap and repeat lines. */
  function Context(lines: seq<string>, keyword: string, n: nat): seq<string>
    requires n <= |lines|
  {
    if n == 0 then []
    else Context(lines, keyword, n - 1) + (if Mentions(lines[n - 1], keyword) then Window(lines, n - 1) else [])
  }

  /** Every matching line is in the context, every context line is a line of the
      file, and there are at most five context lines per line read. */
  lemma ContextSpec(lines: seq<string>, keyword: string, n: nat)
    requires n <= |lines|
    ensures forall i :: 0 <= i < n && Mentions(lines[i], keyword) ==> lines[i] in Context(lines, keyword, n)
    ensures forall x :: x in Context(lines, keyword, n) ==> x in lines
    ensures |Context(lines, keyword, n)| <= 5 * n
  {
    ContextHasMatches(lines, keyword, n);
    ContextFromLines(lines, keyword, n);
    ContextLength(lines, keyword, n);
  }

  lemma {:induction false} ContextHasMatches(lines: seq<string>, keyword: string, n: nat)
    requires n <= |lines|
    ensures forall i :: 0 <= i < n && Mentions(lines[i], keyword) ==> lines[i] in Context(lines, keyword, n)
  {
    if n > 0 {
      ContextHasMatches(lines, keyword, n - 1);
      if Mentions(lines[n - 1], keyword) {
        WindowSpec(lines, n - 1);
        var w := Window(lines, n - 1);
        assert lines[n - 1] == w[n - 1 - Max(0, n - 3)];
      }
    }
  }

  lemma {:induction false} ContextFromLines(lines: seq<string>, keyword: string, n: nat)
    requires n <= |lines|
    ensures forall x :: x in Context(lines, keyword, n) ==> x in lines
  {
    if n > 0 {
      ContextFromLines(lines, keyword, n - 1);
      if Mentions(lines[n - 1], keyword) {
        WindowSpec(lines, n - 1);
      }
    }
  }

  lemma {:induction false} ContextLength(lines: seq<string>, keyword: string, n: nat)
    requires n <= |lines|
    ensures |Context(lines, keyword, n)| <= 5 * n
  {
    if n > 0 {
      ContextLength(lines, keyword, n - 1);
      if Mentions(lines[n - 1], keyword) {
        WindowSpec(lines, n - 1);
      }
    }
  }

  /** The files that mention the keyword anywhere, in listing order, each with the
      context of its matching lines. */
  function Hits(files: seq<RulesFile>, keyword: string): seq<RuleHit>
  {
    if |files| == 0 then []
    else
      var f := files[|files| - 1];
      var lines := Split(f.content, '\n');
      Hits(files[..|files| - 1], keyword) +
        (if Mentions(f.content, keyword) then [RuleHit(f.name, Context(lines, keyword, |lines|))] else [])
  }

  /** A file is reported exactly when its text mentions the keyword. */
  lemma {:induction false} HitsSpec(files: seq<RulesFile>, keyword: string)
    ensures |Hits(files, keyword)| <= |files|
    ensures forall h :: h in Hits(files, keyword) ==> exists f :: f in files && f.name == h.file && Mentions(f.content, keyword)
    ensures forall f :: f in files && Mentions(f.content, keyword) ==> exists h :: h in Hits(files, keyword) && h.file == f.name
  {
    if |files| > 0 {
      var init := files[..|files| - 1];
      var f := files[|files| - 1];
      HitsSpec(init, keyword);
      assert files == init + [f];
      forall g | g in files && Mentions(g.content, keyword)
        ensures exists h :: h in Hits(files, keyword) && h.file == g.name
      {
        if g !in init {
          assert g == f;
          var lines := Split(f.content, '\n');
          assert RuleHit(f.name, Context(lines, keyword, |lines|)) in Hits(files, keyword);
        }
      }
    }
  }

  // ---------------------------------------------------------------------------
  // get_character_relationships

  /** The first record whose `id` is the character's; a record that is not a dict
      raises. */
  function FindById(records: seq<Json>, characterId: string): Result<Option<Object>>
    decreases |records|
  {
    if |records| == 0 then Ok(None)
    else if !records[0].JObj? then Raised("AttributeError")
    else if Get(records[0].members, "id") == Some(JStr(characterId)) then Ok(Some(records[0].members))
    else FindById(records[1..], characterId)
  }

  /** NPCs are searched before player characters; a character not found, or found
      without `relationships`, has none. */
  function Relationships(npcs: seq<Json>, pcs: seq<Json>, characterId: string): Result<Json> {
    match FindById(npcs, characterId)
    case Raised(e) => Raised(e)
    case Ok(target) =>
      var found := if target.Some? then Ok(target) else FindById(pcs, characterId);
      match found
      case Raised(e) => Raised(e)
      case Ok(t) => Ok(if t.Some? && HasKey(t.value, "relationships") then Get(t.value, "relationships").value else JObj([]))
  }

  /** The record found is the first one with the id. */
  lemma {:induction false} FindByIdSpec(records: seq<Json>, characterId: string)
    ensures FindById(records, characterId).Ok? && FindById(records, characterId).value.Some? ==>
      exists i :: 0 <= i < |records| && records[i] == JObj(FindById(records, characterId).value.value) &&
        Get(records[i].members, "id") == Some(JStr(characterId)) &&
        forall j :: 0 <= j < i ==> records[j].JObj? && Get(records[j].members, "id") != Some(JStr(characterId))
    ensures FindById(records, characterId) == Ok(None) <==>
      forall j :: 0 <= j < |records| ==> records[j].JObj? && Get(records[j].members, "id") != Some(JStr(characterId))
    decreases |records|
  {
    if |records| > 0 {
      FindByIdSpec(records[1..], characterId);
      forall j | 1 <= j < |records|
        ensures records[j] == records[1..][j - 1]
      {
      }
      if FindById(records, characterId).Ok? && FindById(records, characterId).value.Some? &&
        records[0].JObj? && Get(records[0].members, "id") != Some(JStr(characterId))
      {
        var i :| 0 <= i < |records[1..]| && records[1..][i] == JObj(FindById(records, characterId).value.value) &&
          Get(records[1..][i].members, "id") == Some(JStr(characterId)) &&
          forall j :: 0 <= j < i ==> records[1..][j].JObj? && Get(records[1..][j].members, "id") != Some(JStr(characterId));
        assert records[i + 1] == records[1..][i];
      }
    }
  }

  /** An NPC with the id hides any player character with it; a character found
      nowhere has no relationships. */
  lemma RelationshipsSpec(npcs: seq<Json>, pcs: seq<Json>, characterId: string)
    ensures FindById(npcs, characterId).Ok? && FindById(npcs, characterId).value.Some? ==>
      forall pcs' :: Relationships(npcs, pcs', characterId) == Relationships(npcs, pcs, characterId)
    ensures FindById(npcs, characterId) == Ok(None) && FindById(pcs, characterId) == Ok(None) ==>
      Relationships(npcs, pcs, characterId) == Ok(JObj([]))
  {
  }

  // ---------------------------------------------------------------------------
  // The manager

  /** The records a query keeps, in listing order. */
  method Collect(q: Query, records: seq<Json>) returns (r: Result<seq<Json>>)
    ensures r == Select(q, records)
  {
    var results: seq<Json> := [];
    GatherSpec(results, q, records);
    if Select(q, records).Ok? {
      assert [] + Select(q, records).value == Select(q, records).value;
    }
    var i := 0;
    while i < |records|
      invariant 0 <= i <= |records|
      invariant Gather(results, q, records[i..]) == Select(q, records)
    {
      assert records[i..][0] == records[i] && records[i..][1..] == records[i + 1..];
      var keep := Test(q, records[i]);
      if keep.Raised? {
        return Raised(keep.exception);
      }
      if keep.value {
        results := results + [records[i]];
      }
      i := i + 1;
    }
    assert records[i..] == [];
    return Ok(results);
  }

  /** The context lines of one file. */
  method ContextLines(lines: seq<string>, keyword: string) returns (relevant: seq<string>)
    ensures relevant == Context(lines, keyword, |lines|)
  {
    relevant := [];
    var i := 0;
    while i < |lines|
      invariant 0 <= i <= |lines|
      invariant relevant == Context(lines, keyword, i)
    {
      if Contains(Lower(lines[i]), Lower(keyword)) {
        var start := Max(0, i - 2);
        var end := Min(|lines|, i + 3);
        relevant := relevant + lines[start..end];
      }
      i := i + 1;
    }
  }

  class DataQueryManager {
    var npcs: seq<Json>
    var pcs: seq<Json>
    var quests: seq<Json>
    /** The stat sheets; `None` when their directory does not exist. */
    var statSheets: Option<seq<Json>>
    /** `factions.json`; `None` when the file does not exist. */
    var factions: Option<Json>
    var rules: seq<RulesFile>

    constructor(npcs: seq<Json>, pcs: seq<Json>, quests: seq<Json>, statSheets: Option<seq<Json>>, factions: Option<Json>, rules: seq<RulesFile>)
      ensures this.npcs == npcs && this.pcs == pcs && this.quests == quests
      ensures this.statSheets == statSheets && this.factions == factions && this.rules == rules
    {
      this.npcs := npcs;
      this.pcs := pcs;
      this.quests := quests;
      this.statSheets := statSheets;
      this.factions := factions;
      this.rules := rules;
    }

    method QueryNpcs(name: Option<string>, location: Option<string>, faction: Option<string>) returns (r: Result<seq<Json>>)
      ensures r == Select(Npcs(name, location, faction), npcs)
    {
      r := Collect(Npcs(name, location, faction), npcs);
    }

    method QueryQuests(status: Option<string>, questType: Option<string>, name: Option<string>) returns (r: Result<seq<Json>>)
      ensures r == Select(Quests(status, questType, name), quests)
    {
      r := Collect(Quests(status, questType, name), quests);
    }

    /** `query_npc_enemy_stats`: nothing when the stat sheet directory is missing. */
    method QueryNpcEnemyStats(name: Option<string>, entityType: Option<string>, category: Option<string>, location: Option<string>) returns (r: Result<seq<Json>>)
      ensures statSheets.None? ==> r == Ok([])
      ensures statSheets.Some? ==> r == Select(StatSheets(name, entityType, category, location), statSheets.value)
    {
      if statSheets.None? {
        return Ok([]);
      }
      r := Collect(StatSheets(name, entityType, category, location), statSheets.value);
    }

    method GetEnemiesByAct(act: string) returns (r: Result<seq<Json>>)
      ensures statSheets.None? ==> r == Ok([])
      ensures statSheets.Some? ==> r == Select(EnemiesInAct(act), statSheets.value)
    {
      if statSheets.None? {
        return Ok([]);
      }
      r := Collect(EnemiesInAct(act), statSheets.value);
    }

    method GetEnemiesByHold(hold: string) returns (r: Result<Buckets>)
      ensures statSheets.None? ==> r == Ok(Buckets([], [], []))
      ensures statSheets.Some? ==> r == ByHold(statSheets.value, hold)
    {
      if statSheets.None? {
        return Ok(Buckets([], [], []));
      }
      var sheets := statSheets.value;
      var b := Buckets([], [], []);
      FillSpec(b, sheets, hold);
      if ByHold(sheets, hold).Ok? {
        assert Concat(b, ByHold(sheets, hold).value) == ByHold(sheets, hold).value;
      }
      var i := 0;
      while i < |sheets|
        invariant 0 <= i <= |sheets|
        invariant Fill(b, sheets[i..], hold) == ByHold(sheets, hold)
      {
        assert sheets[i..][0] == sheets[i] && sheets[i..][1..] == sheets[i + 1..];
        var tier := HoldTier(sheets[i], hold);
        if tier.Raised? {
          return Raised(tier.exception);
        }
        match tier.value {
          case None =>
          case Some(Primary) =>
            b := b.(primary := b.primary + [sheets[i]]);
          case Some(Contested) =>
            b := b.(contested := b.contested + [sheets[i]]);
          case Some(Rare) =>
            b := b.(rare := b.rare + [sheets[i]]);
        }
        i := i + 1;
      }
      assert sheets[i..] == [];
      return Ok(b);
    }

    method QueryFactionQuests(factionId: Option<string>, questId: Option<string>, act: Option<string>) returns (r: Result<FactionAnswer>)
      ensures r == FactionQuestsOf(factions, factionId, questId, act)
    {
      if factions.None? {
        return Ok(FileMissing);
      }
      if !factions.value.JObj? {
        return Raised("AttributeError");
      }
      var factionQuests := GetOr(factions.value.members, "faction_quests", JObj([]));
      if !factionQuests.JObj? {
        return Raised("AttributeError");
      }
      var entries := EntriesOf(factionQuests.members, factionId, questId, act);
      if entries.Raised? {
        return Raised(entries.exception);
      }
      return Ok(Answer(entries.value));
    }

    method SearchRules(keyword: string) returns (results: seq<RuleHit>)
      ensures results == Hits(rules, keyword)
    {
      results := [];
      var i := 0;
      while i < |rules|
        invariant 0 <= i <= |rules|
        invariant results == Hits(rules[..i], keyword)
      {
        assert rules[..i + 1][..i] == rules[..i];
        var f := rules[i];
        if Contains(Lower(f.content), Lower(keyword)) {
          var lines := Split(f.content, '\n');
          var relevant := ContextLines(lines, keyword);
          results := results + [RuleHit(f.name, relevant)];
        }
        i := i + 1;
      }
      assert rules[..i] == rules;
    }

    method GetCharacterRelationships(characterId: string) returns (r: Result<Json>)
      ensures r == Relationships(npcs, pcs, characterId)
    {
      var target: Option<Object> := None;
      var i := 0;
      while i < |npcs|
        invariant 0 <= i <= |npcs|
        invariant FindById(npcs, characterId) == FindById(npcs[i..], characterId)
      {
        assert npcs[i..][0] == npcs[i] && npcs[i..][1..] == npcs[i + 1..];
        if !npcs[i].JObj? {
          return Raised("AttributeError");
        }
        if Get(npcs[i].members, "id") == Some(JStr(characterId)) {
          target := Some(npcs[i].members);
          break;
        }
        i := i + 1;
      }
      assert target.None? ==> npcs[i..] == [];
      assert FindById(npcs, characterId) == Ok(target);
      if target.None? {
        var j := 0;
        while j < |pcs|
          invariant 0 <= j <= |pcs|
          invariant FindById(pcs, characterId) == FindById(pcs[j..], characterId)
        {
          assert pcs[j..][0] == pcs[j] && pcs[j..][1..] == pcs[j + 1..];
          if !pcs[j].JObj? {
            return Raised("AttributeError");
          }
          if Get(pcs[j].members, "id") == Some(JStr(characterId)) {
            target := Some(pcs[j].members);
            break;
          }
          j := j + 1;
        }
        assert target.None? ==> pcs[j..] == [];
        assert FindById(pcs, characterId) == Ok(target);
      }
      if target.Some? && HasKey(target.value, "relationships") {
        return Ok(Get(target.value, "relationships").value);
      }
      return Ok(JObj([]));
    }
  }
}
