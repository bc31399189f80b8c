/** The campaign records the story manager loads, changes and saves, and the
    transition each of its operations applies to them. A section the source
    tests with `in` is an `Option`; the other sections hold the fields the
    operations read and write. */
module StoryState {
  import opened Wrappers
  import opened Text
  import opened Json
  import opened Bounds

  datatype Quest = Quest(id: string, name: string, status: string, nextQuest: Option<string>, act: Option<string>)

  datatype Plot = Plot(plotId: string, progress: int, clockSegments: int)

  datatype ThalmorArc = ThalmorArc(activePlots: seq<Plot>, schemesDiscovered: seq<string>, awareness: int)

  datatype CivilWar = CivilWar(
    playerAlliance: string,
    imperialVictories: int,
    stormcloakVictories: int,
    keyBattlesCompleted: seq<Json>,
    battleOfWhiterunStatus: string)

  datatype FactionRecord = FactionRecord(trustLevel: int, completed: seq<string>, active: seq<string>, failed: seq<string>)

  datatype StoryArc = StoryArc(arcName: string, progress: int)

  datatype Companion = Companion(name: string, details: Object)

  datatype Campaign = Campaign(
    branchingDecisions: Option<map<string, string>>,
    worldConsequences: Option<map<string, seq<Json>>>,
    civilWar: Option<CivilWar>,
    mainQuestState: Option<Object>,
    thalmorArc: Option<ThalmorArc>,
    factionQuests: Option<map<string, FactionRecord>>,
    storyArcs: Option<seq<StoryArc>>,
    currentAct: Option<int>,
    companions: Option<seq<Companion>>)

  /** What one load-change-save operation does: it declines (returns `False`
      without saving), fails with an exception before saving, or saves a new state. */
  datatype Update<T> = Declined | Failed(exception: string) | Saved(state: T)

  // ---------------------------------------------------------------------------
  // record_branching_decision

  /** The entry appended to `major_choices` (its timestamp is not modelled). */
  function ChoiceEntry(key: string, choice: string): Json {
    JObj([Member("decision", JStr(key)), Member("choice", JStr(choice))])
  }

  function RecordDecision(state: Option<Campaign>, key: string, choice: string): (r: Update<Campaign>)
    ensures r.Declined? <==> state.None? || state.value.branchingDecisions.None?
    ensures r.Failed? <==> (!r.Declined? && state.value.worldConsequences.Some? &&
      "major_choices" !in state.value.worldConsequences.value)
    ensures r.Saved? ==> (r.state.branchingDecisions.Some? &&
      r.state.branchingDecisions.value == state.value.branchingDecisions.value[key := choice])
    ensures r.Saved? && state.value.worldConsequences.Some? ==>
      var wc := state.value.worldConsequences.value;
      r.state.worldConsequences == Some(wc["major_choices" := wc["major_choices"] + [ChoiceEntry(key, choice)]])
  {
    if state.None? || state.value.branchingDecisions.None? then Declined
    else
      var c := state.value;
      var decisions := c.branchingDecisions.value[key := choice];
      match c.worldConsequences
      case None => Saved(c.(branchingDecisions := Some(decisions)))
      case Some(wc) =>
        if "major_choices" !in wc then Failed("KeyError")
        else
          var wc' := wc["major_choices" := wc["major_choices"] + [ChoiceEntry(key, choice)]];
          Saved(c.(branchingDecisions := Some(decisions), worldConsequences := Some(wc')))
  }

  // ---------------------------------------------------------------------------
  // update_civil_war_state

  /** The counter of the named winner goes up by one; any other winner counts for neither side. */
  function CountVictory(cw: CivilWar, winner: Json): (r: CivilWar)
    ensures r.imperialVictories == cw.imperialVictories + (if winner == JStr("imperial") then 1 else 0)
    ensures r.stormcloakVictories == cw.stormcloakVictories + (if winner == JStr("stormcloak") then 1 else 0)
    ensures r.playerAlliance == cw.playerAlliance && r.keyBattlesCompleted == cw.keyBattlesCompleted
    ensures r.battleOfWhiterunStatus == cw.battleOfWhiterunStatus
  {
    if winner == JStr("imperial") then cw.(imperialVictories := cw.imperialVictories + 1)
    else if winner == JStr("stormcloak") then cw.(stormcloakVictories := cw.stormcloakVictories + 1)
    else cw
  }

  /** `alliance` and `battle_result` count only when truthy; the battle name must
      be a string for the Whiterun test, and the section must exist once either is given. */
  function UpdateCivilWar(state: Option<Campaign>, alliance: Option<string>, battleResult: Object): Update<Campaign> {
    if state.None? then Declined
    else
      var c := state.value;
      var allianceGiven := alliance.Some? && |alliance.value| > 0;
      var battleGiven := |battleResult| > 0;
      if !allianceGiven && !battleGiven then Saved(c)
      else if c.civilWar.None? then Failed("KeyError")
      else
        var cw := c.civilWar.value;
        var cw1 := if allianceGiven then cw.(playerAlliance := alliance.value) else cw;
        if !battleGiven then Saved(c.(civilWar := Some(cw1)))
        else
          var battleName := GetOr(battleResult, "battle_name", JNull);
          var cw2 := CountVictory(cw1, GetOr(battleResult, "winner", JNull));
          var cw3 := cw2.(keyBattlesCompleted := cw2.keyBattlesCompleted + [battleName]);
          if !battleName.JStr? then Failed("AttributeError")
          else if Contains(Lower(battleName.s), "whiterun") then
            Saved(c.(civilWar := Some(cw3.(battleOfWhiterunStatus := "completed"))))
          else Saved(c.(civilWar := Some(cw3)))
  }

  /** A battle increments exactly the winner's counter and records the battle. */
  lemma CivilWarBattle(c: Campaign, alliance: Option<string>, battleResult: Object)
    requires UpdateCivilWar(Some(c), alliance, battleResult).Saved? && |battleResult| > 0
    ensures var cw := c.civilWar.value;
      var cw' := UpdateCivilWar(Some(c), alliance, battleResult).state.civilWar.value;
      var winner := GetOr(battleResult, "winner", JNull);
      cw'.imperialVictories == cw.imperialVictories + (if winner == JStr("imperial") then 1 else 0) &&
      cw'.stormcloakVictories == cw.stormcloakVictories + (if winner == JStr("stormcloak") then 1 else 0) &&
      cw'.keyBattlesCompleted == cw.keyBattlesCompleted + [GetOr(battleResult, "battle_name", JNull)]
  {
  }

  // ---------------------------------------------------------------------------
  // update_main_quest_state

  /** Python `a += b` for the JSON values it is defined on: numbers (a bool
      counting as 0 or 1) add, texts concatenate, and a list extends with the
      items of a list, the characters of a text or the keys of a dict. */
  function PlusAssign(a: Json, b: Json): (r: Result<Json>)
    ensures a.JInt? && b.JInt? ==> r == Ok(JInt(a.i + b.i))
    ensures IsNumber(a) && IsNumber(b) ==> r == Ok(JInt(NumberOf(a) + NumberOf(b)))
  {
    if IsNumber(a) && IsNumber(b) then Ok(JInt(NumberOf(a) + NumberOf(b)))
    else match (a, b)
    case (JStr(x), JStr(y)) => Ok(JStr(x + y))
    case (JList(x), _) =>
      (match Iterate(b)
       case Raised(e) => Raised(e)
       case Ok(ys) => Ok(JList(x + ys)))
    case _ => Raised("TypeError")
  }

  /** `for shout in value: if shout not in lst: lst.append(shout)`. */
  function AppendNew(lst: seq<Json>, items: seq<Json>): seq<Json>
    decreases |items|
  {
    if |items| == 0 then lst
    else AppendNew(if items[0] in lst then lst else lst + [items[0]], items[1..])
  }

  predicate NoDuplicates<T(==)>(s: seq<T>) {
    forall i, j :: 0 <= i < j < |s| ==> s[i] != s[j]
  }

  /** The old entries stay first, every new item is present once, nothing else
      is added, and a list without duplicates keeps none. */
  lemma {:induction false} AppendNewSpec(lst: seq<Json>, items: seq<Json>)
    ensures lst <= AppendNew(lst, items)
    ensures forall x :: x in items ==> x in AppendNew(lst, items)
    ensures forall x :: x in AppendNew(lst, items) ==> x in lst || x in items
    ensures NoDuplicates(lst) ==> NoDuplicates(AppendNew(lst, items))
    decreases |items|
  {
    if |items| > 0 {
      var next := if items[0] in lst then lst else lst + [items[0]];
      AppendNewSpec(next, items[1..]);
      forall x | x in items
        ensures x in AppendNew(lst, items)
      {
        if x != items[0] {
          assert x in items[1..];
        } else {
          assert x in next;
          assert next <= AppendNew(lst, items);
        }
      }
    }
  }

  /** `for shout in value: if shout not in learned: learned.append(shout)`: each
      shout is sought first, and only a missing shout is appended, which only a
      list allows. */
  function MergeShouts(learned: Json, shouts: seq<Json>): Result<Json>
    decreases |shouts|
  {
    if |shouts| == 0 then Ok(learned)
    else match In(shouts[0], learned)
      case Raised(e) => Raised(e)
      case Ok(found) =>
        if found then MergeShouts(learned, shouts[1..])
        else if learned.JList? then MergeShouts(JList(learned.items + [shouts[0]]), shouts[1..])
        else Raised("AttributeError")
  }

  /** On a list the merge is `AppendNew`. */
  lemma {:induction false} MergeShoutsList(known: seq<Json>, shouts: seq<Json>)
    ensures MergeShouts(JList(known), shouts) == Ok(JList(AppendNew(known, shouts)))
    decreases |shouts|
  {
    if |shouts| > 0 {
      var next := if shouts[0] in known then known else known + [shouts[0]];
      MergeShoutsList(next, shouts[1..]);
    }
  }

  /** On a value that is not a list the merge succeeds exactly when every shout is
      already found in it, and then leaves it as it is. */
  lemma {:induction false} MergeShoutsNotList(learned: Json, shouts: seq<Json>)
    requires !learned.JList?
    ensures MergeShouts(learned, shouts).Ok? <==> forall i :: 0 <= i < |shouts| ==> In(shouts[i], learned) == Ok(true)
    ensures MergeShouts(learned, shouts).Ok? ==> MergeShouts(learned, shouts).value == learned
    decreases |shouts|
  {
    if |shouts| > 0 {
      MergeShoutsNotList(learned, shouts[1..]);
      assert forall i :: 1 <= i < |shouts| ==> shouts[i] == shouts[1..][i - 1];
    }
  }

  /** One keyword argument: keys the section lacks are ignored; a list of shouts
      is merged in; the dragon-soul count is added to; any other key is replaced. */
  function ApplyKwarg(mqs: Object, kw: Member): Result<Object> {
    if !HasKey(mqs, kw.key) then Ok(mqs)
    else
      var current := Get(mqs, kw.key).value;
      if kw.key == "shouts_learned" && kw.value.JList? then
        match MergeShouts(current, kw.value.items)
        case Raised(e) => Raised(e)
        case Ok(v) => Ok(Put(mqs, kw.key, v))
      else if kw.key == "dragon_souls_absorbed" then
        match PlusAssign(current, kw.value)
        case Raised(e) => Raised(e)
        case Ok(v) => Ok(Put(mqs, kw.key, v))
      else Ok(Put(mqs, kw.key, kw.value))
  }

  function ApplyKwargs(mqs: Object, kwargs: seq<Member>): Result<Object>
    decreases |kwargs|
  {
    if |kwargs| == 0 then Ok(mqs)
    else match ApplyKwarg(mqs, kwargs[0])
      case Raised(e) => Raised(e)
      case Ok(m) => ApplyKwargs(m, kwargs[1..])
  }

  function UpdateMainQuest(state: Option<Campaign>, kwargs: seq<Member>): Update<Campaign> {
    if state.None? || state.value.mainQuestState.None? then Declined
    else match ApplyKwargs(state.value.mainQuestState.value, kwargs)
      case Raised(e) => Failed(e)
      case Ok(m) => Saved(state.value.(mainQuestState := Some(m)))
  }

  /** One argument never adds a key, and leaves every other key alone. */
  lemma ApplyKwargKeys(mqs: Object, kw: Member)
    requires ApplyKwarg(mqs, kw).Ok?
    ensures forall k :: HasKey(ApplyKwarg(mqs, kw).value, k) <==> HasKey(mqs, k)
    ensures forall k :: k != kw.key ==> Get(ApplyKwarg(mqs, kw).value, k) == Get(mqs, k)
  {
    var r := ApplyKwarg(mqs, kw).value;
    forall k
      ensures HasKey(r, k) <==> HasKey(mqs, k)
    {
      assert Get(r, k).Some? <==> HasKey(r, k);
      if HasKey(mqs, kw.key) {
        assert Get(r, kw.key).Some?;
      }
    }
  }

  /** Only keys that already exist change: the set of keys is the same, and a key
      no argument names keeps its value. */
  lemma {:induction false} ApplyKwargsKeys(mqs: Object, kwargs: seq<Member>)
    requires ApplyKwargs(mqs, kwargs).Ok?
    ensures forall k :: HasKey(ApplyKwargs(mqs, kwargs).value, k) <==> HasKey(mqs, k)
    ensures forall k :: (forall j :: 0 <= j < |kwargs| ==> kwargs[j].key != k) ==>
      Get(ApplyKwargs(mqs, kwargs).value, k) == Get(mqs, k)
    decreases |kwargs|
  {
    if |kwargs| > 0 {
      ApplyKwargKeys(mqs, kwargs[0]);
      var m := ApplyKwarg(mqs, kwargs[0]).value;
      ApplyKwargsKeys(m, kwargs[1..]);
      forall k | forall j :: 0 <= j < |kwargs| ==> kwargs[j].key != k
        ensures Get(ApplyKwargs(mqs, kwargs).value, k) == Get(mqs, k)
      {
        assert kwargs[0].key != k;
        assert forall j :: 0 <= j < |kwargs[1..]| ==> kwargs[1..][j].key != k by {
          forall j | 0 <= j < |kwargs[1..]|
            ensures kwargs[1..][j].key != k
          {
            assert kwargs[1..][j] == kwargs[j + 1];
          }
        }
      }
    }
  }

  /** New shouts are appended in order after the known ones, without duplicates. */
  lemma ShoutsMerged(mqs: Object, known: seq<Json>, shouts: seq<Json>)
    requires Get(mqs, "shouts_learned") == Some(JList(known))
    requires NoDuplicates(known)
    ensures var r := ApplyKwarg(mqs, Member("shouts_learned", JList(shouts)));
      r.Ok? && r.value == Put(mqs, "shouts_learned", JList(AppendNew(known, shouts))) &&
      NoDuplicates(AppendNew(known, shouts)) && known <= AppendNew(known, shouts) &&
      (forall x :: x in shouts ==> x in AppendNew(known, shouts))
  {
    AppendNewSpec(known, shouts);
    MergeShoutsList(known, shouts);
  }

  /** Shouts a stored text already contains are found, so nothing is appended
      and the section is saved as it was. */
  lemma ShoutsFoundInText(mqs: Object)
    requires Get(mqs, "shouts_learned") == Some(JStr("Fus Ro Dah"))
    ensures ApplyKwarg(mqs, Member("shouts_learned", JList([JStr("Fus")]))) == Ok(mqs)
  {
    assert Text.OccursAt("Fus Ro Dah", "Fus", 0);
    MergeShoutsNotList(JStr("Fus Ro Dah"), [JStr("Fus")]);
    PutUnchanged(mqs, "shouts_learned", JStr("Fus Ro Dah"));
  }

  /** The dragon-soul count is incremented, not replaced. */
  lemma SoulsIncremented(mqs: Object, n: int, gained: int)
    requires Get(mqs, "dragon_souls_absorbed") == Some(JInt(n))
    ensures ApplyKwarg(mqs, Member("dragon_souls_absorbed", JInt(gained))) ==
      Ok(Put(mqs, "dragon_souls_absorbed", JInt(n + gained)))
  {
  }

  // ---------------------------------------------------------------------------
  // update_thalmor_arc

  /** One plot of the loop: a matching plot's progress is clamped into `[0, clock_segments]`. */
  function ClampPlot(p: Plot, plotId: string, change: int): (r: Plot)
    ensures r.plotId == p.plotId && r.clockSegments == p.clockSegments
    ensures p.plotId == plotId && p.clockSegments >= 0 ==> 0 <= r.progress <= p.clockSegments
    ensures p.plotId != plotId ==> r == p
  {
    if p.plotId == plotId then p.(progress := Clamp(p.progress + change, 0, p.clockSegments)) else p
  }

  function UpdateThalmor(state: Option<Campaign>, plotId: string, change: int, discovery: Option<string>): Update<Campaign> {
    if state.None? || state.value.thalmorArc.None? then Declined
    else
      var arc := state.value.thalmorArc.value;
      var plots := seq(|arc.activePlots|, i requires 0 <= i < |arc.activePlots| => ClampPlot(arc.activePlots[i], plotId, change));
      var found := if discovery.Some? && |discovery.value| > 0 then arc.schemesDiscovered + [discovery.value] else arc.schemesDiscovered;
      Saved(state.value.(thalmorArc := Some(arc.(activePlots := plots, schemesDiscovered := found))))
  }

  /** Every matching plot ends in `[0, clock_segments]` and every other plot is as it was. */
  lemma ThalmorClamped(c: Campaign, plotId: string, change: int, discovery: Option<string>)
    requires c.thalmorArc.Some?
    ensures var before := c.thalmorArc.value.activePlots;
      var after := UpdateThalmor(Some(c), plotId, change, discovery).state.thalmorArc.value.activePlots;
      |after| == |before| &&
      (forall i :: 0 <= i < |before| && before[i].plotId == plotId && before[i].clockSegments >= 0 ==>
        0 <= after[i].progress <= after[i].clockSegments) &&
      (forall i :: 0 <= i < |before| && before[i].plotId != plotId ==> after[i] == before[i])
  {
  }

  // ---------------------------------------------------------------------------
  // advance_quest

  /** The index of the first quest with `id`, or `|quests|` if none has it. */
  function FirstQuest(quests: seq<Quest>, id: string): (i: nat)
    ensures i <= |quests|
    ensures i < |quests| ==> quests[i].id == id
    ensures forall j :: 0 <= j < i ==> quests[j].id != id
    decreases |quests|
  {
    if |quests| == 0 then 0
    else if quests[0].id == id then 0
    else 1 + FirstQuest(quests[1..], id)
  }

  /** Every quest with the id becomes available. */
  function Unlock(quests: seq<Quest>, nextId: string): seq<Quest> {
    seq(|quests|, j requires 0 <= j < |quests| => if quests[j].id == nextId then quests[j].(status := "available") else quests[j])
  }

  function QuestAdvanced(quests: seq<Quest>, id: string, newStatus: string): Option<seq<Quest>> {
    var i := FirstQuest(quests, id);
    if i == |quests| then None
    else
      var q := quests[i := quests[i].(status := newStatus)];
      if newStatus == "completed" && quests[i].nextQuest.Some? then Some(Unlock(q, quests[i].nextQuest.value))
      else Some(q)
  }

  /** An unknown id changes nothing; otherwise the first quest with the id takes
      the new status (unless completing it unlocks itself), completing a quest with
      a successor makes every quest with the successor's id available, and no
      other quest changes. */
  lemma QuestAdvancedSpec(quests: seq<Quest>, id: string, newStatus: string)
    ensures QuestAdvanced(quests, id, newStatus).None? <==> forall j :: 0 <= j < |quests| ==> quests[j].id != id
    ensures QuestAdvanced(quests, id, newStatus).Some? ==>
      var i := FirstQuest(quests, id);
      var r := QuestAdvanced(quests, id, newStatus).value;
      var unlocking := newStatus == "completed" && quests[i].nextQuest.Some?;
      |r| == |quests| &&
      (forall j :: 0 <= j < |quests| ==> r[j].id == quests[j].id && r[j].name == quests[j].name) &&
      (!unlocking || quests[i].nextQuest.value != id ==> r[i].status == newStatus) &&
      (unlocking ==> forall j :: 0 <= j < |quests| && quests[j].id == quests[i].nextQuest.value ==> r[j].status == "available") &&
      (forall j :: 0 <= j < |quests| && j != i && !(unlocking && quests[j].id == quests[i].nextQuest.value) ==> r[j] == quests[j])
  {
  }

  // ---------------------------------------------------------------------------
  // add_world_consequence

  function AddConsequence(state: Option<Campaign>, category: string, data: Json): Update<Campaign> {
    if state.None? || state.value.worldConsequences.None? then Declined
    else
      var wc := state.value.worldConsequences.value;
      if category !in wc || data in wc[category] then Declined
      else Saved(state.value.(worldConsequences := Some(wc[category := wc[category] + [data]])))
  }

  /** Data is appended only to an existing category that does not hold it yet,
      so a category without duplicates keeps none; otherwise nothing is saved. */
  lemma AddConsequenceSpec(state: Option<Campaign>, category: string, data: Json)
    ensures AddConsequence(state, category, data).Saved? <==>
      state.Some? && state.value.worldConsequences.Some? &&
      category in state.value.worldConsequences.value && data !in state.value.worldConsequences.value[category]
    ensures AddConsequence(state, category, data).Saved? ==>
      var before := state.value.worldConsequences.value;
      var after := AddConsequence(state, category, data).state.worldConsequences.value;
      after.Keys == before.Keys && after[category] == before[category] + [data] &&
      (NoDuplicates(before[category]) ==> NoDuplicates(after[category])) &&
      forall k :: k in before && k != category ==> after[k] == before[k]
  {
  }

  // ---------------------------------------------------------------------------
  // apply_combat_consequences

  datatype Consequences = Consequences(factionChanges: seq<string>, worldUpdates: seq<string>, questTriggers: seq<string>)

  function AddSoul(c: Campaign): Result<Campaign> {
    if c.mainQuestState.None? then Ok(c)
    else
      var mqs := c.mainQuestState.value;
      if !HasKey(mqs, "dragon_souls_absorbed") then Raised("KeyError")
      else match PlusAssign(Get(mqs, "dragon_souls_absorbed").value, JInt(1))
        case Raised(e) => Raised(e)
        case Ok(v) => Ok(c.(mainQuestState := Some(Put(mqs, "dragon_souls_absorbed", v))))
  }

  /** The state after a fight and the consequences reported; `None` stands for
      the error reply given when there is no campaign state. */
  function Combat(state: Option<Campaign>, enemyType: string, outcome: string): Result<Option<(Campaign, Consequences)>> {
    if state.None? then Ok(None)
    else
      var enemy := Lower(enemyType);
      var victory := outcome == "victory";
      var dragonWin := Contains(enemy, "dragon") && victory && state.value.mainQuestState.Some?;
      var thalmorWin := Contains(enemy, "thalmor") && victory && state.value.thalmorArc.Some?;
      var banditWin := Contains(enemy, "bandit") && victory;
      match (if dragonWin then AddSoul(state.value) else Ok(state.value))
      case Raised(e) => Raised(e)
      case Ok(c1) =>
        var c2 := if thalmorWin then
            var arc := c1.thalmorArc.value; c1.(thalmorArc := Some(arc.(awareness := Min(10, arc.awareness + 1))))
          else c1;
        var consequences := Consequences(
          if thalmorWin then ["Thalmor awareness increased"] else [],
          (if dragonWin then ["Dragon soul absorbed"] else []) + (if banditWin then ["Area safer for travelers"] else []),
          if dragonWin then ["Dragon Rising progression"] else []);
        Ok(Some((c2, consequences)))
  }

  /** A dragon victory adds exactly one soul; a Thalmor victory raises awareness by
      one but never above 10; nothing else in the record changes. */
  lemma CombatSpec(c: Campaign, enemyType: string, outcome: string, souls: int)
    requires c.mainQuestState.Some? && Get(c.mainQuestState.value, "dragon_souls_absorbed") == Some(JInt(souls))
    ensures var r := Combat(Some(c), enemyType, outcome);
      var after := r.value.value.0;
      var dragonWin := Contains(Lower(enemyType), "dragon") && outcome == "victory";
      var thalmorWin := Contains(Lower(enemyType), "thalmor") && outcome == "victory" && c.thalmorArc.Some?;
      r.Ok? && r.value.Some? &&
      Get(after.mainQuestState.value, "dragon_souls_absorbed") == Some(JInt(souls + if dragonWin then 1 else 0)) &&
      (thalmorWin ==> after.thalmorArc.value.awareness == Min(10, c.thalmorArc.value.awareness + 1)) &&
      (thalmorWin && c.thalmorArc.value.awareness <= 10 ==> after.thalmorArc.value.awareness <= 10) &&
      (!thalmorWin ==> after.thalmorArc == c.thalmorArc) &&
      after.(mainQuestState := c.mainQuestState, thalmorArc := c.thalmorArc) == c
  {
  }

  // ---------------------------------------------------------------------------
  // track_faction_quest_progress

  /** `lst.remove(x)` when `x in lst`: drops the first occurrence. */
  function RemoveFirst(s: seq<string>, x: string): (r: seq<string>)
    ensures x in s ==> |r| == |s| - 1
    ensures x !in s ==> r == s
    ensures forall y :: y in r ==> y in s
    ensures forall y :: y in s && y != x ==> y in r
    decreases |s|
  {
    if |s| == 0 then s
    else if s[0] == x then s[1..]
    else [s[0]] + RemoveFirst(s[1..], x)
  }

  lemma DistinctTail<T>(s: seq<T>)
    requires |s| > 0 && NoDuplicates(s)
    ensures NoDuplicates(s[1..]) && s[0] !in s[1..]
  {
    forall j | 0 <= j < |s[1..]|
      ensures s[1..][j] != s[0]
    {
      assert s[1..][j] == s[j + 1];
    }
  }

  /** Removing from a list without duplicates removes every occurrence. */
  lemma {:induction false} RemoveFirstDistinct(s: seq<string>, x: string)
    requires NoDuplicates(s)
    ensures x !in RemoveFirst(s, x) && NoDuplicates(RemoveFirst(s, x))
    decreases |s|
  {
    if |s| > 0 {
      DistinctTail(s);
      if s[0] != x {
        RemoveFirstDistinct(s[1..], x);
        var rest := RemoveFirst(s[1..], x);
        assert s[0] !in rest;
        assert RemoveFirst(s, x) == [s[0]] + rest;
      }
    }
  }

  function AddNew(s: seq<string>, x: string): seq<string> {
    if x in s then s else s + [x]
  }

  const NewFactionRecord := FactionRecord(0, [], [], [])

  function TrackQuest(f: FactionRecord, questId: string, status: string, trustChange: int): FactionRecord {
    var f1 :=
      if status == "started" then f.(active := AddNew(f.active, questId))
      else if status == "completed" then f.(active := RemoveFirst(f.active, questId), completed := AddNew(f.completed, questId))
      else if status == "failed" then f.(active := RemoveFirst(f.active, questId), failed := AddNew(f.failed, questId))
      else f;
    if trustChange != 0 then f1.(trustLevel := Clamp(f1.trustLevel + trustChange, 0, 10)) else f1
  }

  /** The bookkeeping invariant: no list repeats a quest and trust is in `[0, 10]`. */
  predicate WellKept(f: FactionRecord) {
    0 <= f.trustLevel <= 10 && NoDuplicates(f.active) && NoDuplicates(f.completed) && NoDuplicates(f.failed)
  }

  /** Starting adds the quest to the active list; completing or failing moves it
      from the active list to the completed or failed list; no list gains a
      duplicate and trust stays in `[0, 10]`. */
  lemma TrackQuestSpec(f: FactionRecord, questId: string, status: string, trustChange: int)
    requires WellKept(f)
    ensures WellKept(TrackQuest(f, questId, status, trustChange))
    ensures status == "started" ==> questId in TrackQuest(f, questId, status, trustChange).active
    ensures status == "completed" ==> (questId !in TrackQuest(f, questId, status, trustChange).active &&
      questId in TrackQuest(f, questId, status, trustChange).completed)
    ensures status == "failed" ==> (questId !in TrackQuest(f, questId, status, trustChange).active &&
      questId in TrackQuest(f, questId, status, trustChange).failed)
    ensures trustChange == 0 ==> TrackQuest(f, questId, status, trustChange).trustLevel == f.trustLevel
  {
    RemoveFirstDistinct(f.active, questId);
  }

  lemma NewFactionRecordWellKept()
    ensures WellKept(NewFactionRecord)
  {
  }

  /** The record after the update, `None` when there is no campaign state; a
      missing section or faction starts from an empty record. */
  function TrackFaction(state: Option<Campaign>, factionId: string, questId: string, status: string, trustChange: int): Option<Campaign> {
    if state.None? then None
    else
      var fq := state.value.factionQuests.GetOr(map[]);
      var f := if factionId in fq then fq[factionId] else NewFactionRecord;
      Some(state.value.(factionQuests := Some(fq[factionId := TrackQuest(f, questId, status, trustChange)])))
  }

  // ---------------------------------------------------------------------------
  // get_available_faction_quests

  datatype FactionQuest = FactionQuest(id: string, details: Object)

  /** Quest `i` is offered: not done or under way, and first in line or after a completed quest. */
  predicate Offered(quests: seq<FactionQuest>, i: int, completed: seq<string>, active: seq<string>)
    requires 0 <= i < |quests|
  {
    quests[i].id !in completed && quests[i].id !in active &&
    (i == 0 || quests[i - 1].id in completed)
  }

  /** The offered quests among the first `n`, in order. */
  function OfferedUpTo(quests: seq<FactionQuest>, n: nat, completed: seq<string>, active: seq<string>): seq<FactionQuest>
    requires n <= |quests|
  {
    if n == 0 then []
    else OfferedUpTo(quests, n - 1, completed, active) + (if Offered(quests, n - 1, completed, active) then [quests[n - 1]] else [])
  }

  /** Exactly the offered quests are returned: every offered quest is in the
      result, and every result is an offered quest. */
  lemma {:induction false} OfferedUpToSpec(quests: seq<FactionQuest>, n: nat, completed: seq<string>, active: seq<string>)
    requires n <= |quests|
    ensures forall i :: 0 <= i < n && Offered(quests, i, completed, active) ==> quests[i] in OfferedUpTo(quests, n, completed, active)
    ensures forall q :: q in OfferedUpTo(quests, n, completed, active) ==>
      exists i :: 0 <= i < n && Offered(quests, i, completed, active) && quests[i] == q
  {
    if n > 0 {
      OfferedUpToSpec(quests, n - 1, completed, active);
    }
  }

  /** The completed and active lists the offer is computed from: empty when the
      campaign has no record for the faction. */
  function FactionProgress(state: Option<Campaign>, factionId: string): (seq<string>, seq<string>) {
    if state.None? || state.value.factionQuests.None? || factionId !in state.value.factionQuests.value then ([], [])
    else var f := state.value.factionQuests.value[factionId]; (f.completed, f.active)
  }

  // ---------------------------------------------------------------------------
  // advance_to_next_act, get_act_appropriate_quests

  /** `max(progress, (act_number - 1) * 3)`. */
  function RaiseArc(a: StoryArc, actNumber: int): (r: StoryArc)
    ensures r.arcName == a.arcName
    ensures r.progress >= a.progress && r.progress >= (actNumber - 1) * 3
    ensures r.progress == a.progress || r.progress == (actNumber - 1) * 3
  {
    a.(progress := Max(a.progress, (actNumber - 1) * 3))
  }

  function AdvanceAct(state: Option<Campaign>, actNumber: int): Update<Campaign> {
    if state.None? then Declined
    else
      var c := state.value.(currentAct := Some(actNumber));
      match c.storyArcs
      case None => Saved(c)
      case Some(arcs) =>
        Saved(c.(storyArcs := Some(seq(|arcs|, i requires 0 <= i < |arcs| => RaiseArc(arcs[i], actNumber)))))
  }

  /** Arc progress never decreases and reaches at least `(act - 1) * 3`. */
  lemma AdvanceActMonotone(c: Campaign, actNumber: int)
    requires c.storyArcs.Some?
    ensures var before := c.storyArcs.value;
      var after := AdvanceAct(Some(c), actNumber).state.storyArcs.value;
      AdvanceAct(Some(c), actNumber).state.currentAct == Some(actNumber) &&
      |after| == |before| &&
      forall i :: 0 <= i < |before| ==>
        after[i].arcName == before[i].arcName &&
        after[i].progress >= before[i].progress && after[i].progress >= (actNumber - 1) * 3
  {
  }

  /** `state.get('current_act', 1)`, and 1 when there is no campaign state. */
  function CurrentActNumber(state: Option<Campaign>): int {
    if state.None? then 1 else state.value.currentAct.GetOr(1)
  }

  /** `"Act " + ['I', 'II', 'III'][act_number - 1]`, with Python's negative indices. */
  function ActName(actNumber: int): (r: Result<string>)
    ensures r.Ok? <==> -2 <= actNumber <= 3
  {
    var i := actNumber - 1;
    if -3 <= i < 3 then Ok("Act " + ["I", "II", "III"][if i < 0 then i + 3 else i]) else Raised("IndexError")
  }

  /** Acts 1 to 3 get their own numeral; act 0 reads as the last act. */
  lemma ActNames()
    ensures ActName(1) == Ok("Act I") && ActName(2) == Ok("Act II") && ActName(3) == Ok("Act III")
    ensures ActName(0) == Ok("Act III") && ActName(4).Raised?
  {
    assert "Act " + "I" == "Act I";
    assert "Act " + "II" == "Act II";
    assert "Act " + "III" == "Act III";
  }

  /** The quests whose `act` is `act`, in order. */
  function QuestsInAct(quests: seq<Quest>, act: string): (r: seq<Quest>)
    ensures forall q :: q in r <==> q in quests && q.act == Some(act)
    ensures |r| <= |quests|
  {
    if |quests| == 0 then []
    else (if quests[0].act == Some(act) then [quests[0]] else []) + QuestsInAct(quests[1..], act)
  }

  /** `get_act_appropriate_quests`: with no act given, the current act's name is
      computed first, so an out-of-range act number fails even without quest data. */
  function ActAppropriateQuests(state: Option<Campaign>, mainQuests: Option<seq<Quest>>, act: Option<string>): Result<seq<Quest>> {
    var name := if act.Some? then Ok(act.value) else ActName(CurrentActNumber(state));
    match name
    case Raised(e) => Raised(e)
    case Ok(a) => Ok(if mainQuests.None? then [] else QuestsInAct(mainQuests.value, a))
  }

  /** Only an out-of-range current act number with no act given fails; otherwise
      the quests returned are exactly the main quests of the act asked for (or of
      the current act), and none when there is no quest data. */
  lemma ActAppropriateQuestsSpec(state: Option<Campaign>, mainQuests: Option<seq<Quest>>, act: Option<string>)
    ensures ActAppropriateQuests(state, mainQuests, act).Raised? <==>
      act.None? && !(-2 <= CurrentActNumber(state) <= 3)
    ensures ActAppropriateQuests(state, mainQuests, act).Ok? ==>
      var name := if act.Some? then act.value else ActName(CurrentActNumber(state)).value;
      forall q :: q in ActAppropriateQuests(state, mainQuests, act).value <==>
        mainQuests.Some? && q in mainQuests.value && q.act == Some(name)
    ensures ActAppropriateQuests(state, mainQuests, act).Ok? && mainQuests.None? ==>
      ActAppropriateQuests(state, mainQuests, act).value == []
  {
  }

  // ---------------------------------------------------------------------------
  // advance_clock (clock files)

  datatype TrackClock = TrackClock(currentProgress: Option<int>, currentTrust: Option<int>, totalSegments: Option<int>, maxTrust: Option<int>)

  const ClockCategories: set<string> := {"civil_war", "thalmor", "faction_trust"}

  /** `total_segments`, else `max_trust`, else 10. */
  function ClockMax(clock: TrackClock): int {
    if clock.totalSegments.Some? then clock.totalSegments.value else clock.maxTrust.GetOr(10)
  }

  /** `current_progress`, else `current_trust`, is clamped into `[0, max]`; a clock
      with neither fails when its new value is reported. */
  function AdvanceTrackClock(clock: TrackClock, segments: int): (r: Result<TrackClock>)
    ensures r.Ok? <==> clock.currentProgress.Some? || clock.currentTrust.Some?
    ensures r.Ok? && ClockMax(clock) >= 0 && clock.currentProgress.Some? ==>
      r.value.currentProgress.Some? && 0 <= r.value.currentProgress.value <= ClockMax(clock)
    ensures r.Ok? && ClockMax(clock) >= 0 && clock.currentProgress.None? ==>
      r.value.currentTrust.Some? && 0 <= r.value.currentTrust.value <= ClockMax(clock)
    ensures r.Ok? ==> ClockMax(r.value) == ClockMax(clock)
  {
    var m := ClockMax(clock);
    if clock.currentProgress.Some? then Ok(clock.(currentProgress := Some(Clamp(clock.currentProgress.value + segments, 0, m))))
    else if clock.currentTrust.Some? then Ok(clock.(currentTrust := Some(Clamp(clock.currentTrust.value + segments, 0, m))))
    else Raised("UnboundLocalError")
  }

  /** Advancing a clock leaves every other clock in its file alone. The timestamp
      goes under the `<category>_clocks` section, which a Thalmor file does not
      have: its clocks sit under `thalmor_influence_clocks`, so a Thalmor advance
      raises `KeyError` before anything is saved. */
  function AdvanceClockFile(files: map<string, map<string, TrackClock>>, category: string, name: string, segments: int): (r: Update<map<string, map<string, TrackClock>>>)
    ensures r.Declined? <==> category !in ClockCategories || category !in files || name !in files[category]
    ensures !r.Declined? && category == "thalmor" ==> r == Failed("KeyError")
    ensures r.Saved? <==> (!r.Declined? && category != "thalmor" &&
      (files[category][name].currentProgress.Some? || files[category][name].currentTrust.Some?))
    ensures r.Saved? ==> (r.state.Keys == files.Keys && r.state[category].Keys == files[category].Keys &&
      r.state[category][name] == AdvanceTrackClock(files[category][name], segments).value &&
      (forall k :: k in files && k != category ==> r.state[k] == files[k]) &&
      (forall n :: n in files[category] && n != name ==> r.state[category][n] == files[category][n]))
  {
    if category !in ClockCategories || category !in files || name !in files[category] then Declined
    else if category == "thalmor" then Failed("KeyError")
    else match AdvanceTrackClock(files[category][name], segments)
      case Raised(e) => Failed(e)
      case Ok(clock) => Saved(files[category := files[category][name := clock]])
  }

  // ---------------------------------------------------------------------------
  // get_starting_companion

  /** The first companion with the given name. */
  function FindCompanion(companions: seq<Companion>, name: string): (r: Option<Companion>)
    ensures r.Some? ==> r.value in companions && r.value.name == name
    ensures r.None? <==> forall c :: c in companions ==> c.name != name
    decreases |companions|
  {
    if |companions| == 0 then None
    else if companions[0].name == name then Some(companions[0])
    else FindCompanion(companions[1..], name)
  }

  /** `i` is the first position in the party holding a companion with the name. */
  predicate FirstNamed(companions: seq<Companion>, name: string, i: int) {
    0 <= i < |companions| && companions[i].name == name &&
    forall j :: 0 <= j < i ==> companions[j].name != name
  }

  /** The search stops at the first companion with the name. */
  lemma {:induction false} FindCompanionFirst(companions: seq<Companion>, name: string)
    ensures forall i :: FirstNamed(companions, name, i) ==> FindCompanion(companions, name) == Some(companions[i])
    decreases |companions|
  {
    forall i | FirstNamed(companions, name, i)
      ensures FindCompanion(companions, name) == Some(companions[i])
    {
      if i > 0 {
        assert companions[0].name != name;
        assert FirstNamed(companions[1..], name, i - 1);
        FindCompanionFirst(companions[1..], name);
      }
    }
  }

  /** The companion chosen at the Helgen escape, when one was chosen and is in the party. */
  function StartingCompanion(state: Option<Campaign>): (r: Option<Companion>)
    ensures r.Some? ==> (state.Some? && state.value.branchingDecisions.Some? &&
      "helgen_escape_companion" in state.value.branchingDecisions.value &&
      r.value.name == state.value.branchingDecisions.value["helgen_escape_companion"] &&
      r.value.name != "" && r.value.name != "undecided" &&
      state.value.companions.Some? && r.value in state.value.companions.value)
  {
    if state.None? then None
    else
      var decisions := state.value.branchingDecisions.GetOr(map[]);
      if "helgen_escape_companion" !in decisions then None
      else
        var chosen := decisions["helgen_escape_companion"];
        if chosen == "" || chosen == "undecided" then None
        else if state.value.companions.None? then None
        else FindCompanion(state.value.companions.value, chosen)
  }

  /** A companion is returned exactly when the Helgen choice is recorded, is
      neither empty nor "undecided", and some party member bears that name; the
      one returned is the first such member. */
  lemma StartingCompanionSpec(state: Option<Campaign>)
    ensures StartingCompanion(state).Some? <==>
      state.Some? && state.value.branchingDecisions.Some? &&
      "helgen_escape_companion" in state.value.branchingDecisions.value &&
      var chosen := state.value.branchingDecisions.value["helgen_escape_companion"];
      chosen != "" && chosen != "undecided" && state.value.companions.Some? &&
      exists c :: c in state.value.companions.value && c.name == chosen
    ensures StartingCompanion(state).Some? ==>
      var party := state.value.companions.value;
      forall i :: FirstNamed(party, state.value.branchingDecisions.value["helgen_escape_companion"], i) ==>
        StartingCompanion(state) == Some(party[i])
  {
    if StartingCompanion(state).Some? {
      FindCompanionFirst(state.value.companions.value, state.value.branchingDecisions.value["helgen_escape_companion"]);
    }
  }
}
