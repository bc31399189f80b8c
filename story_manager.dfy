/** The story manager. Its fields stand for the files it loads and saves: the
    campaign state, the main questline and the clock files (by category). Each
    method loads, changes the loaded record step by step and saves it; a method
    that declines or fails saves nothing. */
module Story {
  import opened Wrappers
  import opened Json
  import opened Bounds
  import opened StoryState

  /** The reply of an operation that returns `True` or `False` or raises. */
  function Reply<T>(u: Update<T>): Result<bool> {
    match u
    case Declined => Ok(false)
    case Failed(e) => Raised(e)
    case Saved(_) => Ok(true)
  }

  /** The file after an operation: only a saved state replaces it. */
  function After<T>(before: Option<T>, u: Update<T>): Option<T> {
    if u.Saved? then Some(u.state) else before
  }

  class StoryManager {
    /** `campaign_state.json`, `None` when the file does not exist. */
    var campaign: Option<Campaign>
    /** The quests of `main_quests.json`, `None` when the file does not exist. */
    var mainQuests: Option<seq<Quest>>
    /** The clocks of each existing clock file, by category. */
    var clockFiles: map<string, map<string, TrackClock>>

    constructor(campaign: Option<Campaign>, mainQuests: Option<seq<Quest>>, clockFiles: map<string, map<string, TrackClock>>)
      ensures this.campaign == campaign && this.mainQuests == mainQuests && this.clockFiles == clockFiles
    {
      this.campaign := campaign;
      this.mainQuests := mainQuests;
      this.clockFiles := clockFiles;
    }

    /** `record_branching_decision`. */
    method RecordBranchingDecision(decisionKey: string, choice: string) returns (r: Result<bool>)
      modifies this
      ensures r == Reply(RecordDecision(old(campaign), decisionKey, choice))
      ensures campaign == After(old(campaign), RecordDecision(old(campaign), decisionKey, choice))
      ensures mainQuests == old(mainQuests) && clockFiles == old(clockFiles)
    {
      if campaign.None? || campaign.value.branchingDecisions.None? {
        return Ok(false);
      }
      var state := campaign.value;
      state := state.(branchingDecisions := Some(state.branchingDecisions.value[decisionKey := choice]));
      if state.worldConsequences.Some? {
        var wc := state.worldConsequences.value;
        if "major_choices" !in wc {
          return Raised("KeyError");
        }
        state := state.(worldConsequences := Some(wc["major_choices" := wc["major_choices"] + [ChoiceEntry(decisionKey, choice)]]));
      }
      campaign := Some(state);
      return Ok(true);
    }

    /** `update_civil_war_state`. */
    method UpdateCivilWarState(alliance: Option<string>, battleResult: Object) returns (r: Result<bool>)
      modifies this
      ensures r == Reply(UpdateCivilWar(old(campaign), alliance, battleResult))
      ensures campaign == After(old(campaign), UpdateCivilWar(old(campaign), alliance, battleResult))
      ensures mainQuests == old(mainQuests) && clockFiles == old(clockFiles)
    {
      if campaign.None? {
        return Ok(false);
      }
      var state := campaign.value;
      if alliance.Some? && |alliance.value| > 0 {
        if state.civilWar.None? {
          return Raised("KeyError");
        }
        state := state.(civilWar := Some(state.civilWar.value.(playerAlliance := alliance.value)));
      }
      if |battleResult| > 0 {
        if state.civilWar.None? {
          return Raised("KeyError");
        }
        var battleName := GetOr(battleResult, "battle_name", JNull);
        var winner := GetOr(battleResult, "winner", JNull);
        var cw := state.civilWar.value;
        if winner == JStr("imperial") {
          cw := cw.(imperialVictories := cw.imperialVictories + 1);
        } else if winner == JStr("stormcloak") {
          cw := cw.(stormcloakVictories := cw.stormcloakVictories + 1);
        }
        cw := cw.(keyBattlesCompleted := cw.keyBattlesCompleted + [battleName]);
        if !battleName.JStr? {
          return Raised("AttributeError");
        }
        if Text.Contains(Text.Lower(battleName.s), "whiterun") {
          cw := cw.(battleOfWhiterunStatus := "completed");
        }
        state := state.(civilWar := Some(cw));
      }
      campaign := Some(state);
      return Ok(true);
    }

    /** `update_main_quest_state`: the keyword arguments, in order. */
    method UpdateMainQuestState(kwargs: seq<Member>) returns (r: Result<bool>)
      modifies this
      ensures r == Reply(UpdateMainQuest(old(campaign), kwargs))
      ensures campaign == After(old(campaign), UpdateMainQuest(old(campaign), kwargs))
      ensures mainQuests == old(mainQuests) && clockFiles == old(clockFiles)
    {
      if campaign.None? || campaign.value.mainQuestState.None? {
        return Ok(false);
      }
      var mqs := campaign.value.mainQuestState.value;
      ghost var start := mqs;
      var i := 0;
      while i < |kwargs|
        invariant 0 <= i <= |kwargs|
        invariant ApplyKwargs(start, kwargs) == ApplyKwargs(mqs, kwargs[i..])
      {
        assert kwargs[i..][0] == kwargs[i] && kwargs[i..][1..] == kwargs[i + 1..];
        var key := kwargs[i].key;
        var value := kwargs[i].value;
        if HasKey(mqs, key) {
          var current := Get(mqs, key).value;
          if key == "shouts_learned" && value.JList? {
            var shouts := value.items;
            var learned := current;
            var j := 0;
            while j < |shouts|
              invariant 0 <= j <= |shouts|
              invariant MergeShouts(current, shouts) == MergeShouts(learned, shouts[j..])
            {
              assert shouts[j..][0] == shouts[j] && shouts[j..][1..] == shouts[j + 1..];
              var found := In(shouts[j], learned);
              if found.Raised? {
                return Raised(found.exception);
              }
              if !found.value {
                if !learned.JList? {
                  return Raised("AttributeError");
                }
                learned := JList(learned.items + [shouts[j]]);
              }
              j := j + 1;
            }
            assert shouts[j..] == [];
            mqs := Put(mqs, key, learned);
          } else if key == "dragon_souls_absorbed" {
            var sum := PlusAssign(current, value);
            if sum.Raised? {
              return Raised(sum.exception);
            }
            mqs := Put(mqs, key, sum.value);
          } else {
            mqs := Put(mqs, key, value);
          }
        }
        i := i + 1;
      }
      campaign := Some(campaign.value.(mainQuestState := Some(mqs)));
      return Ok(true);
    }

    /** `update_thalmor_arc`. */
    method UpdateThalmorArc(plotId: string, progressChange: int, discovery: Option<string>) returns (r: bool)
      modifies this
      ensures r == UpdateThalmor(old(campaign), plotId, progressChange, discovery).Saved?
      ensures campaign == After(old(campaign), UpdateThalmor(old(campaign), plotId, progressChange, discovery))
      ensures mainQuests == old(mainQuests) && clockFiles == old(clockFiles)
    {
      if campaign.None? || campaign.value.thalmorArc.None? {
        return false;
      }
      var arc := campaign.value.thalmorArc.value;
      var plots := arc.activePlots;
      var i := 0;
      while i < |plots|
        invariant 0 <= i <= |plots| == |arc.activePlots|
        invariant forall j :: 0 <= j < i ==> plots[j] == ClampPlot(arc.activePlots[j], plotId, progressChange)
        invariant forall j :: i <= j < |plots| ==> plots[j] == arc.activePlots[j]
      {
        if plots[i].plotId == plotId {
          plots := plots[i := plots[i].(progress := Max(0, Min(plots[i].clockSegments, plots[i].progress + progressChange)))];
        }
        i := i + 1;
      }
      assert plots == seq(|arc.activePlots|, j requires 0 <= j < |arc.activePlots| => ClampPlot(arc.activePlots[j], plotId, progressChange));
      var discovered := arc.schemesDiscovered;
      if discovery.Some? && |discovery.value| > 0 {
        discovered := discovered + [discovery.value];
      }
      campaign := Some(campaign.value.(thalmorArc := Some(arc.(activePlots := plots, schemesDiscovered := discovered))));
      return true;
    }

    /** `advance_quest`: writes the questline file when the id is found. */
    method AdvanceQuest(questId: string, newStatus: string) returns (r: bool)
      modifies this
      ensures mainQuests.None? ==> !r
      ensures old(mainQuests).Some? ==> r == QuestAdvanced(old(mainQuests).value, questId, newStatus).Some?
      ensures r ==> old(mainQuests).Some? && mainQuests == QuestAdvanced(old(mainQuests).value, questId, newStatus)
      ensures !r ==> mainQuests == old(mainQuests)
      ensures campaign == old(campaign) && clockFiles == old(clockFiles)
    {
      if mainQuests.None? {
        return false;
      }
      var quests := mainQuests.value;
      var i := 0;
      while i < |quests|
        invariant 0 <= i <= |quests|
        invariant forall j :: 0 <= j < i ==> quests[j].id != questId
      {
        if quests[i].id == questId {
          assert i == FirstQuest(quests, questId) by {
            FirstQuestIs(quests, questId, i);
          }
          var quest := quests[i];
          quests := quests[i := quest.(status := newStatus)];
          if newStatus == "completed" && quest.nextQuest.Some? {
            var nextId := quest.nextQuest.value;
            ghost var marked := quests;
            var k := 0;
            while k < |quests|
              invariant 0 <= k <= |quests| == |marked|
              invariant forall j :: 0 <= j < k ==> quests[j] == Unlock(marked, nextId)[j]
              invariant forall j :: k <= j < |quests| ==> quests[j] == marked[j]
            {
              if quests[k].id == nextId {
                quests := quests[k := quests[k].(status := "available")];
              }
              k := k + 1;
            }
            assert quests == Unlock(marked, nextId);
          }
          mainQuests := Some(quests);
          return true;
        }
        i := i + 1;
      }
      return false;
    }

    /** `add_world_consequence`. */
    method AddWorldConsequence(consequenceType: string, data: Json) returns (r: bool)
      modifies this
      ensures r == AddConsequence(old(campaign), consequenceType, data).Saved?
      ensures campaign == After(old(campaign), AddConsequence(old(campaign), consequenceType, data))
      ensures mainQuests == old(mainQuests) && clockFiles == old(clockFiles)
    {
      if campaign.None? || campaign.value.worldConsequences.None? {
        return false;
      }
      var wc := campaign.value.worldConsequences.value;
      if consequenceType in wc {
        if data !in wc[consequenceType] {
          wc := wc[consequenceType := wc[consequenceType] + [data]];
          campaign := Some(campaign.value.(worldConsequences := Some(wc)));
          return true;
        }
      }
      return false;
    }

    /** `apply_combat_consequences`: `None` is the error reply for a missing state. */
    method ApplyCombatConsequences(enemyType: string, outcome: string) returns (r: Result<Option<Consequences>>)
      modifies this
      ensures var spec := Combat(old(campaign), enemyType, outcome);
        r == (match spec case Raised(e) => Raised(e) case Ok(o) => Ok(if o.None? then None else Some(o.value.1)))
      ensures var spec := Combat(old(campaign), enemyType, outcome);
        campaign == if spec.Ok? && spec.value.Some? then Some(spec.value.value.0) else old(campaign)
      ensures mainQuests == old(mainQuests) && clockFiles == old(clockFiles)
    {
      if campaign.None? {
        return Ok(None);
      }
      var state := campaign.value;
      var factionChanges: seq<string> := [];
      var worldUpdates: seq<string> := [];
      var questTriggers: seq<string> := [];
      var enemy := Text.Lower(enemyType);
      ghost var dragonWin := Text.Contains(enemy, "dragon") && outcome == "victory" && state.mainQuestState.Some?;
      ghost var thalmorWin := Text.Contains(enemy, "thalmor") && outcome == "victory" && state.thalmorArc.Some?;
      ghost var banditWin := Text.Contains(enemy, "bandit") && outcome == "victory";
      if Text.Contains(enemy, "dragon") && outcome == "victory" && state.mainQuestState.Some? {
        var mqs := state.mainQuestState.value;
        if !HasKey(mqs, "dragon_souls_absorbed") {
          return Raised("KeyError");
        }
        var souls := PlusAssign(Get(mqs, "dragon_souls_absorbed").value, JInt(1));
        if souls.Raised? {
          return Raised(souls.exception);
        }
        state := state.(mainQuestState := Some(Put(mqs, "dragon_souls_absorbed", souls.value)));
        worldUpdates := worldUpdates + ["Dragon soul absorbed"];
        questTriggers := questTriggers + ["Dragon Rising progression"];
      }
      assert (if dragonWin then AddSoul(campaign.value) else Ok(campaign.value)) == Ok(state);
      assert state.thalmorArc == campaign.value.thalmorArc;
      if Text.Contains(enemy, "thalmor") && outcome == "victory" && state.thalmorArc.Some? {
        var arc := state.thalmorArc.value;
        state := state.(thalmorArc := Some(arc.(awareness := Min(10, arc.awareness + 1))));
        factionChanges := factionChanges + ["Thalmor awareness increased"];
      }
      if Text.Contains(enemy, "bandit") && outcome == "victory" {
        worldUpdates := worldUpdates + ["Area safer for travelers"];
      }
      assert worldUpdates == (if dragonWin then ["Dragon soul absorbed"] else []) + (if banditWin then ["Area safer for travelers"] else []);
      assert factionChanges == if thalmorWin then ["Thalmor awareness increased"] else [];
      assert questTriggers == if dragonWin then ["Dragon Rising progression"] else [];
      assert Combat(campaign, enemyType, outcome) == Ok(Some((state, Consequences(factionChanges, worldUpdates, questTriggers))));
      campaign := Some(state);
      return Ok(Some(Consequences(factionChanges, worldUpdates, questTriggers)));
    }

    /** `track_faction_quest_progress`: the faction's record after the update,
        `None` for the error reply when there is no campaign state. */
    method TrackFactionQuestProgress(factionId: string, questId: string, status: string, trustChange: int)
      returns (r: Option<FactionRecord>)
      modifies this
      ensures campaign == if old(campaign).None? then old(campaign) else TrackFaction(old(campaign), factionId, questId, status, trustChange)
      ensures r.None? <==> old(campaign).None?
      ensures r.Some? ==> (campaign.Some? && campaign.value.factionQuests.Some? &&
        factionId in campaign.value.factionQuests.value && r.value == campaign.value.factionQuests.value[factionId])
      ensures mainQuests == old(mainQuests) && clockFiles == old(clockFiles)
    {
      if campaign.None? {
        return None;
      }
      var state := campaign.value;
      if state.factionQuests.None? {
        state := state.(factionQuests := Some(map[]));
      }
      var quests := state.factionQuests.value;
      if factionId !in quests {
        quests := quests[factionId := FactionRecord(0, [], [], [])];
      }
      var f := quests[factionId];
      if status == "started" {
        if questId !in f.active {
          f := f.(active := f.active + [questId]);
        }
      } else if status == "completed" {
        if questId in f.active {
          f := f.(active := RemoveFirst(f.active, questId));
        }
        if questId !in f.completed {
          f := f.(completed := f.completed + [questId]);
        }
      } else if status == "failed" {
        if questId in f.active {
          f := f.(active := RemoveFirst(f.active, questId));
        }
        if questId !in f.failed {
          f := f.(failed := f.failed + [questId]);
        }
      }
      if trustChange != 0 {
        f := f.(trustLevel := Max(0, Min(10, f.trustLevel + trustChange)));
      }
      assert f == TrackQuest(quests[factionId], questId, status, trustChange);
      assert quests[factionId := f] == state.factionQuests.value[factionId := f];
      campaign := Some(state.(factionQuests := Some(quests[factionId := f])));
      return Some(f);
    }

    /** `get_available_faction_quests`: `quests` is the faction's quest list as the
        quest query returned it, `None` when the faction was not among the results. */
    method GetAvailableFactionQuests(factionId: string, quests: Option<seq<FactionQuest>>) returns (available: seq<FactionQuest>)
      ensures quests.None? ==> available == []
      ensures quests.Some? ==> (available ==
        OfferedUpTo(quests.value, |quests.value|, FactionProgress(campaign, factionId).0, FactionProgress(campaign, factionId).1))
    {
      var completed: seq<string> := [];
      var active: seq<string> := [];
      if campaign.Some? && campaign.value.factionQuests.Some? && factionId in campaign.value.factionQuests.value {
        completed := campaign.value.factionQuests.value[factionId].completed;
        active := campaign.value.factionQuests.value[factionId].active;
      }
      if quests.None? {
        return [];
      }
      var qs := quests.value;
      available := [];
      var i := 0;
      while i < |qs|
        invariant 0 <= i <= |qs|
        invariant available == OfferedUpTo(qs, i, completed, active)
      {
        var questId := qs[i].id;
        if questId !in completed && questId !in active {
          if i == 0 {
            available := available + [qs[i]];
          } else if qs[i - 1].id in completed {
            available := available + [qs[i]];
          }
        }
        i := i + 1;
      }
    }

    /** `get_current_act_number`: the recorded act, and act 1 when the campaign
        or its act is missing. */
    function GetCurrentActNumber(): (n: int)
      reads this
      ensures campaign.Some? && campaign.value.currentAct.Some? ==> n == campaign.value.currentAct.value
      ensures campaign.None? || campaign.value.currentAct.None? ==> n == 1
    {
      CurrentActNumber(campaign)
    }

    /** `advance_to_next_act`. */
    method AdvanceToNextAct(actNumber: int) returns (r: bool)
      modifies this
      ensures r == AdvanceAct(old(campaign), actNumber).Saved?
      ensures campaign == After(old(campaign), AdvanceAct(old(campaign), actNumber))
      ensures mainQuests == old(mainQuests) && clockFiles == old(clockFiles)
    {
      if campaign.None? {
        return false;
      }
      var state := campaign.value.(currentAct := Some(actNumber));
      if state.storyArcs.Some? {
        var arcs := state.storyArcs.value;
        ghost var before := arcs;
        var i := 0;
        while i < |arcs|
          invariant 0 <= i <= |arcs| == |before|
          invariant forall j :: 0 <= j < i ==> arcs[j] == RaiseArc(before[j], actNumber)
          invariant forall j :: i <= j < |arcs| ==> arcs[j] == before[j]
        {
          arcs := arcs[i := arcs[i].(progress := Max(arcs[i].progress, (actNumber - 1) * 3))];
          i := i + 1;
        }
        assert arcs == seq(|before|, j requires 0 <= j < |before| => RaiseArc(before[j], actNumber));
        state := state.(storyArcs := Some(arcs));
      }
      campaign := Some(state);
      return true;
    }

    /** `get_act_appropriate_quests`: the main quests of the act given, or of the
        current act; the act name lookup fails for an act number outside -2..3. */
    function GetActAppropriateQuests(act: Option<string>): (r: Result<seq<Quest>>)
      reads this
      ensures r.Raised? <==> act.None? && !(-2 <= GetCurrentActNumber() <= 3)
      ensures r.Ok? ==>
        var name := if act.Some? then act.value else ActName(GetCurrentActNumber()).value;
        forall q :: q in r.value <==> mainQuests.Some? && q in mainQuests.value && q.act == Some(name)
    {
      ActAppropriateQuestsSpec(campaign, mainQuests, act);
      ActAppropriateQuests(campaign, mainQuests, act)
    }

    /** `advance_clock`. */
    method AdvanceClock(clockCategory: string, clockName: string, segments: int) returns (r: Result<bool>)
      modifies this
      ensures r == Reply(AdvanceClockFile(old(clockFiles), clockCategory, clockName, segments))
      ensures clockFiles == if AdvanceClockFile(old(clockFiles), clockCategory, clockName, segments).Saved?
        then AdvanceClockFile(old(clockFiles), clockCategory, clockName, segments).state else old(clockFiles)
      ensures campaign == old(campaign) && mainQuests == old(mainQuests)
    {
      if clockCategory !in ClockCategories {
        return Ok(false);
      }
      if clockCategory !in clockFiles {
        return Ok(false);
      }
      var clocks := clockFiles[clockCategory];
      if clockName !in clocks {
        return Ok(false);
      }
      var clock := clocks[clockName];
      var maxValue := if clock.totalSegments.Some? then clock.totalSegments.value else clock.maxTrust.GetOr(10);
      var advanced := false;
      if clock.currentProgress.Some? {
        clock := clock.(currentProgress := Some(Max(0, Min(maxValue, clock.currentProgress.value + segments))));
        advanced := true;
      } else if clock.currentTrust.Some? {
        clock := clock.(currentTrust := Some(Max(0, Min(maxValue, clock.currentTrust.value + segments))));
        advanced := true;
      }
      if clockCategory == "thalmor" {
        // the timestamp is written under `thalmor_clocks`, which the file lacks
        return Raised("KeyError");
      }
      if !advanced {
        // the file is saved unchanged; reporting the new progress then fails
        return Raised("UnboundLocalError");
      }
      clockFiles := clockFiles[clockCategory := clocks[clockName := clock]];
      return Ok(true);
    }

    /** `get_starting_companion`. */
    method GetStartingCompanion() returns (companion: Option<Companion>)
      ensures companion == StartingCompanion(campaign)
    {
      if campaign.None? {
        return None;
      }
      var decisions := campaign.value.branchingDecisions.GetOr(map[]);
      if "helgen_escape_companion" !in decisions {
        return None;
      }
      var chosen := decisions["helgen_escape_companion"];
      if chosen == "" || chosen == "undecided" {
        return None;
      }
      if campaign.value.companions.Some? {
        var companions := campaign.value.companions.value;
        var i := 0;
        while i < |companions|
          invariant 0 <= i <= |companions|
          invariant FindCompanion(companions, chosen) == FindCompanion(companions[i..], chosen)
        {
          assert companions[i..][0] == companions[i] && companions[i..][1..] == companions[i + 1..];
          if companions[i].name == chosen {
            return Some(companions[i]);
          }
          i := i + 1;
        }
      }
      return None;
    }
  }

  /** The first index holding the id is the one `FirstQuest` finds. */
  lemma {:induction false} FirstQuestIs(quests: seq<Quest>, id: string, i: nat)
    requires i < |quests| && quests[i].id == id
    requires forall j :: 0 <= j < i ==> quests[j].id != id
    ensures FirstQuest(quests, id) == i
  {
    if i > 0 {
      assert quests[0].id != id;
      assert quests[1..][i - 1] == quests[i];
      forall j | 0 <= j < i - 1
        ensures quests[1..][j].id != id
      {
        assert quests[1..][j] == quests[j + 1];
      }
      FirstQuestIs(quests[1..], id, i - 1);
    }
  }
}
