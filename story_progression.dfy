/** The story progression manager. Its fields stand for
    `world_state/current_state.json` and the faction files of the `factions`
    directory, by file name. */
module StoryProgression {
  import opened Wrappers
  import opened Bounds

  /** The morale of one faction in `faction_standings`, in the file's order. */
  datatype Standing = Standing(faction: string, morale: int)

  /** The parts of the world state the manager reads and writes. */
  datatype WorldState = WorldState(
    inGameDaysPassed: int,
    dragonCrisisStatus: string,
    dragonAttacks: seq<string>,
    factionStandings: seq<Standing>,
    skyrimStatus: string,
    majorEvents: seq<string>)

  datatype FactionClock = FactionClock(name: string, progress: int, segments: int)

  /** A faction file; `clock` is a key it may lack. */
  datatype FactionFile = FactionFile(name: string, clock: Option<FactionClock>)

  /** The events `generate_story_events` reports; their descriptions are fixed texts. */
  datatype StoryEvent = DragonSighting | LowMorale(faction: string) | CivilWarSkirmish

  function CivilWarInProgress(): string { "Civil War in progress" }

  function CrisisBeginning(): string { "Beginning" }

  /** One low-morale event per faction below 40, in the order of the standings. */
  function LowMoraleEvents(standings: seq<Standing>): (r: seq<StoryEvent>)
    ensures |r| <= |standings|
  {
    if |standings| == 0 then []
    else LowMoraleEvents(standings[..|standings| - 1]) + Flagged(standings[|standings| - 1])
  }

  /** The event one standing contributes. */
  function Flagged(s: Standing): seq<StoryEvent> {
    if s.morale < 40 then [LowMorale(s.faction)] else []
  }

  /** The low-morale list holds low-morale events only. */
  lemma {:induction false} LowMoraleOnly(standings: seq<Standing>)
    ensures forall e :: e in LowMoraleEvents(standings) ==> e.LowMorale?
  {
    if |standings| > 0 {
      LowMoraleOnly(standings[..|standings| - 1]);
    }
  }

  /** A faction gets a low-morale event exactly when some standing of that name is
      below 40. */
  lemma {:induction false} LowMoraleSpec(standings: seq<Standing>, faction: string)
    ensures LowMorale(faction) in LowMoraleEvents(standings) <==>
      exists i :: 0 <= i < |standings| && standings[i].faction == faction && standings[i].morale < 40
  {
    if |standings| > 0 {
      var init := standings[..|standings| - 1];
      LowMoraleSpec(init, faction);
      if exists i :: 0 <= i < |init| && init[i].faction == faction && init[i].morale < 40 {
        var i :| 0 <= i < |init| && init[i].faction == faction && init[i].morale < 40;
        assert standings[i] == init[i];
      }
      if exists i :: 0 <= i < |standings| && standings[i].faction == faction && standings[i].morale < 40 {
        var i :| 0 <= i < |standings| && standings[i].faction == faction && standings[i].morale < 40;
        if i < |init| {
          assert init[i] == standings[i];
        }
      }
    }
  }

  /** `generate_story_events` on a loaded state. */
  function StoryEvents(state: WorldState): seq<StoryEvent> {
    (if state.dragonCrisisStatus == CrisisBeginning() then [DragonSighting] else []) +
    LowMoraleEvents(state.factionStandings) +
    (if state.skyrimStatus == CivilWarInProgress() then [CivilWarSkirmish] else [])
  }

  /** The dragon sighting comes first exactly when the crisis is beginning, the
      civil-war event last exactly when the war is in progress, and the low-morale
      events sit between them in the order of the standings. */
  lemma StoryEventsSpec(state: WorldState)
    ensures var events := StoryEvents(state);
      (DragonSighting in events <==> state.dragonCrisisStatus == CrisisBeginning()) &&
      (DragonSighting in events ==> events[0] == DragonSighting) &&
      (CivilWarSkirmish in events <==> state.skyrimStatus == CivilWarInProgress()) &&
      (CivilWarSkirmish in events ==> events[|events| - 1] == CivilWarSkirmish) &&
      |events| == (if state.dragonCrisisStatus == CrisisBeginning() then 1 else 0) +
        |LowMoraleEvents(state.factionStandings)| + (if state.skyrimStatus == CivilWarInProgress() then 1 else 0)
  {
    var low := LowMoraleEvents(state.factionStandings);
    LowMoraleOnly(state.factionStandings);
    assert DragonSighting !in low && CivilWarSkirmish !in low;
  }

  /** The rumours `generate_rumors` reports; their wording is fixed. */
  datatype Rumor = DragonsReturned | DragonTongue | StormcloaksGaining | TulliusOffensive | FactionPlotting(faction: string)

  /** `progress > segments * 0.5`, in integers. */
  predicate PastHalf(c: FactionClock) {
    2 * c.progress > c.segments
  }

  /** One rumour per listed faction whose clock is past half way. */
  function FactionRumors(factions: map<string, FactionFile>, listing: seq<string>): (r: seq<Rumor>)
    requires forall id :: id in listing ==> id in factions
    ensures |r| <= |listing|
  {
    if |listing| == 0 then []
    else
      FactionRumors(factions, listing[..|listing| - 1]) + Plot(factions[listing[|listing| - 1]])
  }

  /** The rumour one faction file contributes. */
  function Plot(f: FactionFile): seq<Rumor> {
    if f.clock.Some? && PastHalf(f.clock.value) then [FactionPlotting(f.name)] else []
  }

  /** The faction rumours are plotting rumours only. */
  lemma {:induction false} FactionRumorsOnly(factions: map<string, FactionFile>, listing: seq<string>)
    requires forall id :: id in listing ==> id in factions
    ensures forall x :: x in FactionRumors(factions, listing) ==> x.FactionPlotting?
  {
    if |listing| > 0 {
      FactionRumorsOnly(factions, listing[..|listing| - 1]);
    }
  }

  /** `generate_rumors` on a loaded state, the faction files taken in `listing` order. */
  function Rumors(state: WorldState, factions: map<string, FactionFile>, listing: seq<string>): seq<Rumor>
    requires forall id :: id in listing ==> id in factions
  {
    (if |state.dragonAttacks| > 0 then [DragonsReturned, DragonTongue] else []) +
    (if state.skyrimStatus == CivilWarInProgress() then [StormcloaksGaining, TulliusOffensive] else []) +
    FactionRumors(factions, listing)
  }

  /** The two dragon rumours open the list exactly when there were dragon attacks,
      the two civil-war rumours follow exactly when the war is in progress, and a
      listed faction's rumour appears exactly when its clock is past half way. */
  lemma RumorsSpec(state: WorldState, factions: map<string, FactionFile>, listing: seq<string>)
    requires forall id :: id in listing ==> id in factions
    ensures var r := Rumors(state, factions, listing);
      (DragonsReturned in r <==> |state.dragonAttacks| > 0) &&
      (DragonTongue in r <==> |state.dragonAttacks| > 0) &&
      (|state.dragonAttacks| > 0 ==> r[..2] == [DragonsReturned, DragonTongue]) &&
      (StormcloaksGaining in r <==> state.skyrimStatus == CivilWarInProgress()) &&
      (TulliusOffensive in r <==> state.skyrimStatus == CivilWarInProgress())
  {
    var f := FactionRumors(factions, listing);
    FactionRumorsOnly(factions, listing);
    assert DragonsReturned !in f && DragonTongue !in f && StormcloaksGaining !in f && TulliusOffensive !in f;
  }

  /** The faction file names the faction and its clock is past half way. */
  predicate Plotting(f: FactionFile, name: string) {
    f.name == name && f.clock.Some? && PastHalf(f.clock.value)
  }

  /** A faction gets a rumour exactly when some listed file of that faction has a
      clock past half way. */
  lemma {:induction false} FactionRumorSpec(factions: map<string, FactionFile>, listing: seq<string>, name: string)
    requires forall id :: id in listing ==> id in factions
    ensures FactionPlotting(name) in FactionRumors(factions, listing) <==>
      exists i :: 0 <= i < |listing| && Plotting(factions[listing[i]], name)
  {
    if |listing| > 0 {
      var init := listing[..|listing| - 1];
      FactionRumorSpec(factions, init, name);
      if exists i :: 0 <= i < |init| && Plotting(factions[init[i]], name) {
        var i :| 0 <= i < |init| && Plotting(factions[init[i]], name);
        assert listing[i] == init[i];
      }
      if exists i :: 0 <= i < |listing| && Plotting(factions[listing[i]], name) {
        var i :| 0 <= i < |listing| && Plotting(factions[listing[i]], name);
        if i < |init| {
          assert init[i] == listing[i];
        }
      }
    }
  }

  /** The loop of `generate_story_events` over the standings. */
  method LowMoraleScan(standings: seq<Standing>) returns (events: seq<StoryEvent>)
    ensures events == LowMoraleEvents(standings)
  {
    events := [];
    var i := 0;
    while i < |standings|
      invariant 0 <= i <= |standings|
      invariant events == LowMoraleEvents(standings[..i])
    {
      assert standings[..i + 1][..i] == standings[..i];
      if standings[i].morale < 40 {
        events := events + [LowMorale(standings[i].faction)];
      }
      i := i + 1;
    }
    assert standings[..i] == standings;
  }

  /** The loop of `generate_rumors` over the faction files. */
  method PlottingScan(factions: map<string, FactionFile>, listing: seq<string>) returns (rumors: seq<Rumor>)
    requires forall id :: id in listing ==> id in factions
    ensures rumors == FactionRumors(factions, listing)
  {
    rumors := [];
    var i := 0;
    while i < |listing|
      invariant 0 <= i <= |listing|
      invariant rumors == FactionRumors(factions, listing[..i])
    {
      assert listing[..i + 1][..i] == listing[..i];
      var faction := factions[listing[i]];
      if faction.clock.Some? && faction.clock.value.progress * 2 > faction.clock.value.segments {
        rumors := rumors + [FactionPlotting(faction.name)];
      }
      i := i + 1;
    }
    assert listing[..i] == listing;
  }

  class StoryProgressionManager {
    /** The world state, `None` when the file does not exist. */
    var worldState: Option<WorldState>
    /** The faction files, by file name. */
    var factions: map<string, FactionFile>

    constructor(worldState: Option<WorldState>, factions: map<string, FactionFile>)
      ensures this.worldState == worldState && this.factions == factions
    {
      this.worldState := worldState;
      this.factions := factions;
    }

    /** `advance_time`: exactly `days` more days have passed. */
    method AdvanceTime(days: int) returns (r: bool)
      modifies this
      ensures r == old(worldState).Some?
      ensures r ==> worldState == Some(old(worldState).value.(inGameDaysPassed := old(worldState).value.inGameDaysPassed + days))
      ensures !r ==> worldState == old(worldState)
      ensures factions == old(factions)
    {
      if worldState.None? {
        return false;
      }
      var state := worldState.value;
      state := state.(inGameDaysPassed := state.inGameDaysPassed + days);
      worldState := Some(state);
      return true;
    }

    /** `update_faction_clock`: `min(segments, max(0, progress + change))`. */
    method UpdateFactionClock(factionId: string, progressChange: int) returns (r: bool)
      modifies this
      ensures r == (factionId in old(factions) && old(factions)[factionId].clock.Some?)
      ensures r ==> var c := old(factions)[factionId].clock.value;
        factionId in factions && factions[factionId].clock.Some? &&
        factions == old(factions)[factionId := old(factions)[factionId].(clock := Some(c.(progress := factions[factionId].clock.value.progress)))] &&
        (c.segments >= 0 ==> (0 <= factions[factionId].clock.value.progress <= c.segments &&
          factions[factionId].clock.value.progress == Clamp(c.progress + progressChange, 0, c.segments))) &&
        (c.segments < 0 ==> factions[factionId].clock.value.progress == c.segments)
      ensures !r ==> factions == old(factions)
      ensures worldState == old(worldState)
    {
      if factionId !in factions || factions[factionId].clock.None? {
        return false;
      }
      var faction := factions[factionId];
      var clock := faction.clock.value;
      clock := clock.(progress := Min(clock.segments, Max(0, clock.progress + progressChange)));
      factions := factions[factionId := faction.(clock := Some(clock))];
      return true;
    }

    /** `generate_story_events`: reads the state and changes nothing. */
    method GenerateStoryEvents() returns (events: seq<StoryEvent>)
      ensures events == if worldState.None? then [] else StoryEvents(worldState.value)
    {
      if worldState.None? {
        return [];
      }
      var state := worldState.value;
      events := [];
      if state.dragonCrisisStatus == CrisisBeginning() {
        events := events + [DragonSighting];
      }
      assert events == if state.dragonCrisisStatus == CrisisBeginning() then [DragonSighting] else [];
      var low := LowMoraleScan(state.factionStandings);
      events := events + low;
      if state.skyrimStatus == CivilWarInProgress() {
        events := events + [CivilWarSkirmish];
      }
    }

    /** `add_major_event`: exactly one entry more, at the end. */
    method AddMajorEvent(description: string) returns (r: bool)
      modifies this
      ensures r == old(worldState).Some?
      ensures r ==> worldState == Some(old(worldState).value.(majorEvents := old(worldState).value.majorEvents + [description]))
      ensures !r ==> worldState == old(worldState)
      ensures factions == old(factions)
    {
      if worldState.None? {
        return false;
      }
      var state := worldState.value;
      state := state.(majorEvents := state.majorEvents + [description]);
      worldState := Some(state);
      return true;
    }

    /** `generate_rumors`, the faction files taken in the order the directory lists
        them. */
    method GenerateRumors(listing: seq<string>) returns (rumors: seq<Rumor>)
      requires forall id :: id in listing ==> id in factions
      ensures rumors == if worldState.None? then [] else Rumors(worldState.value, factions, listing)
    {
      if worldState.None? {
        return [];
      }
      var state := worldState.value;
      rumors := [];
      if |state.dragonAttacks| > 0 {
        rumors := rumors + [DragonsReturned];
        rumors := rumors + [DragonTongue];
      }
      if state.skyrimStatus == CivilWarInProgress() {
        rumors := rumors + [StormcloaksGaining];
        rumors := rumors + [TulliusOffensive];
      }
      var plotting := PlottingScan(factions, listing);
      rumors := rumors + plotting;
    }
  }
}
