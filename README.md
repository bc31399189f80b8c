# Skyrim campaign scripts, modelled in Dafny

The campaign scripts keep the state of a Fate-style tabletop campaign set in
Skyrim. The state lives in JSON files: campaign and world state, faction
files, NPC and character sheets, session logs and progress clocks. This
project models the bookkeeping rules the scripts apply to that state and
proves what those rules promise. The proofs cover these areas:

- **Progress clocks** under their many key spellings. A clock is detected,
  advanced with clamping, checked for completion and searched for in nested
  data.
- **One-shot narrative triggers** for Windhelm, Falkreath and Whiterun. Each
  fires its introduction once, records that in a flag of the campaign state,
  and never clears a flag.
- **Location and filter predicates**, used when the data is queried.
- **Story bookkeeping:**
  - branching decisions, civil-war counters, main-quest keys, Thalmor plots,
    quest chains, world consequences, combat results, faction quest lists, act
    progression, campaign clocks and the starting companion;
  - faction clocks, relationships, resources, turns and conflicts;
  - NPC loyalty;
  - world time, story events and rumours;
  - session logs and the reset of characters after a session;
  - first-impression scenes;
  - character creation at session zero.

Loaded JSON documents that the scripts read generically are Dafny values
(`Json`, and `Object` for a dict as an ordered list of members). Records that
the scripts read by fixed keys, such as factions, clocks, NPCs, race records
and NPC metadata, are typed datatypes, so the malformed records that would make
those reads raise are not modelled (see "Left out"). Each manager class of the scripts becomes a Dafny
`class`. Its fields stand for the files it loads and saves. Its methods change
those fields as the script changes the files, and every method is proved equal
to a specification function. A Python exception raised before anything is
saved is the `Raised` case of `Result`, carrying the exception's name.

## Model

| member | source | states |
|---|---|---|
| MidSessionProtocol.AsIntCases | scripts/mid_session_protocol.py:25-32 | an int passes through, `_as_int(str(n))` recovers `n`, and `None`, lists and dicts give the default |
| MidSessionProtocol.AsIntUnparsable | scripts/mid_session_protocol.py:27-31 | a string that `int()` refuses gives the default |
| MidSessionProtocol.DetectClockFormat | scripts/mid_session_protocol.py:35-75 | a detected clock has a positive maximum, and its fields are read through the alias chains |
| MidSessionProtocol.DetectClockFormatSpec | scripts/mid_session_protocol.py:53-75 | a value is a clock exactly when it is a dict with a current alias, a maximum alias and a maximum that reads as a positive int; `current` wins over `progress`, and the maximum aliases are tried in source order |
| MidSessionProtocol.GetClockProgressSpec | scripts/mid_session_protocol.py:104-138 | "Invalid Clock" exactly for non-clocks; the "Complete (" prefix exactly for complete clocks, meaning current >= max |
| MidSessionProtocol.AdvanceClock | scripts/mid_session_protocol.py:78-101 | mutates the caller's dict into `Advanced(old)`, or raises `ValueError` and leaves it untouched |
| MidSessionProtocol.AdvancedWrites | scripts/mid_session_protocol.py:89-101 | fails exactly on a non-clock; otherwise writes `max(0, min(max, current + amount))` under `current` if present, else under `progress`, and changes no other key |
| MidSessionProtocol.AdvancedStaysClock | scripts/mid_session_protocol.py:93-101 | the advanced dict is still a clock with the same maximum, name and description, and 0 <= current <= max |
| MidSessionProtocol.PutCurrentKeepsMax | scripts/mid_session_protocol.py:93-101 | writing `current` or `progress` keeps whether there is a maximum, its value, the name and the description |
| MidSessionProtocol.AdvanceCompletes | scripts/mid_session_protocol.py:93-118 | a complete clock stays complete under a non-negative advance, and an advance covering the remaining distance completes it |
| MidSessionProtocol.WorkedExample | scripts/mid_session_protocol.py:223-229 | a 2/5 clock advanced by 1 reads "3/5", then by 2 reads "Complete (5/5)" |
| MidSessionProtocol.FindAllClocksComplete | scripts/mid_session_protocol.py:170-199 | every clock anywhere in the tree, the root included, has its `a/b` or `p[i]` path in the result |
| MidSessionProtocol.FindAllClocksSound | scripts/mid_session_protocol.py:170-199 | every entry of the result is a clock, and is the sub-value found at that path |
| LocationUtils.LocationMatchesSymmetric | scripts/utils.py:39 | swapping the arguments keeps the answer |
| LocationUtils.LocationMatchesReflexive | scripts/utils.py:35-39 | a non-empty location matches itself |
| LocationUtils.LocationMatchesCaseInsensitive | scripts/utils.py:35-39 | changing the case of either argument keeps the answer |
| LocationUtils.SameLengthMatch | scripts/utils.py:35-39 | strings of equal length match only when they are equal after lowercasing |
| LocationUtils.InfixMatches | scripts/utils.py:35-39 | a non-empty search found, in any case, inside a location matches it |
| LocationUtils.DocstringMatches | scripts/utils.py:22-30 | the docstring's three examples of a match hold |
| LocationUtils.DocstringMismatch | scripts/utils.py:22-30 | the docstring's example of a mismatch, Solitude against Whiterun, holds |
| WindhelmTriggers.WindhelmLocationTriggers | scripts/triggers/windhelm_triggers.py:8-79 | the events and the new campaign state equal `Triggered(location, old state)` |
| WindhelmTriggers.CityDistricts | scripts/triggers/windhelm_triggers.py:30-62 | the four district blocks, each an independent `if`, equal the visits of the four sites in order |
| WindhelmTriggers.FireSite | scripts/triggers/windhelm_triggers.py:33-37 | one block: the return text if the flag is set, otherwise the introduction and the flag set |
| WindhelmTriggers.VisitAllSites | scripts/triggers/windhelm_triggers.py:30-71 | the five site blocks run one after the other |
| WindhelmTriggers.OutsideRegionNoChange | scripts/triggers/windhelm_triggers.py:20-27 | a location naming neither Windhelm nor Eastmarch gives no event and leaves the state as it was |
| WindhelmTriggers.EmptyLocationNoChange | scripts/triggers/windhelm_triggers.py:20 | a missing or empty location gives no event and changes nothing |
| WindhelmTriggers.VisitWrites | scripts/triggers/windhelm_triggers.py:33-69 | a block writes at most its own flag, only from unset to `True` |
| WindhelmTriggers.VisitAllWrites | scripts/triggers/windhelm_triggers.py:30-71 | after the blocks, every selected site's flag is set and every other key is unchanged |
| WindhelmTriggers.TriggeredWrites | scripts/triggers/windhelm_triggers.py:19-79 | a whole call sets the selected sites' flags and changes no other key |
| WindhelmTriggers.VisitAllRepeat | scripts/triggers/windhelm_triggers.py:33-69 | with every selected flag set, the blocks change nothing and each selected site gives its return text |
| WindhelmTriggers.TriggeredIdempotent | scripts/triggers/windhelm_triggers.py:33-75 | a second call with the same location leaves the state as the first call left it, and fires only return texts and Dunmeth Pass |
| WindhelmTriggers.VisitAllFirst | scripts/triggers/windhelm_triggers.py:33-69 | on a first visit every selected site fires its introduction, in order |
| WindhelmTriggers.VisitFirst | scripts/triggers/windhelm_triggers.py:33-37 | on an unset flag, a block adds the introduction exactly when its site is selected |
| WindhelmTriggers.SiteFlagInjective | scripts/triggers/windhelm_triggers.py:33-69 | different sites keep different flags, so one block never sets another's flag |
| WindhelmTriggers.FirstVisit | scripts/triggers/windhelm_triggers.py:29-75 | with no flag set, a call fires the introduction of every selected site in source order, then Dunmeth Pass if selected; several districts can fire together |
| WindhelmTriggers.DunmethPassAlwaysFires | scripts/triggers/windhelm_triggers.py:74-75 | Dunmeth Pass fires on every call that selects it, as the last event |
| WindhelmTriggers.CaseInsensitive | scripts/triggers/windhelm_triggers.py:20-23 | only the lowercased location matters |
| FalkreathTriggers.Mark | scripts/triggers/falkreath_triggers.py:19 | `d[key] = True`: the flag is set, every other key keeps its value, and no set flag is cleared |
| FalkreathTriggers.MarkIdempotent | scripts/triggers/falkreath_triggers.py:19 | marking twice is marking once |
| FalkreathTriggers.Trigger | scripts/triggers/falkreath_triggers.py:38-43 | a due trigger fires and marks its flag; one that is not due changes nothing |
| FalkreathTriggers.SceneFalkreathArrival | scripts/triggers/falkreath_triggers.py:8-19 | a given party state gets `seen_falkreath_intro`; a missing one is left alone |
| FalkreathTriggers.SceneFalkreathGraveyard | scripts/triggers/falkreath_triggers.py:21-32 | a given party state gets `witnessed_graveyard_scene`; a missing one is left alone |
| FalkreathTriggers.Fire | scripts/triggers/falkreath_triggers.py:34-107 | one guarded write into the caller's dict, equal to `Trigger` |
| FalkreathTriggers.TriggerSiddgeirBanditBounty | scripts/triggers/falkreath_triggers.py:34-43 | fires and flags the bounty quest when it has not been offered |
| FalkreathTriggers.TriggerDengeirVampireHunt | scripts/triggers/falkreath_triggers.py:45-55 | fires and flags the vampire hunt when it has not been offered |
| FalkreathTriggers.TriggerDarkBrotherhoodContact | scripts/triggers/falkreath_triggers.py:57-67 | equal to `BrotherhoodContact`; the party actions are only read |
| FalkreathTriggers.SceneAstridAbduction | scripts/triggers/falkreath_triggers.py:70-82 | equal to `AstridAbduction` on the caller's dict |
| FalkreathTriggers.TriggerSanctuaryDiscovery | scripts/triggers/falkreath_triggers.py:85-94 | equal to `SanctuaryDiscovery` on the caller's dict; a location that raises leaves the dict unchanged |
| FalkreathTriggers.TriggerSanctuaryEntry | scripts/triggers/falkreath_triggers.py:97-107 | equal to `SanctuaryEntry` on the caller's dict |
| FalkreathTriggers.GuardedByOwnFlag | scripts/triggers/falkreath_triggers.py:38-107 | a trigger guarded by its own flag fires at most once; a second call fires nothing and keeps the state |
| FalkreathTriggers.SiddgeirOnce | scripts/triggers/falkreath_triggers.py:38-43 | the bounty trigger fires at most once |
| FalkreathTriggers.DengeirOnce | scripts/triggers/falkreath_triggers.py:49-55 | the vampire-hunt trigger fires at most once |
| FalkreathTriggers.ContactSpec | scripts/triggers/falkreath_triggers.py:62-67 | contact fires exactly when `innocence_lost_completed` or `murder_committed` holds and contact was not made before |
| FalkreathTriggers.ContactIdempotent | scripts/triggers/falkreath_triggers.py:62-67 | once contacted, no later action fires contact or changes the state |
| FalkreathTriggers.ContactOnce | scripts/triggers/falkreath_triggers.py:62-67 | the same actions reported twice fire contact at most once |
| FalkreathTriggers.AstridSpec | scripts/triggers/falkreath_triggers.py:75-82 | the abduction fires exactly when contacted and not yet joined; repeating it keeps the state |
| FalkreathTriggers.ContactLeadsToAstrid | scripts/triggers/falkreath_triggers.py:62-82 | contact makes the abduction due unless the party already joined |
| FalkreathTriggers.DiscoverySpec | scripts/triggers/falkreath_triggers.py:90-94 | raises `TypeError` exactly on a location that is not a text, list or dict (`None` included); otherwise discovery needs "Dark Brotherhood Sanctuary" in the location (case-sensitively for a text) and fires once |
| FalkreathTriggers.LowercaseNeverDiscovers | scripts/triggers/falkreath_triggers.py:90 | a lowercased location never finds the sanctuary |
| FalkreathTriggers.EntrySpec | scripts/triggers/falkreath_triggers.py:102-107 | entry needs `dark_brotherhood_member` and fires only for the first entry |
| FalkreathTriggers.ScenesIdempotent | scripts/triggers/falkreath_triggers.py:18-32 | the arrival and graveyard scenes leave the same state however often they play |
| WhiterunTriggers.ActiveCompanions | scripts/triggers/whiterun_triggers.py:44 | the companion lookup succeeds exactly when `companions` is absent or a dict, and is `[]` when absent |
| WhiterunTriggers.WhiterunLocationTriggers | scripts/triggers/whiterun_triggers.py:13-50 | the call succeeds exactly when the companion lookup does |
| WhiterunTriggers.TriggersShape | scripts/triggers/whiterun_triggers.py:24-50 | at most two texts: at most one place text from the first matching branch, then the Lydia line last, exactly when Lydia is present and the location starts with "whiterun"; the state is only read |
| WhiterunTriggers.DistrictSpec | scripts/triggers/whiterun_triggers.py:30-41 | district texts need their keyword and "whiterun" after no earlier branch matched; the gate text needs the location to start with "whiterun" |
| WhiterunTriggers.OutsideWhiterun | scripts/triggers/whiterun_triggers.py:27-47 | a location not mentioning Whiterun gives no text |
| WhiterunTriggers.NoLocation | scripts/triggers/whiterun_triggers.py:27 | a missing location reads as "none" and gives no text |
| WhiterunTriggers.CaseInsensitive | scripts/triggers/whiterun_triggers.py:27 | only the lowercased location matters |
| StoryState.RecordDecision | scripts/story_manager.py:77-101 | declines without a state or a `branching_decisions` section; raises `KeyError` when `world_consequences` lacks `major_choices`; otherwise stores the choice and appends one entry to `major_choices` |
| StoryState.CountVictory | scripts/story_manager.py:123-126 | the named winner's counter goes up by one; other winners count for neither side |
| StoryState.CivilWarBattle | scripts/story_manager.py:119-132 | a battle increments exactly the winner's counter and records the battle name |
| StoryState.PlusAssign | scripts/story_manager.py:162-164 | `+=` on two numbers adds them, a bool counting as 0 or 1 |
| StoryState.AppendNewSpec | scripts/story_manager.py:157-161 | old shouts stay first, every new shout is present, nothing else is added, and no duplicate appears |
| StoryState.ApplyKwargKeys | scripts/story_manager.py:155-166 | one argument never adds a key and leaves every other key alone |
| StoryState.ApplyKwargsKeys | scripts/story_manager.py:155-166 | only existing keys change: the key set is the same, and keys no argument names keep their values |
| StoryState.ShoutsMerged | scripts/story_manager.py:157-161 | new shouts are appended in order after the known ones, without duplicates |
| StoryState.MergeShoutsList | scripts/story_manager.py:157-161 | on a stored list, each shout not yet in it is appended, in order |
| StoryState.MergeShoutsNotList | scripts/story_manager.py:157-161 | on a stored value that is not a list, the merge succeeds exactly when every shout is already found by `in`, and then changes nothing |
| StoryState.ShoutsFoundInText | scripts/story_manager.py:157-161 | a stored text "Fus Ro Dah" already contains "Fus", so the section is saved unchanged |
| StoryState.SoulsIncremented | scripts/story_manager.py:162-164 | the dragon-soul count is incremented, not replaced |
| StoryState.ClampPlot | scripts/story_manager.py:187-190 | a matching plot's progress ends in `[0, clock_segments]`; other plots are unchanged |
| StoryState.ThalmorClamped | scripts/story_manager.py:173-202 | every matching plot ends in `[0, clock_segments]` and every other plot is as it was |
| StoryState.FirstQuest | scripts/story_manager.py:239-240 | the index of the first quest with the id |
| StoryState.QuestAdvancedSpec | scripts/story_manager.py:239-259 | an unknown id changes nothing; otherwise the quest takes the new status, completing a quest with `next_quest` makes every quest with that id "available", and nothing else changes |
| StoryState.AddConsequenceSpec | scripts/story_manager.py:289-296 | data is appended only to an existing category that does not hold it yet; no other category changes and no duplicate appears |
| StoryState.CombatSpec | scripts/story_manager.py:413-426 | a dragon victory adds exactly one soul; a Thalmor victory raises awareness by one but never above 10; nothing else changes |
| StoryState.RemoveFirst | scripts/story_manager.py:532-538 | `list.remove` guarded by `in`: drops one occurrence, keeps every other element |
| StoryState.RemoveFirstDistinct | scripts/story_manager.py:531-540 | on a list without duplicates the quest is gone afterwards |
| StoryState.TrackQuestSpec | scripts/story_manager.py:528-545 | "started" adds to active; "completed" and "failed" move from active to their list; no list gains a duplicate and trust stays in `[0, 10]` |
| StoryState.NewFactionRecordWellKept | scripts/story_manager.py:517-523 | a new faction record is well kept |
| StoryState.OfferedUpToSpec | scripts/story_manager.py:851-863 | exactly the offered quests are returned: quest 0 unless completed or active, quest i > 0 when quest i-1 is completed and quest i is neither completed nor active |
| StoryState.RaiseArc | scripts/story_manager.py:891-893 | arc progress never decreases and reaches `(act - 1) * 3` |
| StoryState.AdvanceActMonotone | scripts/story_manager.py:874-896 | the act is stored, and every arc keeps its name and reaches at least its old progress and `(act - 1) * 3` |
| StoryState.ActName | scripts/story_manager.py:905-907 | the act name exists exactly for act numbers -2 to 3, as Python's list indexing allows |
| StoryState.ActNames | scripts/story_manager.py:905-907 | acts 1 to 3 get their numerals, act 0 reads as "Act III", act 4 raises |
| StoryState.QuestsInAct | scripts/story_manager.py:913-914 | exactly the quests whose `act` is the act |
| StoryState.ActAppropriateQuestsSpec | scripts/story_manager.py:898-916 | fails exactly when no act is given and the current act number is outside -2..3; otherwise exactly the main quests of the act given or of the current act, and none without quest data |
| StoryState.AdvanceTrackClock | scripts/story_manager.py:992-1002 | `current_progress`, else `current_trust`, is clamped into `[0, total_segments or max_trust or 10]`; a clock with neither fails |
| StoryState.AdvanceClockFile | scripts/story_manager.py:966-1010 | an unknown category or clock declines; a Thalmor clock raises `KeyError` unsaved, because the timestamp is written under a `thalmor_clocks` section the file does not have; any other clock is saved exactly when it has a progress or trust value, clamped, and no other clock or file changes |
| StoryState.FindCompanion | scripts/story_manager.py:597-600 | the companion found has the name and is in the party; none is found exactly when no companion has the name |
| StoryState.FindCompanionFirst | scripts/story_manager.py:597-600 | the companion found is the first in the party with the name |
| StoryState.StartingCompanion | scripts/story_manager.py:579-602 | the companion returned is the one named at the Helgen escape, which is neither empty nor "undecided", and is in the party |
| StoryState.StartingCompanionSpec | scripts/story_manager.py:579-602 | a companion is returned exactly when the Helgen choice is recorded, is neither empty nor "undecided" and names a party member; it is the first party member with that name |
| Story.StoryManager.constructor | scripts/story_manager.py:33-47 | the manager holds the given campaign state, main quests and clock files |
| Story.StoryManager.RecordBranchingDecision | scripts/story_manager.py:77-101 | reply and new state equal `RecordDecision`; the quests and clocks are unchanged |
| Story.StoryManager.UpdateCivilWarState | scripts/story_manager.py:103-136 | reply and new state equal `UpdateCivilWar` |
| Story.StoryManager.UpdateMainQuestState | scripts/story_manager.py:138-171 | reply and new state equal `UpdateMainQuest` |
| Story.StoryManager.UpdateThalmorArc | scripts/story_manager.py:173-202 | reply and new state equal `UpdateThalmor` |
| Story.StoryManager.AdvanceQuest | scripts/story_manager.py:226-259 | true exactly when the quest exists; the quests become `QuestAdvanced`, and are unchanged otherwise |
| Story.StoryManager.AddWorldConsequence | scripts/story_manager.py:277-296 | reply and new state equal `AddConsequence` |
| Story.StoryManager.ApplyCombatConsequences | scripts/story_manager.py:391-434 | reply and new state equal `Combat` |
| Story.StoryManager.TrackFactionQuestProgress | scripts/story_manager.py:496-557 | the new state equals `TrackFaction`, and the record returned is the faction's new record |
| Story.StoryManager.GetAvailableFactionQuests | scripts/story_manager.py:822-865 | the loop returns exactly `OfferedUpTo` over all the faction's quests |
| Story.StoryManager.GetCurrentActNumber | scripts/story_manager.py:867-872 | the recorded act, and 1 when the campaign or its act is missing |
| Story.StoryManager.AdvanceToNextAct | scripts/story_manager.py:874-896 | reply and new state equal `AdvanceAct` |
| Story.StoryManager.GetActAppropriateQuests | scripts/story_manager.py:898-916 | fails exactly when no act is given and the current act number is outside -2..3; otherwise exactly the main quests of the act given or of the current act |
| Story.StoryManager.AdvanceClock | scripts/story_manager.py:948-1019 | reply and new clock files equal `AdvanceClockFile`: a Thalmor advance raises `KeyError` and saves nothing |
| Story.StoryManager.GetStartingCompanion | scripts/story_manager.py:579-602 | the result equals `StartingCompanion` |
| Story.FirstQuestIs | scripts/story_manager.py:239-240 | the quest the loop stops at is the first quest with the id |
| FactionLogic.Lookup | scripts/faction_logic.py:53-60 | a faction is found exactly when the file exists and lists it |
| FactionLogic.WithFaction | scripts/faction_logic.py:59-81 | the faction is replaced and every other faction is kept |
| FactionLogic.FirstClock | scripts/faction_logic.py:67-68 | the index of the first clock with the name |
| FactionLogic.ClockUpdate | scripts/faction_logic.py:44-84 | gives up exactly when the faction, its clocks or a clock with the name is missing |
| FactionLogic.ClockUpdateSpec | scripts/faction_logic.py:59-84 | only the first clock with the name changes, only its progress, and it lands in `[0, segments]`; other factions are untouched |
| FactionLogic.FirstClockIs | scripts/faction_logic.py:67-68 | the clock the loop stops at is the first with the name |
| FactionLogic.RelationshipUpdate | scripts/faction_logic.py:86-113 | gives up exactly when the faction is missing |
| FactionLogic.RelationshipUpdateSpec | scripts/faction_logic.py:102-105 | the new value lies in `[-100, 100]`, a new partner starts from 0, and nothing else changes |
| FactionLogic.ResourceUpdate | scripts/faction_logic.py:115-147 | gives up when the faction or the resource is missing or the resource is not numeric |
| FactionLogic.ResourceUpdateSpec | scripts/faction_logic.py:131-142 | the resource becomes `max(0, old + change)`; no other resource or faction changes |
| FactionLogic.TurnSpec | scripts/faction_logic.py:270-286 | every clock below full moves up by exactly one, full clocks stay, and something changes exactly when some clock was below full |
| FactionLogic.Turns | scripts/faction_logic.py:270-275 | repeated turns keep the number of clocks |
| FactionLogic.TurnsFill | scripts/faction_logic.py:270-275 | after `n` turns a clock that started within its segments is at `min(segments, progress + n)` |
| FactionLogic.TurnUpdate | scripts/faction_logic.py:254-286 | the turn is saved exactly when the faction has clocks and one of them is below full |
| FactionLogic.RelationshipLadder | scripts/faction_logic.py:188-198 | Allied at 50, Friendly at 20, Neutral at -20, Unfriendly at -50, Hostile below |
| FactionLogic.RankLadder | scripts/faction_logic.py:240-249 | the rank is named by the reputation thresholds 80, 60, 40 and 20 |
| FactionLogic.LaddersMonotone | scripts/faction_logic.py:188-249 | more reputation never lowers the rank, and a better value never gives a worse status |
| FactionLogic.Conflict | scripts/faction_logic.py:288-329 | no file gives `None` |
| FactionLogic.ConflictSpec | scripts/faction_logic.py:304-320 | between two factions with resources a reply comes exactly when the strengths are two numbers or two equal texts; the stronger side wins by the difference, a tie is a stalemate with margin 0, and both strengths are reported |
| FactionLogic.DefaultStrength | scripts/faction_logic.py:305-306 | a faction without a stated strength fights at 50 |
| FactionLogic.ConflictSymmetric | scripts/faction_logic.py:304-320 | swapping the factions keeps the winner and the margin |
| FactionLogic.ProgressBarSpec | scripts/faction_logic.py:179 | a clock within its segments draws exactly `segments` characters, filled ones first |
| FactionLogic.FactionManager.constructor | scripts/faction_logic.py:19-22 | the manager holds the given factions file |
| FactionLogic.FactionManager.UpdateFactionClock | scripts/faction_logic.py:44-84 | reply and new file equal `ClockUpdate`; a refusal changes nothing |
| FactionLogic.FactionManager.UpdateFactionRelationship | scripts/faction_logic.py:86-113 | reply and new file equal `RelationshipUpdate` |
| FactionLogic.FactionManager.UpdateFactionResources | scripts/faction_logic.py:115-147 | reply and new file equal `ResourceUpdate` |
| FactionLogic.FactionManager.SimulateFactionTurn | scripts/faction_logic.py:254-286 | reply and new file equal `TurnUpdate`; the file is saved only when a clock moved |
| FactionLogic.FactionManager.FactionConflictResolution | scripts/faction_logic.py:288-329 | no reply exactly when the file or either faction is missing; a reply exactly when both factions have resources and comparable strengths, and it is the outcome of the fight; it equals `Conflict` |
| NpcManager.Saved | scripts/npc_manager.py:32-46 | a record with an id is stored under that id; one without changes nothing |
| NpcManager.LoyaltyUpdatedSpec | scripts/npc_manager.py:75-109 | loyalty stays in `[0, 100]` and starts from 50 when missing; the history grows by exactly one entry naming the change, the reason and the new loyalty |
| NpcManager.TwoUpdates | scripts/npc_manager.py:101-109 | two updates leave two entries, in order |
| NpcManager.LoyaltyLadder | scripts/npc_manager.py:87-96 | the status is named by the thresholds 80, 60, 40 and 20 |
| NpcManager.ComplianceThreshold | scripts/npc_manager.py:282-307 | a companion complies exactly when loyalty reaches 40 |
| NpcManager.LoyaltyBarSpec | scripts/npc_manager.py:159 | for loyalty in `[0, 100]` the bar is 20 boxes, `loyalty // 5` filled and first |
| NpcManager.TemplateId | scripts/npc_manager.py:200-202 | a template id is clean, and a name that sanitises to nothing is never saved |
| NpcManager.NpcStore.constructor | scripts/npc_manager.py:19-22 | the store holds the given NPC files |
| NpcManager.NpcStore.SaveNpc | scripts/npc_manager.py:32-46 | true exactly when the record has an id; the files become `Saved` |
| NpcManager.NpcStore.UpdateLoyalty | scripts/npc_manager.py:60-112 | true exactly when the NPC exists; its record becomes `LoyaltyUpdated` and is saved |
| NpcManager.NpcStore.CompanionLoyaltyCheck | scripts/npc_manager.py:271-310 | true exactly when the NPC exists with loyalty at least 40, a missing loyalty counting as 50 |
| NpcManager.NpcStore.CreateNpcTemplate | scripts/npc_manager.py:189-246 | the new record has the sanitised id, loyalty 50, and is saved under that id |
| Identifiers.SanitizeClean | scripts/npc_manager.py:200-202 | every sanitised id has only lower-case letters, digits and `_`, no `__`, and no `_` at either end |
| Identifiers.SanitizeFixes | scripts/npc_manager.py:200-202 | a clean id sanitises to itself |
| Identifiers.SanitizeIdempotent | scripts/session_zero.py:218-220 | sanitising twice is sanitising once |
| Identifiers.CollapseSpec | scripts/npc_manager.py:202 | collapsing keeps the first and last character and the character set, and leaves no `__` |
| Identifiers.StripLeftSpec | scripts/npc_manager.py:202 | `lstrip('_')` gives a suffix not starting with `_` |
| Identifiers.StripRightSpec | scripts/npc_manager.py:202 | `rstrip('_')` gives a prefix not ending with `_` |
| StoryProgression.LowMoraleSpec | scripts/story_progression.py:89-96 | a faction gets a low-morale event exactly when its morale is below 40 |
| StoryProgression.StoryEventsSpec | scripts/story_progression.py:72-106 | the dragon sighting comes first exactly when the crisis is "Beginning", the civil-war event last exactly when the war is in progress, and the low-morale events between them in faction order |
| StoryProgression.RumorsSpec | scripts/story_progression.py:135-161 | the two dragon rumours exactly when there were dragon attacks, the civil-war rumours exactly when the war is in progress, then faction rumours |
| StoryProgression.FactionRumorSpec | scripts/story_progression.py:153-159 | a faction gets a rumour exactly when its clock is past half way, `2 * progress > segments` |
| StoryProgression.LowMoraleScan | scripts/story_progression.py:89-96 | the loop over the standings collects exactly `LowMoraleEvents` |
| StoryProgression.PlottingScan | scripts/story_progression.py:153-159 | the loop over the faction files collects exactly `FactionRumors` |
| StoryProgression.StoryProgressionManager.constructor | scripts/story_progression.py:19-23 | the manager holds the given world state and faction files |
| StoryProgression.StoryProgressionManager.AdvanceTime | scripts/story_progression.py:37-45 | exactly `days` more days have passed; with no state it refuses and changes nothing |
| StoryProgression.StoryProgressionManager.UpdateFactionClock | scripts/story_progression.py:47-70 | progress becomes `min(segments, max(0, progress + change))`; a faction without a clock refuses |
| StoryProgression.StoryProgressionManager.GenerateStoryEvents | scripts/story_progression.py:72-106 | the events equal `StoryEvents` of the state, and nothing changes |
| StoryProgression.StoryProgressionManager.AddMajorEvent | scripts/story_progression.py:125-133 | exactly one entry more, at the end of `major_events` |
| StoryProgression.StoryProgressionManager.GenerateRumors | scripts/story_progression.py:135-161 | the rumours equal `Rumors` of the state and the faction files, and nothing changes |
| SessionManager.Pad3Spec | scripts/session_manager.py:46 | three characters for 0 to 999, and `int` reads the number back from the padded text |
| SessionManager.FileNameRoundTrip | scripts/session_manager.py:46 | the session number can be read back from the file name |
| SessionManager.FileNamesDistinct | scripts/session_manager.py:46 | different session numbers never share a file |
| SessionManager.NewSessionSpec | scripts/session_manager.py:27-44 | a new session lists nobody, has empty lists and zero experience and fate points |
| SessionManager.MergeOneSpec | scripts/session_manager.py:65-72 | a list updated with a list is extended, old entries first; other values are replaced; unknown keys are ignored; no other key changes |
| SessionManager.MergeSpec | scripts/session_manager.py:65-72 | merging never adds or removes a key, and keys no update names keep their values |
| SessionManager.HistorySpec | scripts/session_manager.py:205-213 | the history fails exactly when a listed log's `characters_present` cannot be searched; otherwise it is the log of each listed file the character was present in, one per file, in listing order, so in name order for a sorted listing |
| SessionManager.HistoryRaises | scripts/session_manager.py:208-211 | the history fails exactly when some listed log cannot be searched for the id |
| SessionManager.HistoryFiles | scripts/session_manager.py:208-212 | the history holds, in order, the log of each file `PresentFiles` names |
| SessionManager.PresentFilesMembers | scripts/session_manager.py:208-212 | the files named are exactly the listed files the character was present in |
| SessionManager.PresentFilesSorted | scripts/session_manager.py:208-212 | a listing in increasing name order keeps the files named in increasing order |
| Json.IterateSpec | scripts/session_manager.py:104 | a loop over a value fails exactly when `in` on it fails; it walks a list's items and a dict's keys, exactly the texts `in` finds, and a text's characters |
| SessionManager.ResetSpec | scripts/session_manager.py:112-125 | experience grows by the award, fate points return to the refresh, stress boxes are cleared with lengths kept, mild is cleared and moderate and severe stay |
| SessionManager.ResetAgain | scripts/session_manager.py:112-125 | a second reset changes only the experience |
| SessionManager.ResetAllSpec | scripts/session_manager.py:105-125 | each sheet is reset once per listing of its id; unlisted sheets are left alone |
| SessionManager.ResetTimesSpec | scripts/session_manager.py:112-125 | `n` listings add the award `n` times and leave the refresh as fate points |
| SessionManager.SessionContextManager.constructor | scripts/session_manager.py:19-23 | the manager holds the given session logs and sheets |
| SessionManager.SessionContextManager.CreateSession | scripts/session_manager.py:25-51 | the log written is `NewSession` under `SessionFileName` |
| SessionManager.SessionContextManager.UpdateSession | scripts/session_manager.py:53-78 | true exactly when the log exists; it becomes the merge of the updates |
| SessionManager.SessionContextManager.UpdateCharacterFromSession | scripts/session_manager.py:97-132 | a missing or empty log replies false; otherwise every listed sheet is reset as `ResetAll` states |
| SessionManager.SessionContextManager.GetCharacterSessionHistory | scripts/session_manager.py:205-213 | for the sorted listing of every `session_*.json` log, the result equals `History`: the logs the character was present in, one per file, in increasing order of file name |
| QueryData.And | scripts/query_data.py:33-42 | filters are tested in order: the first that raises ends the query, otherwise all must accept |
| QueryData.SelectSpec | scripts/query_data.py:24-44 | a query raises exactly when a test raises; otherwise it keeps exactly the accepted records, in order |
| QueryData.NoFiltersKeepAll | scripts/query_data.py:24-44 | with no filters every NPC is kept |
| QueryData.NpcTestSpec | scripts/query_data.py:33-42 | name is a case-insensitive substring; location and faction are case-insensitive exact matches; an absent filter accepts |
| QueryData.QuestTestSpec | scripts/query_data.py:75-81 | status and type exact, name a substring, all ignoring case |
| QueryData.StatTestSpec | scripts/query_data.py:356-377 | name partial, type and category exact, location by `location_matches` |
| QueryData.FiltersIgnoreCase | scripts/query_data.py:33-42 | filters ignore the case they are typed in |
| QueryData.ActSpec | scripts/query_data.py:479-485 | exactly the enemy sheets whose `act_context` names the act are kept |
| QueryData.HoldTierSpec | scripts/query_data.py:432-451 | a non-enemy goes nowhere; a hold in `primary` always goes to primary; the location fallback applies only without `hold_context` |
| QueryData.ByHoldSpec | scripts/query_data.py:408-457 | each bucket holds exactly the sheets of its tier, so no sheet is in two buckets |
| QueryData.ByHoldTier | scripts/query_data.py:408-457 | sorting succeeds exactly when the tier's query does, and the tier's bucket is what that query keeps |
| QueryData.FillSpec | scripts/query_data.py:427-455 | filling buckets further appends the sorted sheets to them, and raises exactly as sorting does |
| QueryData.FactionEntrySpec | scripts/query_data.py:131-153 | a faction is left out only when the faction filter rejects it or a quest id matched none of its quests |
| QueryData.FactionEntriesSpec | scripts/query_data.py:108-155 | the answer lists the file's factions in order, each with its computed entry, and only those |
| QueryData.GatherEntriesSpec | scripts/query_data.py:131-155 | collecting after a prefix keeps it and appends the factions' entries, and raises exactly when `FactionEntries` does, with its error |
| QueryData.EntryOf | scripts/query_data.py:131-153 | one faction's entry equals `FactionEntry` |
| QueryData.EntriesOf | scripts/query_data.py:131-155 | the loop over the factions equals `FactionEntries`, stopping at the first raise |
| QueryData.WindowSpec | scripts/query_data.py:198-207 | a window holds at most five lines and includes the matching line |
| QueryData.ContextSpec | scripts/query_data.py:198-207 | every matching line is in the context and every context line is a line of the file |
| QueryData.HitsSpec | scripts/query_data.py:189-214 | a file is reported exactly when it mentions the keyword |
| QueryData.FindByIdSpec | scripts/query_data.py:240-253 | the record found is the first with the id |
| QueryData.RelationshipsSpec | scripts/query_data.py:240-255 | an NPC with the id hides a PC with it; a character found nowhere has no relationships |
| QueryData.Collect | scripts/query_data.py:24-44 | the loop keeps exactly `Select` of the records |
| QueryData.GatherSpec | scripts/query_data.py:24-44 | collecting after a prefix keeps it and appends what the query selects, and raises exactly when `Select` does, with its error |
| QueryData.ContextLines | scripts/query_data.py:198-207 | the loop collects exactly `Context` of the file |
| QueryData.DataQueryManager.constructor | scripts/query_data.py:20-22 | the manager holds the given documents |
| QueryData.DataQueryManager.QueryNpcs | scripts/query_data.py:24-44 | the result equals `Select` with the NPC filters |
| QueryData.DataQueryManager.QueryQuests | scripts/query_data.py:66-86 | the result equals `Select` with the quest filters |
| QueryData.DataQueryManager.QueryNpcEnemyStats | scripts/query_data.py:333-383 | nothing without a stat sheet directory; otherwise `Select` with the stat sheet filters |
| QueryData.DataQueryManager.GetEnemiesByAct | scripts/query_data.py:459-491 | nothing without a stat sheet directory; otherwise the enemies of the act |
| QueryData.DataQueryManager.GetEnemiesByHold | scripts/query_data.py:408-457 | empty buckets without a stat sheet directory; otherwise `ByHold` |
| QueryData.DataQueryManager.QueryFactionQuests | scripts/query_data.py:108-155 | the answer equals `FactionQuestsOf` |
| QueryData.DataQueryManager.SearchRules | scripts/query_data.py:189-214 | the hits equal `Hits` over the rules files |
| QueryData.DataQueryManager.GetCharacterRelationships | scripts/query_data.py:234-255 | the result equals `Relationships` |
| FirstImpression.NpcToneSpec | scripts/first_impression.py:110-124 | the tone follows the priority Brynjolf, Thalmor, guard, noble, companion, friendly, and is `neutral_default` exactly when none holds |
| FirstImpression.NpcToneIgnoresCase | scripts/first_impression.py:104-109 | the tone does not depend on the case of the NPC's texts |
| FirstImpression.PickDetailMarkersSpec | scripts/first_impression.py:97-100 | a prefix of the markers of length `min(limit, count)`, and `[]` without a profile |
| FirstImpression.DecoratedSpec | scripts/first_impression.py:178-186 | on a base line and a tell that end with a full stop: the tell is appended right after the base line when it applies; the line ends with ")" exactly when the flourish is appended, with the short appearance just before it; the length counts each suffix |
| FirstImpression.BaseLineEnds | scripts/first_impression.py:142-176 | the line of every tone ends with a full stop |
| FirstImpression.TellEnds | scripts/first_impression.py:178-180 | the script's thieves-guild tell ends with a full stop |
| FirstImpression.ComposeSpec | scripts/first_impression.py:127-186 | in any wording whose tell ends with a full stop: the line starts with the tone's base line, its length counts the tell exactly when the tone is guard, noble or default and the PC carries the hint, and the flourish exactly when the trigger is "first impression" and the short appearance is not empty, and it ends with ")" exactly then |
| FirstImpression.ThievesHintSpec | scripts/first_impression.py:137-139 | for every sheet: reading the hint raises exactly when `aspects` is not a dict or an entry is a true value that is not text; otherwise the hint holds exactly when the high concept mentions thieves or the subfaction the thieves guild, in any case; a sheet with neither has none |
| FirstImpression.EnsureContainerSpec | scripts/first_impression.py:189-195 | `relationships` and `met_npcs` are dicts afterwards, other keys and existing dict contents are kept, and a second call changes nothing |
| FirstImpression.EnsureRelationshipContainer | scripts/first_impression.py:189-195 | the sheet is mutated into `EnsureContainer` of the old sheet |
| FirstImpression.RecordedSpec | scripts/first_impression.py:231-240 | the meeting record is filed under the NPC id; other met NPCs and other keys are kept |
| FirstImpression.FileMeeting | scripts/first_impression.py:231-240 | the sheet is mutated into `Recorded` |
| FirstImpression.UpdateCampaignMetList | scripts/first_impression.py:198-209 | succeeds exactly when `MetListUpdated` does and then mutates the state into it; a raise leaves the state unchanged |
| FirstImpression.MetListUpdatedSpec | scripts/first_impression.py:198-209 | a non-dict `world_consequences` raises; `last_updated` is set; the id is appended only when absent, and a state without a list gets a list holding just the id |
| FirstImpression.UpdatedListsNpc | scripts/first_impression.py:203-207 | after a successful update the met list names the NPC |
| FirstImpression.RepeatUpdate | scripts/first_impression.py:203-208 | on a state whose list already names the NPC, an update only renews `last_updated` |
| FirstImpression.MetListOnce | scripts/first_impression.py:205-208 | updating again with the same NPC only renews `last_updated` and leaves the list as it is |
| FirstImpression.ImpressionSpec | scripts/first_impression.py:127-186 | an unknown NPC raises `FileNotFoundError`; otherwise it raises exactly when reading the hint does; a reply carries the NPC's name, and its line ends with ")" exactly when the flourish applies |
| FirstImpression.RecordingSkips | scripts/first_impression.py:222-224 | the run is "skipped" exactly when the NPC was already met and `force` is off, and then nothing changes |
| FirstImpression.RecordingMeets | scripts/first_impression.py:226-245 | a meeting files the record under the NPC, keeps the other met NPCs, and updates the campaign's met list |
| FirstImpression.SkipWhenMet | scripts/first_impression.py:222-224 | with the NPC already on the sheet and no `force`, the run skips and changes nothing |
| FirstImpression.RecordingSheet | scripts/first_impression.py:226-240 | when the run goes ahead, the sheet becomes `Recorded` with the meeting record |
| FirstImpression.SheetListsNpc | scripts/first_impression.py:222-240 | after a run that does not raise, the sheet's met NPCs include the NPC |
| FirstImpression.RecordingOnce | scripts/first_impression.py:222-245 | a second run without `force` skips and changes nothing |
| FirstImpression.RecordingListsNpc | scripts/first_impression.py:205-243 | after a meeting the NPC is on the campaign's list exactly once if it was not there before, and its count is unchanged otherwise |
| FirstImpression.MeetListsNpc | scripts/first_impression.py:205-243 | after a meeting the NPC is on the campaign's list exactly once if it was not there before, and its count is unchanged otherwise |
| FirstImpression.FirstImpressionFiles.constructor | scripts/first_impression.py:212-220 | the files hold the given PC sheet and campaign state |
| FirstImpression.FirstImpressionFiles.UpdateCampaign | scripts/first_impression.py:198-209 | the sheet is untouched; a missing campaign file changes nothing; otherwise the state becomes `MetListUpdated`, or the call raises and changes nothing |
| FirstImpression.FirstImpressionFiles.Run | scripts/first_impression.py:212-245 | reply and new files equal `Meet` in the given wording; the script's own wording is `Wording` |
| SessionZero.FindRaceSpec | scripts/session_zero.py:208-215 | no race is found exactly when no record names it in any case, and the one found is the first that does |
| SessionZero.FindRaceIgnoresCase | scripts/session_zero.py:208-212 | the case of the requested race does not matter |
| SessionZero.CreateCharacterTemplateSpec | scripts/session_zero.py:203-273 | a sheet is made exactly when the race is found; it stores the race's own name, takes the starting aspect as high concept and "Blessed by " + stone as third aspect, has the id `pc_` + a clean sanitised name, and is fresh: level 1, two clear boxes per stress track, no consequence, refresh 3, 3 fate points, 100 gold, no experience |
| SessionZero.CharacterIdIgnoresCase | scripts/session_zero.py:218-224 | names that differ only in case, or a name and its own sanitised form, give the same id |

## Left out

- File and directory I/O is not modelled: loading, saving, `glob`, `mkdir` and path construction. Loaded documents are field values, and a missing file is `None`.
- Directory listings are parameters (`listing`) where the scripts iterate over a directory. For the session history the listing is required to be every `session_*.json` log, sorted by name, as `sorted(glob(...))` gives it.
- Console output, the interactive menus and every `main()` are not modelled, except the clock demonstration, which is proved as `WorkedExample`.
- Timestamps from `datetime.now()` are not modelled. Where a record keeps one, it is a `now` or `date` parameter or is dropped.
- Narrative texts are constructors of an `Event` datatype rather than the prose, except in the first-impression line.
- Floats are not modelled. `_as_int` of a float, float resources and float clock values are missing, and JSON numbers are integers.
- `MidSessionProtocol.AsInt` reads a bool as 1 or 0, where `_as_int` returns the bool itself. A clock with a bool value is therefore shown as "1/5" rather than "True/5", and an advance stores a number where the script can store `True`.
- Python's `1 == True` in comparisons and order-insensitive dict equality are not modelled; JSON equality is structural. Arithmetic on bools (`3 + True == 4`) is modelled, in `+=` and in the experience award.
- Lower-casing is ASCII only; Unicode case mapping is not modelled.
- Each loaded file's top level is a dict, so a file holding any other JSON value is not modelled.
- `scripts/export_repo.py`, `scripts/pc_visual_manager.py` and the data patch script are not part of this model. They are I/O and a one-off migration.
- The random encounter generator, the scene and dialogue helpers, the story summaries and the dragonbreak methods of `StoryManager` are not modelled. They rely on randomness, console output or a module that is not part of this model.
- `trigger_utils.is_companion_present` is not part of this model. It is the parameter `isCompanionPresent`.
- `tests/test_whiterun_triggers.py` expects flags and two events on a first visit. `whiterun_location_triggers` writes no flag and emits at most one place text, and the model follows the code.
- The tests of the Pale triggers, companion loyalty and canon divergence exercise modules that are not part of this model.
- `query_pcs`, `query_factions`, `get_session_log`, the trust-mechanics and world-state getters, `get_npcs_for_scene`, `list_all_stat_sheets` and the PDF topic lookups are not modelled. `query_pcs` is used only as the second list passed to `Relationships`.
- `NPCManager.update_relationship`, `check_companion_status` and `list_npcs` are not modelled, apart from the loyalty bar of `check_companion_status`. `check_faction_status` is likewise modelled only for its status ladder and progress bar.
- `SessionContextManager.get_session`, `get_latest_session`, `generate_session_summary` and `get_campaign_timeline` are not modelled.
- `SessionManager.SessionContextManager.UpdateCharacterFromSession`: sheets already written before a later sheet raises are not modelled as partially saved.
- `FactionLogic.FactionManager.UpdateFactionClock`, `UpdateFactionRelationship`, `UpdateFactionResources`, `SimulateFactionTurn` and `FactionConflictResolution`: factions and clocks are typed records, so the `KeyError` of a faction without `name` or of a filled clock without `effect` is not modelled, nor an empty faction dict, which `faction_conflict_resolution` treats as missing.
- `NpcManager.NpcStore.UpdateLoyalty` and `NpcManager.NpcStore.CompanionLoyaltyCheck`: NPCs are typed records, so the `KeyError` of an NPC without `name` is not modelled.
- `FirstImpression.NpcMeta`: the metadata fields are texts, so metadata whose `name`, `type`, `category` or high concept is a true value that is not text, or whose `aspects` is not a dict, which raise `AttributeError` in `npc_tone`, are not modelled.
- `SessionZero.Race`: a race record without `racial_ability` or `skill_bonuses`, which raises `KeyError`, is not modelled.
- An empty factions file `{}` is modelled as a missing file (`None`): every faction operation begins with `if not data`, which treats the two alike.
- An empty campaign state `{}` is modelled as a missing file (`None`): `update_civil_war_state`, `apply_combat_consequences`, `track_faction_quest_progress` and `advance_to_next_act` begin with `if not state`, which treats the two alike.
- `StoryState.AdvanceClockFile` treats each clock file as its clocks only, so a Thalmor file that also holds a `thalmor_clocks` section, where the timestamp write would succeed, is not modelled.
- `StoryState.FactionProgress` with an empty faction id reads no record. The script's `get_faction_status("")` then returns the whole `faction_quests` dict, whose `completed_quests` and `active_quests` keys are normally absent, so both lists are empty there too; a dict that has those keys is not modelled.
- `FirstImpression.PcName` renders a PC `name` that is not text as "The PC" rather than Python's formatting of that value.
- The first-impression texts are gathered in a `Phrasebook`. `Compose`, `Impression`, `Meet` and `FirstImpressionFiles.Run` take the phrasebook as a parameter, and their lemmas hold for any phrasebook whose tell ends with a full stop. The script's own texts are `Wording`.
- `get_npc_meta`, `load_visual_profile` and `get_pc_path` become parameters of `FirstImpressionFiles.Run`: the NPC metadata, the visual profile and the loaded PC sheet. `auto_first_impression` and the `quiet` flag are not modelled.
- `SessionZero.CreateCharacterTemplateSpec`: race records are typed, so a record missing `name` or `starting_aspect`, which raises `KeyError` in the script, is not modelled.
- `save_character`, `create_session_zero_log` and the interactive session-zero flow are not modelled.
- `StoryProgressionManager.progress_quests` is not modelled. It finds quest files by name and rewrites them, which is file I/O.
- `Story.StoryManager.GetAvailableFactionQuests` receives the faction's quest list as a parameter in place of the call to `query_faction_quests`.
- `NpcManager.NpcStore.CreateNpcTemplate` keeps only the id, name, role, faction, loyalty and history of the template. Its descriptive fields are not modelled.
