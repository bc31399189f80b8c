/** Character creation at session zero: the requested race is looked up among
    the loaded race records, and a fresh character sheet is built for it. */
module SessionZero {
  import opened Wrappers
  import opened Text
  import opened Json
  import opened Identifiers

  /** One record of `races.json`, with the keys the template reads. */
  datatype Race = Race(name: string, startingAspect: string, racialAbility: Json, power: Option<Json>, skillBonuses: seq<string>)

  datatype Aspects = Aspects(highConcept: string, trouble: string, aspect3: string, aspect4: string, aspect5: string)

  /** The stress tracks and the consequence slots (`None` is an empty slot). */
  datatype Stress = Stress(physical: seq<bool>, mental: seq<bool>)
  datatype Consequences = Consequences(mild: Option<string>, moderate: Option<string>, severe: Option<string>)

  datatype RacialBonuses = RacialBonuses(ability: Json, power: Json, skillBonuses: seq<string>)

  /** The skill ladder, rung by rung, and the equipment lists. */
  datatype Skills = Skills(great: seq<string>, good: seq<string>, fair: seq<string>, average: seq<string>)
  datatype Equipment = Equipment(weapons: seq<string>, armor: seq<string>, items: seq<string>)

  /** A character sheet as `create_character_template` builds it. */
  datatype Sheet = Sheet(
    name: string,
    id: string,
    player: string,
    race: string,
    standingStone: string,
    level: int,
    aspects: Aspects,
    skills: Skills,
    racialBonuses: RacialBonuses,
    stress: Stress,
    consequences: Consequences,
    stunts: seq<string>,
    refresh: int,
    fatePoints: int,
    equipment: Equipment,
    gold: int,
    experience: int,
    backstory: string,
    relationships: Object,
    quests: seq<Json>,
    sessionHistory: seq<Json>,
    notes: string)

  /** The requested race matches a record whose name is the same text in any
      case. */
  predicate NamesRace(r: Race, race: string) {
    Lower(r.name) == Lower(race)
  }

  /** The first race record named `race`, in any case. */
  function FindRace(races: seq<Race>, race: string): Option<Race>
    decreases |races|
  {
    if |races| == 0 then None
    else if NamesRace(races[0], race) then Some(races[0])
    else FindRace(races[1..], race)
  }

  /** The race is found exactly when some record names it, and the record found
      is the first that does. */
  lemma {:induction false} FindRaceSpec(races: seq<Race>, race: string)
    ensures FindRace(races, race).None? <==> forall i :: 0 <= i < |races| ==> !NamesRace(races[i], race)
    ensures FindRace(races, race).Some? ==>
      exists i :: 0 <= i < |races| && races[i] == FindRace(races, race).value &&
        NamesRace(races[i], race) && forall j :: 0 <= j < i ==> !NamesRace(races[j], race)
    decreases |races|
  {
    if |races| > 0 {
      FindRaceSpec(races[1..], race);
      if !NamesRace(races[0], race) {
        if FindRace(races, race).Some? {
          var i :| 0 <= i < |races[1..]| && races[1..][i] == FindRace(races, race).value &&
            NamesRace(races[1..][i], race) && forall j :: 0 <= j < i ==> !NamesRace(races[1..][j], race);
          assert races[i + 1] == races[1..][i];
          forall j | 0 <= j < i + 1
            ensures !NamesRace(races[j], race)
          {
            if j > 0 {
              assert races[j] == races[1..][j - 1];
            }
          }
        } else {
          forall i | 0 <= i < |races|
            ensures !NamesRace(races[i], race)
          {
            if i > 0 {
              assert races[i] == races[1..][i - 1];
            }
          }
        }
      } else {
        assert races[0] == FindRace(races, race).value;
      }
    }
  }

  /** The case of the requested race does not matter. */
  lemma {:induction false} FindRaceIgnoresCase(races: seq<Race>, race: string)
    ensures FindRace(races, Lower(race)) == FindRace(races, race)
    decreases |races|
  {
    LowerIdempotent(race);
    if |races| > 0 {
      FindRaceIgnoresCase(races[1..], race);
    }
  }

  /** The id of the character sheet for a name. */
  function CharacterId(characterName: string): string {
    "pc_" + Sanitize(characterName)
  }

  /** `create_character_template`: `None` when no race record is named
      `race`. */
  function CreateCharacterTemplate(playerName: string, characterName: string, races: seq<Race>, race: string, standingStone: string)
    : Option<Sheet>
  {
    match FindRace(races, race)
    case None => None
    case Some(r) =>
      Some(Sheet(
        characterName,
        CharacterId(characterName),
        playerName,
        r.name,
        standingStone,
        1,
        Aspects(r.startingAspect, "[Player to define]", "Blessed by " + standingStone, "[Player to define]", "[Player to define]"),
        Skills([], [], [], []),
        RacialBonuses(r.racialAbility, r.power.GetOr(JObj([])), r.skillBonuses),
        Stress([false, false], [false, false]),
        Consequences(None, None, None),
        [],
        3,
        3,
        Equipment([], [], []),
        100,
        0,
        "[Player to define during Session Zero]",
        [],
        [],
        [],
        "Created during Session Zero"))
  }

  /** A fresh sheet: level 1, two unchecked boxes on each stress track, no
      consequence, refresh 3, 3 fate points, 100 gold and no experience. */
  predicate Fresh(s: Sheet) {
    s.level == 1 &&
    |s.stress.physical| == 2 && |s.stress.mental| == 2 &&
    (forall i :: 0 <= i < 2 ==> !s.stress.physical[i] && !s.stress.mental[i]) &&
    s.consequences == Consequences(None, None, None) &&
    s.refresh == 3 && s.fatePoints == 3 && s.gold == 100 && s.experience == 0 &&
    s.stunts == [] && s.relationships == [] && s.quests == [] && s.sessionHistory == []
  }

  /** A sheet is made exactly when the race is found; it stores the race's own
      name rather than the requested spelling, takes the race's starting aspect
      as high concept and the stone as third aspect, has a clean `pc_` id, and is
      fresh. */
  lemma CreateCharacterTemplateSpec(playerName: string, characterName: string, races: seq<Race>, race: string, standingStone: string)
    ensures var t := CreateCharacterTemplate(playerName, characterName, races, race, standingStone);
      (t.None? <==> forall i :: 0 <= i < |races| ==> !NamesRace(races[i], race)) &&
      (t.Some? ==>
        var s := t.value;
        (exists i :: 0 <= i < |races| && races[i].name == s.race && NamesRace(races[i], race) &&
          s.aspects.highConcept == races[i].startingAspect) &&
        Lower(s.race) == Lower(race) &&
        s.name == characterName && s.player == playerName && s.standingStone == standingStone &&
        s.aspects.aspect3 == "Blessed by " + standingStone &&
        s.id[..3] == "pc_" && Clean(s.id[3..]) && s.id[3..] == Sanitize(characterName) &&
        Fresh(s))
  {
    FindRaceSpec(races, race);
    SanitizeClean(characterName);
    var id := CharacterId(characterName);
    assert id[..3] == "pc_" && id[3..] == Sanitize(characterName);
  }

  /** Names that differ only in case, or a name and its own id, give the same
      sheet id. */
  lemma CharacterIdIgnoresCase(characterName: string)
    ensures CharacterId(Lower(characterName)) == CharacterId(characterName)
    ensures CharacterId(Sanitize(characterName)) == CharacterId(characterName)
  {
    assert Underscored(Lower(characterName)) == Underscored(characterName);
    SanitizeIdempotent(characterName);
  }
}
