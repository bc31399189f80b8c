/** The faction manager. Its one field stands for `factions.json`: every method
    loads it, changes the loaded record and saves it, or gives up without saving. */
module FactionLogic {
  import opened Wrappers
  import opened Bounds
  import opened Text

  /** A trust or progress clock of a faction. */
  datatype Clock = Clock(name: string, progress: int, segments: int, effect: string)

  /** A resource value: a number, or anything else (a description). */
  datatype Resource = Num(n: int) | Str(s: string)

  /** A major faction; the optional parts are keys a faction file may lack. */
  datatype Faction = Faction(
    name: string,
    clocks: Option<seq<Clock>>,
    relationships: Option<map<string, int>>,
    resources: Option<map<string, Resource>>)

  /** `factions.json`: its `major_factions` section, if it has one. */
  datatype FactionsData = FactionsData(majorFactions: Option<map<string, Faction>>)

  /** `data.get('major_factions', {})[faction_id]` when the file exists and has it. */
  function Lookup(data: Option<FactionsData>, factionId: string): (r: Option<Faction>)
    ensures r.Some? <==> data.Some? && data.value.majorFactions.Some? && factionId in data.value.majorFactions.value
  {
    if data.Some? && data.value.majorFactions.Some? && factionId in data.value.majorFactions.value
    then Some(data.value.majorFactions.value[factionId])
    else None
  }

  /** The file with one faction replaced; only called when the faction exists. */
  function WithFaction(data: Option<FactionsData>, factionId: string, f: Faction): (r: Option<FactionsData>)
    requires Lookup(data, factionId).Some?
    ensures Lookup(r, factionId) == Some(f)
    ensures forall other :: other != factionId ==> Lookup(r, other) == Lookup(data, other)
  {
    Some(data.value.(majorFactions := Some(data.value.majorFactions.value[factionId := f])))
  }

  // ---------------------------------------------------------------------------
  // update_faction_clock

  /** The index of the first clock with the name, `|clocks|` when there is none. */
  function FirstClock(clocks: seq<Clock>, name: string): (i: nat)
    ensures i <= |clocks|
    ensures i < |clocks| ==> clocks[i].name == name
    ensures forall j :: 0 <= j < i ==> clocks[j].name != name
    decreases |clocks|
  {
    if |clocks| == 0 then 0
    else if clocks[0].name == name then 0
    else 1 + FirstClock(clocks[1..], name)
  }

  /** The faction's clocks after `update_faction_clock`, `None` when it gives up:
      the first clock with the name moves by the change, pulled into `[0, segments]`. */
  function ClockUpdate(data: Option<FactionsData>, factionId: string, clockName: string, change: int): (r: Option<FactionsData>)
    ensures r.None? <==> (Lookup(data, factionId).None? || Lookup(data, factionId).value.clocks.None? ||
      FirstClock(Lookup(data, factionId).value.clocks.value, clockName) == |Lookup(data, factionId).value.clocks.value|)
  {
    match Lookup(data, factionId)
    case None => None
    case Some(f) =>
      if f.clocks.None? then None
      else
        var clocks := f.clocks.value;
        var k := FirstClock(clocks, clockName);
        if k == |clocks| then None
        else
          var c := clocks[k];
          WithFaction(data, factionId, f.(clocks := Some(clocks[k := c.(progress := Max(0, Min(c.segments, c.progress + change)))])))
  }

  /** Updating a clock changes only the first clock with that name, only its
      progress, and leaves it in `[0, segments]`; other factions are untouched. */
  lemma ClockUpdateSpec(data: Option<FactionsData>, factionId: string, clockName: string, change: int)
    requires ClockUpdate(data, factionId, clockName, change).Some?
    ensures var before := Lookup(data, factionId).value;
      var after := Lookup(ClockUpdate(data, factionId, clockName, change), factionId).value;
      var k := FirstClock(before.clocks.value, clockName);
      var c := before.clocks.value[k];
      after.clocks.Some? && |after.clocks.value| == |before.clocks.value| &&
      after.clocks.value[k].name == clockName &&
      after.clocks.value[k] == c.(progress := after.clocks.value[k].progress) &&
      after.clocks.value[k].progress == (if c.segments < 0 then 0 else Clamp(c.progress + change, 0, c.segments)) &&
      0 <= after.clocks.value[k].progress &&
      (c.segments >= 0 ==> after.clocks.value[k].progress <= c.segments) &&
      (forall j :: 0 <= j < |before.clocks.value| && j != k ==> after.clocks.value[j] == before.clocks.value[j]) &&
      after == before.(clocks := after.clocks)
    ensures forall other :: other != factionId ==>
      Lookup(ClockUpdate(data, factionId, clockName, change), other) == Lookup(data, other)
  {
  }

  /** The clock found by the loop is the first clock with its name. */
  lemma {:induction false} FirstClockIs(clocks: seq<Clock>, name: string, i: nat)
    requires i < |clocks| && clocks[i].name == name
    requires forall j :: 0 <= j < i ==> clocks[j].name != name
    ensures FirstClock(clocks, name) == i
  {
    if i > 0 {
      assert clocks[0].name != name;
      assert clocks[1..][i - 1] == clocks[i];
      forall j | 0 <= j < i - 1
        ensures clocks[1..][j].name != name
      {
        assert clocks[1..][j] == clocks[j + 1];
      }
      FirstClockIs(clocks[1..], name, i - 1);
    }
  }

  // ---------------------------------------------------------------------------
  // update_faction_relationship

  /** A missing partner counts as 0; the new value is pulled into `[-100, 100]`. */
  function RelationshipUpdate(data: Option<FactionsData>, factionId: string, other: string, change: int): (r: Option<FactionsData>)
    ensures r.None? <==> Lookup(data, factionId).None? || Lookup(data, factionId).value.relationships.None?
  {
    match Lookup(data, factionId)
    case None => None
    case Some(f) =>
      if f.relationships.None? then None
      else
        var rel := f.relationships.value;
        var old_value := if other in rel then rel[other] else 0;
        WithFaction(data, factionId, f.(relationships := Some(rel[other := Max(-100, Min(100, old_value + change))])))
  }

  /** The new relationship lies in `[-100, 100]`, starts from 0 for a new partner,
      and no other relationship or faction changes. */
  lemma RelationshipUpdateSpec(data: Option<FactionsData>, factionId: string, other: string, change: int)
    requires RelationshipUpdate(data, factionId, other, change).Some?
    ensures var before := Lookup(data, factionId).value;
      var after := Lookup(RelationshipUpdate(data, factionId, other, change), factionId).value;
      var rel := before.relationships.value;
      after.relationships.Some? && other in after.relationships.value &&
      -100 <= after.relationships.value[other] <= 100 &&
      after.relationships.value[other] == Clamp((if other in rel then rel[other] else 0) + change, -100, 100) &&
      (other !in rel ==> after.relationships.value[other] == Clamp(change, -100, 100)) &&
      after.relationships.value.Keys == rel.Keys + {other} &&
      (forall o :: o in rel && o != other ==> after.relationships.value[o] == rel[o]) &&
      after == before.(relationships := after.relationships)
    ensures forall f :: f != factionId ==>
      Lookup(RelationshipUpdate(data, factionId, other, change), f) == Lookup(data, f)
  {
  }

  // ---------------------------------------------------------------------------
  // update_faction_resources

  /** A numeric resource moves by the change but never below 0; a missing or
      non-numeric resource makes the update give up. */
  function ResourceUpdate(data: Option<FactionsData>, factionId: string, resourceType: string, change: int): (r: Option<FactionsData>)
    ensures r.None? <==> (Lookup(data, factionId).None? || Lookup(data, factionId).value.resources.None? ||
      resourceType !in Lookup(data, factionId).value.resources.value ||
      !Lookup(data, factionId).value.resources.value[resourceType].Num?)
  {
    match Lookup(data, factionId)
    case None => None
    case Some(f) =>
      if f.resources.None? || resourceType !in f.resources.value then None
      else match f.resources.value[resourceType]
        case Str(_) => None
        case Num(n) => WithFaction(data, factionId, f.(resources := Some(f.resources.value[resourceType := Num(Max(0, n + change))])))
  }

  /** The resource becomes `max(0, old + change)`, so it is never negative; no other
      resource or faction changes. */
  lemma ResourceUpdateSpec(data: Option<FactionsData>, factionId: string, resourceType: string, change: int)
    requires ResourceUpdate(data, factionId, resourceType, change).Some?
    ensures var before := Lookup(data, factionId).value;
      var after := Lookup(ResourceUpdate(data, factionId, resourceType, change), factionId).value;
      var res := before.resources.value;
      after.resources.Some? && after.resources.value.Keys == res.Keys &&
      after.resources.value[resourceType] == Num(Max(0, res[resourceType].n + change)) &&
      after.resources.value[resourceType].n >= 0 &&
      (res[resourceType].n + change >= 0 ==> after.resources.value[resourceType].n == res[resourceType].n + change) &&
      (forall o :: o in res && o != resourceType ==> after.resources.value[o] == res[o]) &&
      after == before.(resources := after.resources)
    ensures forall f :: f != factionId ==>
      Lookup(ResourceUpdate(data, factionId, resourceType, change), f) == Lookup(data, f)
  {
  }

  // ---------------------------------------------------------------------------
  // simulate_faction_turn

  /** One background turn of a clock: one segment more unless it is full. */
  function Tick(c: Clock): Clock {
    if c.progress < c.segments then c.(progress := Min(c.segments, c.progress + 1)) else c
  }

  function Turn(clocks: seq<Clock>): (r: seq<Clock>)
    ensures |r| == |clocks|
  {
    seq(|clocks|, j requires 0 <= j < |clocks| => Tick(clocks[j]))
  }

  /** Some clock is below full, so the turn advances something. */
  predicate AnyBelowFull(clocks: seq<Clock>) {
    exists j :: 0 <= j < |clocks| && clocks[j].progress < clocks[j].segments
  }

  /** A turn moves every clock below full up by exactly one segment and leaves
      full clocks alone; it changes something iff some clock was below full. */
  lemma TurnSpec(clocks: seq<Clock>)
    ensures forall j :: 0 <= j < |clocks| && clocks[j].progress < clocks[j].segments ==>
      Turn(clocks)[j] == clocks[j].(progress := clocks[j].progress + 1)
    ensures forall j :: 0 <= j < |clocks| && clocks[j].progress >= clocks[j].segments ==>
      Turn(clocks)[j] == clocks[j]
    ensures Turn(clocks) != clocks <==> AnyBelowFull(clocks)
  {
    if AnyBelowFull(clocks) {
      var j :| 0 <= j < |clocks| && clocks[j].progress < clocks[j].segments;
      assert Turn(clocks)[j] != clocks[j];
    }
  }

  /** `n` turns in a row: every clock ends at `min(segments, progress + n)` when it
      started within its segments, so a clock never overshoots. */
  function Turns(clocks: seq<Clock>, n: nat): (r: seq<Clock>)
    ensures |r| == |clocks|
    decreases n
  {
    if n == 0 then clocks else Turns(Turn(clocks), n - 1)
  }

  lemma {:induction false} TurnsFill(clocks: seq<Clock>, n: nat)
    requires forall j :: 0 <= j < |clocks| ==> 0 <= clocks[j].progress <= clocks[j].segments
    ensures forall j :: 0 <= j < |clocks| ==>
      Turns(clocks, n)[j] == clocks[j].(progress := Min(clocks[j].segments, clocks[j].progress + n))
    decreases n
  {
    if n > 0 {
      var next := Turn(clocks);
      assert forall j :: 0 <= j < |clocks| ==> next[j] == Tick(clocks[j]);
      TurnsFill(next, n - 1);
    }
  }

  /** The whole file after `simulate_faction_turn`, `None` when nothing moves. */
  function TurnUpdate(data: Option<FactionsData>, factionId: string): (r: Option<FactionsData>)
    ensures r.Some? <==> (Lookup(data, factionId).Some? && Lookup(data, factionId).value.clocks.Some? &&
      AnyBelowFull(Lookup(data, factionId).value.clocks.value))
  {
    match Lookup(data, factionId)
    case None => None
    case Some(f) =>
      if f.clocks.None? || !AnyBelowFull(f.clocks.value) then None
      else WithFaction(data, factionId, f.(clocks := Some(Turn(f.clocks.value))))
  }

  // ---------------------------------------------------------------------------
  // Pure rules: the status and rank ladders, conflicts, the progress bar

  const StatusThresholds: seq<int> := [-50, -20, 20, 50]
  const StatusNames: seq<string> := ["Hostile", "Unfriendly", "Neutral", "Friendly", "Allied"]

  /** The relationship status shown by `check_faction_status`. */
  function RelationshipStatus(value: int): string {
    if value >= 50 then "Allied"
    else if value >= 20 then "Friendly"
    else if value >= -20 then "Neutral"
    else if value >= -50 then "Unfriendly"
    else "Hostile"
  }

  /** The ladder names the status by the number of thresholds reached, so a
      better relationship never reads as a worse status. */
  lemma RelationshipLadder(value: int)
    ensures RelationshipStatus(value) == StatusNames[Reached(value, StatusThresholds)]
  {
    var t := StatusThresholds;
    assert t[1..] == [-20, 20, 50] && t[1..][1..] == [20, 50] && t[1..][1..][1..] == [50] && t[1..][1..][1..][1..] == [];
    assert Reached(value, [50]) == (if value >= 50 then 1 else 0);
    assert Reached(value, [20, 50]) == (if value >= 20 then 1 else 0) + Reached(value, [50]);
    assert Reached(value, [-20, 20, 50]) == (if value >= -20 then 1 else 0) + Reached(value, [20, 50]);
    var n := Reached(value, t);
    assert n == (if value >= -50 then 1 else 0) + (if value >= -20 then 1 else 0) + (if value >= 20 then 1 else 0) + (if value >= 50 then 1 else 0);
    assert StatusNames[0] == "Hostile" && StatusNames[1] == "Unfriendly" && StatusNames[2] == "Neutral";
    assert StatusNames[3] == "Friendly" && StatusNames[4] == "Allied";
  }

  const RankThresholds: seq<int> := [20, 40, 60, 80]
  const RankNames: seq<string> := ["Not yet eligible", "Entry rank eligible", "Mid rank eligible", "High rank eligible", "Highest rank eligible"]

  /** `track_player_faction_standing`. */
  function RankEligibility(reputation: int): string {
    if reputation >= 80 then "Highest rank eligible"
    else if reputation >= 60 then "High rank eligible"
    else if reputation >= 40 then "Mid rank eligible"
    else if reputation >= 20 then "Entry rank eligible"
    else "Not yet eligible"
  }

  lemma RankLadder(reputation: int)
    ensures RankEligibility(reputation) == RankNames[Reached(reputation, RankThresholds)]
  {
    var t := RankThresholds;
    assert t[1..] == [40, 60, 80] && t[1..][1..] == [60, 80] && t[1..][1..][1..] == [80] && t[1..][1..][1..][1..] == [];
    assert Reached(reputation, [80]) == (if reputation >= 80 then 1 else 0);
    assert Reached(reputation, [60, 80]) == (if reputation >= 60 then 1 else 0) + Reached(reputation, [80]);
    assert Reached(reputation, [40, 60, 80]) == (if reputation >= 40 then 1 else 0) + Reached(reputation, [60, 80]);
    var n := Reached(reputation, t);
    assert n == (if reputation >= 20 then 1 else 0) + (if reputation >= 40 then 1 else 0) + (if reputation >= 60 then 1 else 0) + (if reputation >= 80 then 1 else 0);
    assert RankNames[0] == "Not yet eligible" && RankNames[1] == "Entry rank eligible" && RankNames[2] == "Mid rank eligible";
    assert RankNames[3] == "High rank eligible" && RankNames[4] == "Highest rank eligible";
  }

  /** More reputation never lowers the rank, nor a better value the status. */
  lemma LaddersMonotone(a: int, b: int)
    requires a <= b
    ensures Reached(a, RankThresholds) <= Reached(b, RankThresholds)
    ensures Reached(a, StatusThresholds) <= Reached(b, StatusThresholds)
  {
    ReachedMonotone(a, b, RankThresholds);
    ReachedMonotone(a, b, StatusThresholds);
  }

  /** The reply of `faction_conflict_resolution`. */
  datatype Outcome = Outcome(winner: string, margin: int, f1Strength: Resource, f2Strength: Resource)

  /** `faction_conflict_resolution`: `Ok(None)` is the `None` reply. A missing
      `major_factions` or `resources` key raises `KeyError`; strengths that are
      not two numbers raise `TypeError` unless they are equal texts. */
  function Conflict(data: Option<FactionsData>, faction1Id: string, faction2Id: string): (r: Result<Option<Outcome>>)
    ensures data.None? ==> r == Ok(None)
  {
    if data.None? then Ok(None)
    else if data.value.majorFactions.None? then Raised("KeyError")
    else
      var factions := data.value.majorFactions.value;
      if faction1Id !in factions || faction2Id !in factions then Ok(None)
      else
        var f1 := factions[faction1Id];
        var f2 := factions[faction2Id];
        if f1.resources.None? then Raised("KeyError")
        else
          var str1 := if "military_strength" in f1.resources.value then f1.resources.value["military_strength"] else Num(50);
          if f2.resources.None? then Raised("KeyError")
          else
            var str2 := if "military_strength" in f2.resources.value then f2.resources.value["military_strength"] else Num(50);
            match (str1, str2)
            case (Num(s1), Num(s2)) =>
              if s1 > s2 then Ok(Some(Outcome(f1.name, s1 - s2, str1, str2)))
              else if s2 > s1 then Ok(Some(Outcome(f2.name, s2 - s1, str1, str2)))
              else Ok(Some(Outcome("Stalemate", 0, str1, str2)))
            case (Str(t1), Str(t2)) =>
              if t1 == t2 then Ok(Some(Outcome("Stalemate", 0, str1, str2))) else Raised("TypeError")
            case _ => Raised("TypeError")
  }

  /** The military strength a faction fights with: 50 when it names none. */
  function Strength(f: Faction): Resource
    requires f.resources.Some?
  {
    if "military_strength" in f.resources.value then f.resources.value["military_strength"] else Num(50)
  }

  /** Two strengths the comparison can settle: two numbers, or two equal texts
      (unequal texts compare, but their difference cannot be taken). */
  predicate Comparable(s1: Resource, s2: Resource) {
    (s1.Num? && s2.Num?) || (s1.Str? && s2.Str? && s1.s == s2.s)
  }

  /** `o` is the reply for a fight between `f1` and `f2`: it reports both
      strengths, the stronger faction wins by the difference, and a tie is a
      stalemate with margin 0. */
  predicate Fought(f1: Faction, f2: Faction, o: Outcome)
    requires f1.resources.Some? && f2.resources.Some?
  {
    var s1 := Strength(f1);
    var s2 := Strength(f2);
    o.f1Strength == s1 && o.f2Strength == s2 && o.margin >= 0 &&
    (s1.Num? && s2.Num? ==>
      o.margin == (if s1.n >= s2.n then s1.n - s2.n else s2.n - s1.n) &&
      (s1.n > s2.n ==> o.winner == f1.name) &&
      (s2.n > s1.n ==> o.winner == f2.name) &&
      (s1.n == s2.n ==> o.winner == "Stalemate" && o.margin == 0)) &&
    (s1.Str? ==> o.winner == "Stalemate" && o.margin == 0)
  }

  /** Between two factions that both have resources, a reply comes exactly when
      their strengths are comparable, and it is the fight's outcome. */
  lemma ConflictSpec(data: Option<FactionsData>, faction1Id: string, faction2Id: string)
    requires Lookup(data, faction1Id).Some? && Lookup(data, faction2Id).Some?
    requires Lookup(data, faction1Id).value.resources.Some? && Lookup(data, faction2Id).value.resources.Some?
    ensures var f1 := Lookup(data, faction1Id).value;
      var f2 := Lookup(data, faction2Id).value;
      var r := Conflict(data, faction1Id, faction2Id);
      (r.Ok? <==> Comparable(Strength(f1), Strength(f2))) &&
      (r.Ok? ==> r.value.Some? && Fought(f1, f2, r.value.value))
  {
  }

  /** A faction without a stated strength fights at 50. */
  lemma DefaultStrength(f: Faction)
    requires f.resources.Some? && "military_strength" !in f.resources.value
    ensures Strength(f) == Num(50)
  {
  }

  /** Swapping the two factions keeps the winner and the margin. */
  lemma ConflictSymmetric(data: Option<FactionsData>, faction1Id: string, faction2Id: string)
    requires Conflict(data, faction1Id, faction2Id).Ok? && Conflict(data, faction1Id, faction2Id).value.Some?
    ensures var r := Conflict(data, faction1Id, faction2Id).value.value;
      var s := Conflict(data, faction2Id, faction1Id);
      s.Ok? && s.value.Some? && s.value.value.winner == r.winner && s.value.value.margin == r.margin &&
      s.value.value.f1Strength == r.f2Strength && s.value.value.f2Strength == r.f1Strength
  {
  }

  /** The clock's progress bar in `check_faction_status`. */
  function ProgressBar(c: Clock): string {
    Repeat('█', c.progress) + Repeat('░', c.segments - c.progress)
  }

  /** A clock within its segments draws exactly `segments` characters, the filled
      ones first. */
  lemma ProgressBarSpec(c: Clock)
    requires 0 <= c.progress <= c.segments
    ensures |ProgressBar(c)| == c.segments
    ensures forall i :: 0 <= i < |ProgressBar(c)| ==> (ProgressBar(c)[i] == '█' <==> i < c.progress)
  {
  }

  // ---------------------------------------------------------------------------
  // The manager

  class FactionManager {
    /** `factions.json`, `None` when the file does not exist. */
    var data: Option<FactionsData>

    constructor(data: Option<FactionsData>)
      ensures this.data == data
    {
      this.data := data;
    }

    /** `update_faction_clock`: looks for the first clock with the name. */
    method UpdateFactionClock(factionId: string, clockName: string, progressChange: int) returns (r: bool)
      modifies this
      ensures r == ClockUpdate(old(data), factionId, clockName, progressChange).Some?
      ensures data == if r then ClockUpdate(old(data), factionId, clockName, progressChange) else old(data)
    {
      if data.None? || data.value.majorFactions.None? || factionId !in data.value.majorFactions.value {
        return false;
      }
      var faction := data.value.majorFactions.value[factionId];
      if faction.clocks.None? {
        return false;
      }
      var clocks := faction.clocks.value;
      var i := 0;
      while i < |clocks|
        invariant 0 <= i <= |clocks|
        invariant forall j :: 0 <= j < i ==> clocks[j].name != clockName
      {
        if clocks[i].name == clockName {
          FirstClockIs(clocks, clockName, i);
          var clock := clocks[i];
          clock := clock.(progress := Max(0, Min(clock.segments, clock.progress + progressChange)));
          data := Some(data.value.(majorFactions := Some(data.value.majorFactions.value[factionId := faction.(clocks := Some(clocks[i := clock]))])));
          return true;
        }
        i := i + 1;
      }
      return false;
    }

    /** `update_faction_relationship`. */
    method UpdateFactionRelationship(factionId: string, otherFaction: string, change: int) returns (r: bool)
      modifies this
      ensures r == RelationshipUpdate(old(data), factionId, otherFaction, change).Some?
      ensures data == if r then RelationshipUpdate(old(data), factionId, otherFaction, change) else old(data)
    {
      if data.None? || data.value.majorFactions.None? || factionId !in data.value.majorFactions.value {
        return false;
      }
      var faction := data.value.majorFactions.value[factionId];
      if faction.relationships.None? {
        return false;
      }
      var relationships := faction.relationships.value;
      var oldValue := if otherFaction in relationships then relationships[otherFaction] else 0;
      var newValue := Max(-100, Min(100, oldValue + change));
      relationships := relationships[otherFaction := newValue];
      data := Some(data.value.(majorFactions := Some(data.value.majorFactions.value[factionId := faction.(relationships := Some(relationships))])));
      return true;
    }

    /** `update_faction_resources`. */
    method UpdateFactionResources(factionId: string, resourceType: string, change: int) returns (r: bool)
      modifies this
      ensures r == ResourceUpdate(old(data), factionId, resourceType, change).Some?
      ensures data == if r then ResourceUpdate(old(data), factionId, resourceType, change) else old(data)
    {
      if data.None? || data.value.majorFactions.None? || factionId !in data.value.majorFactions.value {
        return false;
      }
      var faction := data.value.majorFactions.value[factionId];
      if faction.resources.None? || resourceType !in faction.resources.value {
        return false;
      }
      var oldValue := faction.resources.value[resourceType];
      if !oldValue.Num? {
        return false;
      }
      var newValue := Max(0, oldValue.n + change);
      var resources := faction.resources.value[resourceType := Num(newValue)];
      data := Some(data.value.(majorFactions := Some(data.value.majorFactions.value[factionId := faction.(resources := Some(resources))])));
      return true;
    }

    /** `simulate_faction_turn`: every clock below full moves one segment; the
        file is saved only when something moved. */
    method SimulateFactionTurn(factionId: string) returns (r: bool)
      modifies this
      ensures r == TurnUpdate(old(data), factionId).Some?
      ensures data == if r then TurnUpdate(old(data), factionId) else old(data)
    {
      if data.None? || data.value.majorFactions.None? || factionId !in data.value.majorFactions.value {
        return false;
      }
      var faction := data.value.majorFactions.value[factionId];
      var clocks := if faction.clocks.Some? then faction.clocks.value else [];
      ghost var before := clocks;
      var changesMade := false;
      var i := 0;
      while i < |clocks|
        invariant 0 <= i <= |clocks| == |before|
        invariant forall j :: 0 <= j < i ==> clocks[j] == Tick(before[j])
        invariant forall j :: i <= j < |clocks| ==> clocks[j] == before[j]
        invariant changesMade <==> exists j :: 0 <= j < i && before[j].progress < before[j].segments
      {
        if clocks[i].progress < clocks[i].segments {
          var clock := clocks[i];
          clocks := clocks[i := clock.(progress := Min(clock.segments, clock.progress + 1))];
          changesMade := true;
        }
        i := i + 1;
      }
      if changesMade {
        assert clocks == Turn(before);
        data := Some(data.value.(majorFactions := Some(data.value.majorFactions.value[factionId := faction.(clocks := Some(clocks))])));
      }
      return changesMade;
    }

    /** `faction_conflict_resolution`: reads the file and changes nothing. No
        reply comes without the file or either faction; a reply is the outcome
        of the fight. */
    method FactionConflictResolution(faction1Id: string, faction2Id: string) returns (r: Result<Option<Outcome>>)
      ensures r == Conflict(data, faction1Id, faction2Id)
      ensures r == Ok(None) <==>
        data.None? || (data.value.majorFactions.Some? && (Lookup(data, faction1Id).None? || Lookup(data, faction2Id).None?))
      ensures r.Ok? && r.value.Some? <==>
        Lookup(data, faction1Id).Some? && Lookup(data, faction2Id).Some? &&
        Lookup(data, faction1Id).value.resources.Some? && Lookup(data, faction2Id).value.resources.Some? &&
        Comparable(Strength(Lookup(data, faction1Id).value), Strength(Lookup(data, faction2Id).value))
      ensures r.Ok? && r.value.Some? ==> Fought(Lookup(data, faction1Id).value, Lookup(data, faction2Id).value, r.value.value)
    {
      if data.None? {
        return Ok(None);
      }
      if data.value.majorFactions.None? {
        return Raised("KeyError");
      }
      var factions := data.value.majorFactions.value;
      if faction1Id !in factions || faction2Id !in factions {
        return Ok(None);
      }
      var f1 := factions[faction1Id];
      var f2 := factions[faction2Id];
      if f1.resources.None? || f2.resources.None? {
        return Raised("KeyError");
      }
      var str1 := Strength(f1);
      var str2 := Strength(f2);
      ConflictSpec(data, faction1Id, faction2Id);
      if str1.Num? && str2.Num? {
        if str1.n > str2.n {
          r := Ok(Some(Outcome(f1.name, str1.n - str2.n, str1, str2)));
        } else if str2.n > str1.n {
          r := Ok(Some(Outcome(f2.name, str2.n - str1.n, str1, str2)));
        } else {
          r := Ok(Some(Outcome("Stalemate", 0, str1, str2)));
        }
      } else if str1.Str? && str2.Str? && str1.s == str2.s {
        r := Ok(Some(Outcome("Stalemate", 0, str1, str2)));
      } else {
        r := Raised("TypeError");
      }
    }
  }
}
