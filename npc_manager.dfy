/** The NPC manager. Its one field stands for the `npcs` directory: one record per
    file, by file name. Loading reads a record, saving writes it back under the
    record's own `id`. */
module NpcManager {
  import opened Wrappers
  import opened Bounds
  import opened Text
  import opened Identifiers

  /** One entry of `loyalty_history`; the timestamp is left out. */
  datatype LoyaltyEntry = LoyaltyEntry(change: int, reason: string, newLoyalty: int)

  /** An NPC record; the optional parts are keys a record may lack. */
  datatype Npc = Npc(
    id: Option<string>,
    name: string,
    role: Option<string>,
    faction: Option<string>,
    loyalty: Option<int>,
    loyaltyHistory: Option<seq<LoyaltyEntry>>)

  /** `npc.get('loyalty', 50)`. */
  function Loyalty(npc: Npc): int {
    npc.loyalty.GetOr(50)
  }

  /** `save_npc` writes a record only when its `id` is present and not empty. */
  predicate HasId(npc: Npc) {
    npc.id.Some? && |npc.id.value| > 0
  }

  /** The directory after `save_npc`: the record under its own id, or unchanged. */
  function Saved(files: map<string, Npc>, npc: Npc): (r: map<string, Npc>)
    ensures HasId(npc) ==> npc.id.value in r && r[npc.id.value] == npc
    ensures !HasId(npc) ==> r == files
    ensures forall k :: k in files && !(HasId(npc) && k == npc.id.value) ==> k in r && r[k] == files[k]
    ensures r.Keys <= files.Keys + (if HasId(npc) then {npc.id.value} else {})
  {
    if HasId(npc) then files[npc.id.value := npc] else files
  }

  /** The record after `update_loyalty`: a missing loyalty starts at 50, the new
      loyalty is pulled into `[0, 100]`, and one history entry records the change. */
  function LoyaltyUpdated(npc: Npc, change: int, reason: string): Npc {
    var loyalty := Max(0, Min(100, Loyalty(npc) + change));
    var history := if npc.loyaltyHistory.Some? then npc.loyaltyHistory.value else [];
    npc.(loyalty := Some(loyalty), loyaltyHistory := Some(history + [LoyaltyEntry(change, reason, loyalty)]))
  }

  /** Loyalty stays in `[0, 100]`, moves by the change when that stays in range,
      and the history grows by exactly one entry naming the change, the reason
      and the new loyalty; nothing else in the record changes. */
  lemma LoyaltyUpdatedSpec(npc: Npc, change: int, reason: string)
    ensures var after := LoyaltyUpdated(npc, change, reason);
      var before := if npc.loyaltyHistory.Some? then npc.loyaltyHistory.value else [];
      after.loyalty.Some? && 0 <= after.loyalty.value <= 100 &&
      after.loyalty.value == Clamp(Loyalty(npc) + change, 0, 100) &&
      (npc.loyalty.None? ==> after.loyalty.value == Clamp(50 + change, 0, 100)) &&
      after.loyaltyHistory.Some? && |after.loyaltyHistory.value| == |before| + 1 &&
      after.loyaltyHistory.value[..|before|] == before &&
      after.loyaltyHistory.value[|before|] == LoyaltyEntry(change, reason, after.loyalty.value) &&
      after.(loyalty := npc.loyalty, loyaltyHistory := npc.loyaltyHistory) == npc
  {
  }

  /** Two updates in a row leave two entries, in order. */
  lemma TwoUpdates(npc: Npc, c1: int, r1: string, c2: int, r2: string)
    ensures var once := LoyaltyUpdated(npc, c1, r1);
      var twice := LoyaltyUpdated(once, c2, r2);
      var before := if npc.loyaltyHistory.Some? then npc.loyaltyHistory.value else [];
      twice.loyaltyHistory.value == before + [once.loyaltyHistory.value[|before|], twice.loyaltyHistory.value[|before| + 1]] &&
      twice.loyaltyHistory.value[|before|].change == c1 && twice.loyaltyHistory.value[|before| + 1].change == c2 &&
      twice.loyalty.value == Clamp(Clamp(Loyalty(npc) + c1, 0, 100) + c2, 0, 100)
  {
    LoyaltyUpdatedSpec(npc, c1, r1);
    LoyaltyUpdatedSpec(LoyaltyUpdated(npc, c1, r1), c2, r2);
  }

  const LoyaltyThresholds: seq<int> := [20, 40, 60, 80]
  const LoyaltyStatuses: seq<string> := [
    "⚠️ At risk of leaving!", "May refuse dangerous orders", "Questioning loyalty",
    "Loyal companion", "Deeply loyal - will sacrifice for party"]

  /** The status `update_loyalty` reports. */
  function LoyaltyStatus(loyalty: int): string {
    if loyalty >= 80 then "Deeply loyal - will sacrifice for party"
    else if loyalty >= 60 then "Loyal companion"
    else if loyalty >= 40 then "Questioning loyalty"
    else if loyalty >= 20 then "May refuse dangerous orders"
    else "⚠️ At risk of leaving!"
  }

  /** The status is named by the number of thresholds the loyalty reaches. */
  lemma LoyaltyLadder(loyalty: int)
    ensures LoyaltyStatus(loyalty) == LoyaltyStatuses[Reached(loyalty, LoyaltyThresholds)]
  {
    var t := LoyaltyThresholds;
    assert t[1..] == [40, 60, 80] && t[1..][1..] == [60, 80] && t[1..][1..][1..] == [80] && t[1..][1..][1..][1..] == [];
    assert Reached(loyalty, [80]) == (if loyalty >= 80 then 1 else 0);
    assert Reached(loyalty, [60, 80]) == (if loyalty >= 60 then 1 else 0) + Reached(loyalty, [80]);
    assert Reached(loyalty, [40, 60, 80]) == (if loyalty >= 40 then 1 else 0) + Reached(loyalty, [60, 80]);
    assert LoyaltyStatuses[0] == "⚠️ At risk of leaving!" && LoyaltyStatuses[1] == "May refuse dangerous orders";
    assert LoyaltyStatuses[2] == "Questioning loyalty" && LoyaltyStatuses[3] == "Loyal companion";
    assert LoyaltyStatuses[4] == "Deeply loyal - will sacrifice for party";
  }

  /** The verdict of `companion_loyalty_check` for a loaded record: the text it
      reports and whether the companion complies. */
  function Compliance(loyalty: int): (string, bool) {
    if loyalty >= 80 then ("Will follow without question", true)
    else if loyalty >= 60 then ("Will follow orders", true)
    else if loyalty >= 40 then ("May hesitate or question", true)
    else if loyalty >= 20 then ("Likely to refuse dangerous/immoral orders", false)
    else ("Will refuse and may leave", false)
  }

  /** A companion complies exactly when it reaches the middle threshold, 40. */
  lemma ComplianceThreshold(loyalty: int)
    ensures Compliance(loyalty).1 <==> loyalty >= 40
    ensures Compliance(loyalty).1 <==> Reached(loyalty, LoyaltyThresholds) >= 2
  {
    var t := LoyaltyThresholds;
    assert t[1..] == [40, 60, 80] && t[1..][1..] == [60, 80] && t[1..][1..][1..] == [80] && t[1..][1..][1..][1..] == [];
    assert Reached(loyalty, [80]) == (if loyalty >= 80 then 1 else 0);
    assert Reached(loyalty, [60, 80]) == (if loyalty >= 60 then 1 else 0) + Reached(loyalty, [80]);
    assert Reached(loyalty, [40, 60, 80]) == (if loyalty >= 40 then 1 else 0) + Reached(loyalty, [60, 80]);
  }

  /** The loyalty bar of `check_companion_status`: one filled box per 5 points. */
  function LoyaltyBar(loyalty: int): string {
    Repeat('█', loyalty / 5) + Repeat('░', 20 - loyalty / 5)
  }

  /** For a loyalty in `[0, 100]` the bar is 20 boxes, `loyalty // 5` of them filled
      and first. */
  lemma LoyaltyBarSpec(loyalty: int)
    requires 0 <= loyalty <= 100
    ensures |LoyaltyBar(loyalty)| == 20
    ensures forall i :: 0 <= i < 20 ==> (LoyaltyBar(loyalty)[i] == '█' <==> i < loyalty / 5)
  {
  }

  class NpcStore {
    /** The records of the `npcs` directory, by file name. */
    var npcs: map<string, Npc>

    constructor(npcs: map<string, Npc>)
      ensures this.npcs == npcs
    {
      this.npcs := npcs;
    }

    /** `save_npc`: refuses a record without an `id`. */
    method SaveNpc(npc: Npc) returns (r: bool)
      modifies this
      ensures r == HasId(npc)
      ensures npcs == Saved(old(npcs), npc)
    {
      if npc.id.None? || |npc.id.value| == 0 {
        return false;
      }
      npcs := npcs[npc.id.value := npc];
      return true;
    }

    /** `update_loyalty`: `True` once the record was found, even when saving it is
        refused because it has no `id`. */
    method UpdateLoyalty(npcId: string, change: int, reason: string) returns (r: bool)
      modifies this
      ensures r == (npcId in old(npcs))
      ensures npcs == if r then Saved(old(npcs), LoyaltyUpdated(old(npcs)[npcId], change, reason)) else old(npcs)
    {
      if npcId !in npcs {
        return false;
      }
      var npc := npcs[npcId];
      if npc.loyalty.None? {
        npc := npc.(loyalty := Some(50));
      }
      npc := npc.(loyalty := Some(Max(0, Min(100, npc.loyalty.value + change))));
      if npc.loyaltyHistory.None? {
        npc := npc.(loyaltyHistory := Some([]));
      }
      npc := npc.(loyaltyHistory := Some(npc.loyaltyHistory.value + [LoyaltyEntry(change, reason, npc.loyalty.value)]));
      var _ := SaveNpc(npc);
      return true;
    }

    /** `companion_loyalty_check`: a missing NPC never complies. */
    function CompanionLoyaltyCheck(npcId: string): (r: bool)
      reads this
      ensures r <==> npcId in npcs && Loyalty(npcs[npcId]) >= 40
      ensures npcId in npcs && npcs[npcId].loyalty.None? ==> r
    {
      ComplianceThreshold(if npcId in npcs then Loyalty(npcs[npcId]) else 0);
      if npcId !in npcs then false else Compliance(Loyalty(npcs[npcId])).1
    }

    /** `create_npc_template`: the new record is saved under the id made from the
        name, which is refused when that id is empty. */
    method CreateNpcTemplate(name: string, role: string, faction: Option<string>) returns (npc: Npc)
      modifies this
      ensures npc == Npc(Some(Sanitize(name)), name, Some(role), faction, Some(50), None)
      ensures npcs == Saved(old(npcs), npc)
    {
      npc := Npc(Some(Sanitize(name)), name, Some(role), faction, Some(50), None);
      var _ := SaveNpc(npc);
    }
  }

  /** A template's id is clean, and a name with no letter, digit or `_` left after
      sanitising is never saved. */
  lemma TemplateId(name: string)
    ensures Clean(Sanitize(name))
    ensures HasId(Npc(Some(Sanitize(name)), name, None, None, Some(50), None)) <==> |Sanitize(name)| > 0
  {
    SanitizeClean(name);
  }
}
