/** Scene and quest triggers for Falkreath Hold and the Dark Brotherhood. Every
    trigger is a guarded write of one flag, set to `True`, into a state dict the
    caller owns; the printed scene is modelled by the `fired` result. */
module FalkreathTriggers {
  import opened Wrappers
  import opened Text
  import opened Json

  const SeenIntro := "seen_falkreath_intro"
  const GraveyardScene := "witnessed_graveyard_scene"
  const BanditQuestGiven := "falkreath_bandit_quest_given"
  const VampireQuestGiven := "dengeir_vampire_quest_given"
  const InnocenceLost := "innocence_lost_completed"
  const MurderCommitted := "murder_committed"
  const Contacted := "dark_brotherhood_contacted"
  const Joined := "dark_brotherhood_joined"
  const AbductionScene := "astrid_abduction_scene"
  const SanctuaryDiscovered := "dark_brotherhood_sanctuary_discovered"
  const Member := "dark_brotherhood_member"
  const SanctuaryEntered := "dark_brotherhood_sanctuary_entered"

  /** The text that marks the sanctuary door, matched case-sensitively. */
  const SanctuaryName := "Dark Brotherhood Sanctuary"

  /** `d[key] = True`: the flag reads as set, every other key keeps its value,
      and no flag that was set is cleared. */
  function Mark(s: Object, key: string): (r: Object)
    ensures Flag(r, key) && Get(r, key) == Some(JBool(true))
    ensures forall k :: k != key ==> Get(r, k) == Get(s, k)
    ensures forall k :: Flag(s, k) ==> Flag(r, k)
  {
    Put(s, key, JBool(true))
  }

  /** Marking the same flag twice is marking it once. */
  lemma MarkIdempotent(s: Object, key: string)
    ensures Mark(Mark(s, key), key) == Mark(s, key)
  {
    PutPut(s, key, JBool(true), JBool(true));
  }

  /** A guarded trigger: when `due`, the scene fires and `key` is marked;
      otherwise nothing fires and the state is left alone. */
  function Trigger(due: bool, s: Object, key: string): (r: (bool, Object))
    ensures r.0 == due
    ensures r.0 ==> Get(r.1, key) == Some(JBool(true))
    ensures forall k :: k != key ==> Get(r.1, k) == Get(s, k)
    ensures forall k :: Flag(s, k) ==> Flag(r.1, k)
  {
    if due then (true, Mark(s, key)) else (false, s)
  }

  // ---------------------------------------------------------------------------
  // The transitions, as functions of the state they read

  function SiddgeirBounty(s: Object): (bool, Object) {
    Trigger(!Flag(s, BanditQuestGiven), s, BanditQuestGiven)
  }

  function DengeirVampireHunt(s: Object): (bool, Object) {
    Trigger(!Flag(s, VampireQuestGiven), s, VampireQuestGiven)
  }

  /** The party earned the Brotherhood's notice. */
  predicate Noticed(partyActions: Object) {
    Flag(partyActions, InnocenceLost) || Flag(partyActions, MurderCommitted)
  }

  function BrotherhoodContact(partyActions: Object, s: Object): (bool, Object) {
    Trigger(Noticed(partyActions) && !Flag(s, Contacted), s, Contacted)
  }

  /** Astrid's guard does not test its own flag: the scene repeats while the party
      is contacted and has not joined. */
  function AstridAbduction(s: Object): (bool, Object) {
    Trigger(Flag(s, Contacted) && !Flag(s, Joined), s, AbductionScene)
  }

  /** The location is searched for the sanctuary's name before the flag is read,
      so a location that cannot be searched (such as `None`) raises. */
  function SanctuaryDiscovery(playerLocation: Json, s: Object): Result<(bool, Object)> {
    match ContainsText(playerLocation, SanctuaryName)
    case Raised(e) => Raised(e)
    case Ok(near) => Ok(Trigger(near && !Flag(s, SanctuaryDiscovered), s, SanctuaryDiscovered))
  }

  function SanctuaryEntry(s: Object): (bool, Object) {
    Trigger(Flag(s, Member) && !Flag(s, SanctuaryEntered), s, SanctuaryEntered)
  }

  // ---------------------------------------------------------------------------
  // The source's functions, writing into the caller's dict

  /** `scene_falkreath_arrival`: the scene always plays; a given party state
      records it. */
  method SceneFalkreathArrival(partyState: JsonDict?)
    modifies partyState
    ensures partyState != null ==> partyState.members == Mark(old(partyState.members), SeenIntro)
  {
    if partyState != null {
      partyState.Assign(SeenIntro, JBool(true));
    }
  }

  /** `scene_falkreath_graveyard`. */
  method SceneFalkreathGraveyard(partyState: JsonDict?)
    modifies partyState
    ensures partyState != null ==> partyState.members == Mark(old(partyState.members), GraveyardScene)
  {
    if partyState != null {
      partyState.Assign(GraveyardScene, JBool(true));
    }
  }

  /** Runs one guarded trigger against the caller's dict. */
  method Fire(due: bool, campaignState: JsonDict, key: string) returns (fired: bool)
    modifies campaignState
    ensures (fired, campaignState.members) == Trigger(due, old(campaignState.members), key)
  {
    fired := due;
    if due {
      campaignState.Assign(key, JBool(true));
    }
  }

  /** `trigger_siddgeir_bandit_bounty`. */
  method TriggerSiddgeirBanditBounty(campaignState: JsonDict) returns (fired: bool)
    modifies campaignState
    ensures (fired, campaignState.members) == SiddgeirBounty(old(campaignState.members))
  {
    fired := Fire(!campaignState.IsSet(BanditQuestGiven), campaignState, BanditQuestGiven);
  }

  /** `trigger_dengeir_vampire_hunt`. */
  method TriggerDengeirVampireHunt(campaignState: JsonDict) returns (fired: bool)
    modifies campaignState
    ensures (fired, campaignState.members) == DengeirVampireHunt(old(campaignState.members))
  {
    fired := Fire(!campaignState.IsSet(VampireQuestGiven), campaignState, VampireQuestGiven);
  }

  /** `trigger_dark_brotherhood_contact`: `partyActions` is only read. */
  method TriggerDarkBrotherhoodContact(partyActions: Object, campaignState: JsonDict) returns (fired: bool)
    modifies campaignState
    ensures (fired, campaignState.members) == BrotherhoodContact(partyActions, old(campaignState.members))
  {
    var noticed := Flag(partyActions, InnocenceLost) || Flag(partyActions, MurderCommitted);
    fired := Fire(noticed && !campaignState.IsSet(Contacted), campaignState, Contacted);
  }

  /** `scene_astrid_abduction`. */
  method SceneAstridAbduction(campaignState: JsonDict) returns (fired: bool)
    modifies campaignState
    ensures (fired, campaignState.members) == AstridAbduction(old(campaignState.members))
  {
    fired := Fire(campaignState.IsSet(Contacted) && !campaignState.IsSet(Joined), campaignState, AbductionScene);
  }

  /** `trigger_sanctuary_discovery`. */
  method TriggerSanctuaryDiscovery(playerLocation: Json, campaignState: JsonDict) returns (r: Result<bool>)
    modifies campaignState
    ensures var d := SanctuaryDiscovery(playerLocation, old(campaignState.members));
      if d.Raised? then r == Raised(d.exception) && campaignState.members == old(campaignState.members)
      else r == Ok(d.value.0) && campaignState.members == d.value.1
  {
    var near := ContainsText(playerLocation, SanctuaryName);
    if near.Raised? {
      return Raised(near.exception);
    }
    var fired := Fire(near.value && !campaignState.IsSet(SanctuaryDiscovered), campaignState, SanctuaryDiscovered);
    return Ok(fired);
  }

  /** `trigger_sanctuary_entry`. */
  method TriggerSanctuaryEntry(campaignState: JsonDict) returns (fired: bool)
    modifies campaignState
    ensures (fired, campaignState.members) == SanctuaryEntry(old(campaignState.members))
  {
    fired := Fire(campaignState.IsSet(Member) && !campaignState.IsSet(SanctuaryEntered), campaignState, SanctuaryEntered);
  }

  // ---------------------------------------------------------------------------
  // Properties

  /** A trigger guarded by its own flag fires at most once: a second call with
      the same inputs fires nothing and leaves the state as the first call left it. */
  lemma GuardedByOwnFlag(c: bool, s: Object, key: string)
    ensures var r := Trigger(c && !Flag(s, key), s, key);
      Trigger(c && !Flag(r.1, key), r.1, key) == (false, r.1)
  {
  }

  lemma SiddgeirOnce(s: Object)
    ensures SiddgeirBounty(SiddgeirBounty(s).1) == (false, SiddgeirBounty(s).1)
  {
    GuardedByOwnFlag(true, s, BanditQuestGiven);
  }

  lemma DengeirOnce(s: Object)
    ensures DengeirVampireHunt(DengeirVampireHunt(s).1) == (false, DengeirVampireHunt(s).1)
  {
    GuardedByOwnFlag(true, s, VampireQuestGiven);
  }

  /** Contact fires exactly when the party was noticed and was not contacted before. */
  lemma ContactSpec(partyActions: Object, s: Object)
    ensures BrotherhoodContact(partyActions, s).0 <==>
      (Flag(partyActions, InnocenceLost) || Flag(partyActions, MurderCommitted)) && !Flag(s, Contacted)
    ensures Flag(BrotherhoodContact(partyActions, s).1, Contacted) <==> Noticed(partyActions) || Flag(s, Contacted)
  {
  }

  /** Once contacted, no later action fires contact again or changes the state. */
  lemma ContactIdempotent(later: Object, s: Object)
    requires Flag(s, Contacted)
    ensures BrotherhoodContact(later, s) == (false, s)
  {
  }

  /** The same actions reported twice fire contact at most once. */
  lemma ContactOnce(partyActions: Object, s: Object)
    ensures var r := BrotherhoodContact(partyActions, s);
      BrotherhoodContact(partyActions, r.1) == (false, r.1)
  {
    GuardedByOwnFlag(Noticed(partyActions), s, Contacted);
  }

  /** Astrid's scene fires exactly when the party is contacted and not yet a
      member; repeating it leaves the state as it was after the first time. */
  lemma AstridSpec(s: Object)
    ensures AstridAbduction(s).0 <==> Flag(s, Contacted) && !Flag(s, Joined)
    ensures AstridAbduction(AstridAbduction(s).1) == AstridAbduction(s)
  {
    if Flag(s, Contacted) && !Flag(s, Joined) {
      MarkIdempotent(s, AbductionScene);
    }
  }

  /** Contact makes the abduction due, unless the party has already joined. */
  lemma ContactLeadsToAstrid(partyActions: Object, s: Object)
    requires BrotherhoodContact(partyActions, s).0
    ensures AstridAbduction(BrotherhoodContact(partyActions, s).1).0 <==> !Flag(s, Joined)
  {
  }

  /** Discovery raises exactly on a location that is not a text, list or dict;
      otherwise it needs the sanctuary's name in the location (a substring of a
      text) and fires once. */
  lemma DiscoverySpec(playerLocation: Json, s: Object)
    ensures SanctuaryDiscovery(playerLocation, s).Raised? <==>
      !(playerLocation.JStr? || playerLocation.JList? || playerLocation.JObj?)
    ensures SanctuaryDiscovery(JNull, s) == Raised("TypeError")
    ensures playerLocation.JStr? ==>
      SanctuaryDiscovery(playerLocation, s).Ok? &&
      (SanctuaryDiscovery(playerLocation, s).value.0 <==>
        Contains(playerLocation.s, SanctuaryName) && !Flag(s, SanctuaryDiscovered))
    ensures SanctuaryDiscovery(playerLocation, s).Ok? ==>
      var r := SanctuaryDiscovery(playerLocation, s).value;
      (r.0 <==> ContainsText(playerLocation, SanctuaryName) == Ok(true) && !Flag(s, SanctuaryDiscovered)) &&
      SanctuaryDiscovery(playerLocation, r.1) == Ok((false, r.1))
  {
    var near := ContainsText(playerLocation, SanctuaryName);
    if near.Ok? {
      GuardedByOwnFlag(near.value, s, SanctuaryDiscovered);
    }
  }

  /** The match is case-sensitive: a lowercased location never finds the door. */
  lemma LowercaseNeverDiscovers(playerLocation: string, s: Object)
    ensures SanctuaryDiscovery(JStr(Lower(playerLocation)), s) == Ok((false, s))
  {
    var loc := Lower(playerLocation);
    forall i | 0 <= i <= |loc| - |SanctuaryName|
      ensures !OccursAt(loc, SanctuaryName, i)
    {
      assert SanctuaryName[0] == 'D';
      assert loc[i..i + |SanctuaryName|][0] == loc[i] == LowerChar(playerLocation[i]) != 'D';
    }
  }

  /** Entry needs membership and fires only for the first entry. */
  lemma EntrySpec(s: Object)
    ensures SanctuaryEntry(s).0 <==> Flag(s, Member) && !Flag(s, SanctuaryEntered)
    ensures SanctuaryEntry(SanctuaryEntry(s).1) == (false, SanctuaryEntry(s).1)
  {
    GuardedByOwnFlag(Flag(s, Member), s, SanctuaryEntered);
    assert Flag(SanctuaryEntry(s).1, Member) == Flag(s, Member);
  }

  /** The arrival and graveyard scenes leave the same state however often they play. */
  lemma ScenesIdempotent(s: Object)
    ensures Mark(Mark(s, SeenIntro), SeenIntro) == Mark(s, SeenIntro)
    ensures Mark(Mark(s, GraveyardScene), GraveyardScene) == Mark(s, GraveyardScene)
  {
    MarkIdempotent(s, SeenIntro);
    MarkIdempotent(s, GraveyardScene);
  }
}
