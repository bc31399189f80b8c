/** The first impression a non-player character forms of the player character:
    a tone picked from the NPC's name, type and category, a line of flavour text in
    that tone, and the record of the meeting so that it is made only once unless
    forced. */
module FirstImpression {
  import opened Wrappers
  import opened Bounds
  import opened Text
  import opened Json

  // ---------------------------------------------------------------------------
  // Tone

  /** The NPC metadata the tone is read from: each field is the text
      `value or ""` of its key, and the tone lower-cases the fields it tests. */
  datatype NpcMeta = NpcMeta(id: string, name: string, kind: string, category: string, highConcept: string)

  datatype Tone =
    | WarmThief
    | ColdThalmor
    | SuspiciousGuard
    | CourtlyNoble
    | WarriorRespect
    | NeutralFriendly
    | NeutralDefault

  predicate IsBrynjolf(m: NpcMeta) {
    Contains(Lower(m.name), "brynjolf")
  }

  predicate IsThalmor(m: NpcMeta) {
    Contains(Lower(m.kind), "justiciar") || Contains(Lower(m.kind), "thalmor") || Contains(Lower(m.highConcept), "thalmor")
  }

  predicate IsGuard(m: NpcMeta) {
    Contains(Lower(m.kind), "guard") || Contains(Lower(m.kind), "legionnaire") || Contains(Lower(m.kind), "soldier")
  }

  predicate IsNoble(m: NpcMeta) {
    Contains(Lower(m.name), "jarl") || Contains(Lower(m.kind), "noble") || Contains(Lower(m.kind), "thane")
  }

  predicate IsCompanion(m: NpcMeta) {
    Contains(Lower(m.kind), "companion")
  }

  predicate IsFriendly(m: NpcMeta) {
    Contains(Lower(m.category), "friendly")
  }

  /** `npc_tone`: the first test that holds, in a fixed order, picks the tone. */
  function NpcTone(m: NpcMeta): Tone {
    if IsBrynjolf(m) then WarmThief
    else if IsThalmor(m) then ColdThalmor
    else if IsGuard(m) then SuspiciousGuard
    else if IsNoble(m) then CourtlyNoble
    else if IsCompanion(m) then WarriorRespect
    else if IsFriendly(m) then NeutralFriendly
    else NeutralDefault
  }

  /** The priority order: a tone is picked exactly when its test holds and no
      earlier test does, and the default is left for an NPC no test recognises. */
  lemma NpcToneSpec(m: NpcMeta)
    ensures NpcTone(m) == WarmThief <==> IsBrynjolf(m)
    ensures NpcTone(m) == ColdThalmor <==> !IsBrynjolf(m) && IsThalmor(m)
    ensures NpcTone(m) == SuspiciousGuard <==> !IsBrynjolf(m) && !IsThalmor(m) && IsGuard(m)
    ensures NpcTone(m) == CourtlyNoble <==> !IsBrynjolf(m) && !IsThalmor(m) && !IsGuard(m) && IsNoble(m)
    ensures NpcTone(m) == WarriorRespect <==> !IsBrynjolf(m) && !IsThalmor(m) && !IsGuard(m) && !IsNoble(m) && IsCompanion(m)
    ensures NpcTone(m) == NeutralFriendly <==>
      !IsBrynjolf(m) && !IsThalmor(m) && !IsGuard(m) && !IsNoble(m) && !IsCompanion(m) && IsFriendly(m)
    ensures NpcTone(m) == NeutralDefault <==>
      !IsBrynjolf(m) && !IsThalmor(m) && !IsGuard(m) && !IsNoble(m) && !IsCompanion(m) && !IsFriendly(m)
  {
  }

  /** The tone does not depend on the case the metadata is written in. */
  lemma NpcToneIgnoresCase(m: NpcMeta)
    ensures NpcTone(NpcMeta(m.id, Lower(m.name), Lower(m.kind), Lower(m.category), Lower(m.highConcept))) == NpcTone(m)
  {
    LowerIdempotent(m.name);
    LowerIdempotent(m.kind);
    LowerIdempotent(m.category);
    LowerIdempotent(m.highConcept);
  }

  // ---------------------------------------------------------------------------
  // The impression line

  /** The parts of the PC's visual profile the line uses. */
  datatype VisualProfile = VisualProfile(markers: seq<string>, short: string, tags: seq<string>)

  /** `pick_detail_markers`: the first `limit` silhouette markers, none without a
      profile. */
  function PickDetailMarkers(vp: Option<VisualProfile>, limit: nat): seq<string> {
    if vp.None? then [] else vp.value.markers[..Min(limit, |vp.value.markers|)]
  }

  /** The markers picked are the first ones of the profile, never more than the
      limit and as many as the profile has up to it. */
  lemma PickDetailMarkersSpec(vp: Option<VisualProfile>, limit: nat)
    ensures vp.None? ==> PickDetailMarkers(vp, limit) == []
    ensures vp.Some? ==>
      |PickDetailMarkers(vp, limit)| == Min(limit, |vp.value.markers|) &&
      PickDetailMarkers(vp, limit) <= vp.value.markers
  {
  }

  /** The fixed phrases of the lines: for each tone but the default, the phrase
      after the PC's name and the closing sentence, and the thieves-guild tell.
      `Wording` holds the script's own phrases; what is proved about the lines
      holds for every wording. */
  datatype Phrasebook = Phrasebook(
    thiefLook: string, thiefClosing: string,
    thalmorLook: string, thalmorClosing: string,
    guardLook: string, guardClosing: string,
    nobleLook: string, nobleClosing: string,
    warriorLook: string, warriorClosing: string,
    friendlyLook: string, friendlyClosing: string,
    tell: string)

  function Wording(): Phrasebook {
    Phrasebook(
      "'s gear and posture. 'Still got that ",
      " look about you,' he murmurs—a grin tugging at the corner of his mouth",
      " with clinical calm—lingering on the eyes and the braid. ",
      "'A provincial affectation,' comes the quiet judgment, but their gaze stays sharp, like they're cataloging a threat",
      "'s cloak, wraps, and the way he stands too confidently for a common traveler. ",
      "'You look like trouble that learned manners,' they mutter, watching your hands",
      " like a ledger—noble bearing under practical leathers. ",
      "'Interesting,' they say, as if deciding whether you belong at court or in the gutters",
      "'s shoulders and wrapped forearms with a fighter's eye. ",
      "'You move like someone who's been in real fights,' they say—half compliment, half warning",
      " offers a polite glance that lingers—icy eyes, braided hair, and that calm half-smirk. ",
      "'You carry yourself like you've survived worse than bad weather,' they note",
      GuildTell())
  }

  /** The thieves-guild tell of the script. */
  function GuildTell(): string {
    GuildTellWords() + "."
  }

  /** The guild tell up to its full stop. */
  function GuildTellWords(): string {
    " Their gaze pauses on the subtle purple accents—like they recognize the color language, even if they can't name it"
  }

  /** The opening of the line in each tone: who looks at whom. */
  function Opening(pb: Phrasebook, tone: Tone, npcName: string, pcName: string, details: seq<string>, tags: seq<string>): string {
    match tone
    case WarmThief =>
      npcName + "'s eyes flick over " + pcName + pb.thiefLook + (if "street-noble" in tags then "street-noble" else "Riften")
    case ColdThalmor => npcName + " studies " + pcName + pb.thalmorLook
    case SuspiciousGuard => npcName + "'s attention catches on " + pcName + pb.guardLook
    case CourtlyNoble => npcName + " reads " + pcName + pb.nobleLook
    case WarriorRespect => npcName + " sizes up " + pcName + pb.warriorLook
    case NeutralFriendly => npcName + pb.friendlyLook
    case NeutralDefault =>
      npcName + " gets a first look at " + pcName + ": " +
      (if |details| > 0 then Join("; ", details) else "a calm, capable presence")
  }

  /** The closing sentence of the line in each tone, up to its full stop. */
  function Closing(pb: Phrasebook, tone: Tone): string {
    match tone
    case WarmThief => pb.thiefClosing
    case ColdThalmor => pb.thalmorClosing
    case SuspiciousGuard => pb.guardClosing
    case CourtlyNoble => pb.nobleClosing
    case WarriorRespect => pb.warriorClosing
    case NeutralFriendly => pb.friendlyClosing
    case NeutralDefault => ""
  }

  /** The line in each tone, before the suffixes. */
  function BaseLine(pb: Phrasebook, tone: Tone, npcName: string, pcName: string, details: seq<string>, tags: seq<string>): string {
    Opening(pb, tone, npcName, pcName, details, tags) + Closing(pb, tone) + "."
  }

  /** The thieves-guild tell is added for the guard, noble and default tones, and
      only when the PC carries a thieves' hint. */
  predicate TellApplies(tone: Tone, thievesHint: bool) {
    thievesHint && (tone == SuspiciousGuard || tone == CourtlyNoble || tone == NeutralDefault)
  }

  /** The first-impression flourish is added when the trigger is "first
      impression", in any case, and the profile has a short appearance. */
  predicate FlourishApplies(trigger: string, short: string) {
    Lower(trigger) == "first impression" && |short| > 0
  }

  /** The suffixes `compose_first_impression` appends to the line of a tone:
      the tell `tellText` and the flourish. */
  function Decorated(base: string, tellText: string, tell: bool, flourish: bool, short: string): string {
    var line := if tell then base + tellText else base;
    if flourish then line + " (First impression: " + short + ")" else line
  }

  /** `compose_first_impression` in the wording `pb`. */
  function Compose(pb: Phrasebook, tone: Tone, npcName: string, pcName: string, vp: Option<VisualProfile>, thievesHint: bool, trigger: string): string {
    var short := if vp.Some? then vp.value.short else "";
    var tags := if vp.Some? then vp.value.tags else [];
    Decorated(BaseLine(pb, tone, npcName, pcName, PickDetailMarkers(vp, 3), tags), pb.tell, TellApplies(tone, thievesHint),
              FlourishApplies(trigger, short), short)
  }

  predicate EndsWithDot(s: string) {
    |s| > 0 && s[|s| - 1] == '.'
  }

  lemma EndsWithDotAppend(a: string, b: string)
    requires EndsWithDot(b)
    ensures EndsWithDot(a + b)
  {
    assert (a + b)[|a + b| - 1] == b[|b| - 1];
  }

  /** The script's tell ends with a full stop, as every line does. */
  lemma TellEnds()
    ensures EndsWithDot(GuildTell())
  {
    EndsWithDotAppend(GuildTellWords(), ".");
  }

  /** On a line ending with a full stop, with a tell ending with one: the tell is
      appended right after the line exactly when it applies, and the line ends in
      a closing parenthesis exactly when the flourish is appended, with the short
      appearance just before it. */
  lemma DecoratedSpec(base: string, tellText: string, tell: bool, flourish: bool, short: string)
    requires EndsWithDot(base) && EndsWithDot(tellText)
    ensures var line := Decorated(base, tellText, tell, flourish, short);
      |line| > 0 && base <= line &&
      (tell ==> line[|base|..|base| + |tellText|] == tellText) &&
      (line[|line| - 1] == ')' <==> flourish) &&
      (flourish ==> line[|line| - |short| - 1..] == short + ")") &&
      |line| == |base| + (if tell then |tellText| else 0) + (if flourish then |short| + 21 else 0)
  {
    var told := if tell then base + tellText else base;
    if tell {
      EndsWithDotAppend(base, tellText);
      assert told[|base|..|base| + |tellText|] == tellText;
    }
    var line := Decorated(base, tellText, tell, flourish, short);
    if flourish {
      assert line == told + " (First impression: " + short + ")";
      assert line[|line| - |short| - 1..] == short + ")";
      assert line[..|base|] == told[..|base|];
      assert line[|base|..|base| + (if tell then |tellText| else 0)] == told[|base|..];
    } else {
      assert line == told;
    }
  }

  /** Every line of every tone ends with a full stop. */
  lemma BaseLineEnds(pb: Phrasebook, tone: Tone, npcName: string, pcName: string, details: seq<string>, tags: seq<string>)
    ensures EndsWithDot(BaseLine(pb, tone, npcName, pcName, details, tags))
  {
    EndsWithDotAppend(Opening(pb, tone, npcName, pcName, details, tags) + Closing(pb, tone), ".");
  }

  /** The line of a tone starts with its base line and is followed by the
      suffixes that apply and nothing else: its length counts the tell exactly
      when the tone and the hint call for it and the flourish exactly when the
      trigger does, and it ends with the flourish's closing parenthesis exactly
      when the trigger asks for the flourish. */
  lemma ComposeSpec(pb: Phrasebook, tone: Tone, npcName: string, pcName: string, vp: Option<VisualProfile>, thievesHint: bool, trigger: string)
    requires EndsWithDot(pb.tell)
    ensures var line := Compose(pb, tone, npcName, pcName, vp, thievesHint, trigger);
      var short := if vp.Some? then vp.value.short else "";
      var base := BaseLine(pb, tone, npcName, pcName, PickDetailMarkers(vp, 3), if vp.Some? then vp.value.tags else []);
      |line| > 0 && base <= line &&
      |line| == |base| + (if TellApplies(tone, thievesHint) then |pb.tell| else 0) +
        (if FlourishApplies(trigger, short) then |short| + 21 else 0) &&
      (line[|line| - 1] == ')' <==> FlourishApplies(trigger, short))
  {
    var short := if vp.Some? then vp.value.short else "";
    var tags := if vp.Some? then vp.value.tags else [];
    var base := BaseLine(pb, tone, npcName, pcName, PickDetailMarkers(vp, 3), tags);
    BaseLineEnds(pb, tone, npcName, pcName, PickDetailMarkers(vp, 3), tags);
    DecoratedSpec(base, pb.tell, TellApplies(tone, thievesHint), FlourishApplies(trigger, short), short);
  }

  // ---------------------------------------------------------------------------
  // The PC sheet and the campaign state

  /** `(value or "").lower()`: a false value reads as empty text, and a true value
      that is not text raises. */
  function Lowered(v: Option<Json>): Result<string> {
    match v
    case None => Ok("")
    case Some(JStr(s)) => Ok(Lower(s))
    case Some(j) => if Truthy(j) then Raised("AttributeError") else Ok("")
  }

  /** The PC looks like a thief when its high concept mentions thieves or its
      neutral subfaction is the thieves guild. */
  function ThievesHint(pc: Object): Result<bool> {
    var aspects := GetOr(pc, "aspects", JObj([]));
    if !aspects.JObj? then Raised("AttributeError")
    else
      match Lowered(Get(aspects.members, "high_concept"))
      case Raised(e) => Raised(e)
      case Ok(hc) =>
        match Lowered(Get(pc, "neutral_subfaction"))
        case Raised(e) => Raised(e)
        case Ok(guild) => Ok(Contains(hc, "thieves") || Contains(guild, "thieves_guild"))
  }

  /** The text `(value or "")` reads: text as it is, an absent or false value
      as empty text. */
  function TextOf(v: Option<Json>): string {
    if v.Some? && v.value.JStr? then v.value.s else ""
  }

  /** A value `(value or "").lower()` raises on: a true value that is not text. */
  predicate Unreadable(v: Option<Json>) {
    v.Some? && !v.value.JStr? && Truthy(v.value)
  }

  /** The sheet's high concept, when its aspects are a dict. */
  function PcHighConcept(pc: Object): Option<Json> {
    var aspects := GetOr(pc, "aspects", JObj([]));
    if aspects.JObj? then Get(aspects.members, "high_concept") else None
  }

  /** The hint raises exactly when the aspects are not a dict or one of the two
      entries is a true value that is not text; otherwise it holds exactly when
      the high concept mentions thieves or the subfaction the thieves guild, in
      any case. A sheet with neither entry carries none. */
  lemma ThievesHintSpec(pc: Object)
    ensures ThievesHint([]) == Ok(false)
    ensures ThievesHint(pc).Raised? <==>
      !GetOr(pc, "aspects", JObj([])).JObj? || Unreadable(PcHighConcept(pc)) || Unreadable(Get(pc, "neutral_subfaction"))
    ensures ThievesHint(pc).Ok? ==>
      ThievesHint(pc).value ==
        (Contains(Lower(TextOf(PcHighConcept(pc))), "thieves") ||
         Contains(Lower(TextOf(Get(pc, "neutral_subfaction"))), "thieves_guild"))
  {
    assert Lower("") == "";
    assert !Contains("", "thieves") by {
      assert !OccursAt("", "thieves", 0);
    }
    assert !Contains("", "thieves_guild") by {
      assert !OccursAt("", "thieves_guild", 0);
    }
  }

  /** `pc.get("name", "The PC")` as the line prints it. */
  function PcName(pc: Object): string {
    match Get(pc, "name")
    case Some(JStr(s)) => s
    case _ => "The PC"
  }

  /** `d.setdefault(key, {})` followed by replacing a value that is not a dict. */
  function DictAt(ms: Object, key: string): (r: Object)
    ensures Get(r, key).Some? && Get(r, key).value.JObj?
    ensures Get(ms, key).Some? && Get(ms, key).value.JObj? ==> r == ms
    ensures forall k :: k != key ==> Get(r, k) == Get(ms, k)
  {
    if HasKey(ms, key) && Get(ms, key).value.JObj? then ms else Put(ms, key, JObj([]))
  }

  /** `ensure_relationship_container`: `relationships` and its `met_npcs` are dicts
      afterwards. */
  function EnsureContainer(pc: Object): Object {
    var pc1 := DictAt(pc, "relationships");
    var rel := DictAt(Get(pc1, "relationships").value.members, "met_npcs");
    Put(pc1, "relationships", JObj(rel))
  }

  /** The NPCs the PC has met. */
  function MetNpcs(pc: Object): Object {
    var rel := Get(EnsureContainer(pc), "relationships").value.members;
    Get(rel, "met_npcs").value.members
  }

  /** Both containers are dicts afterwards; a dict already there keeps its
      contents, other keys of the sheet keep their values, and a second call
      changes nothing. */
  lemma EnsureContainerSpec(pc: Object)
    ensures var r := EnsureContainer(pc);
      Get(r, "relationships").Some? && Get(r, "relationships").value.JObj? &&
      Get(Get(r, "relationships").value.members, "met_npcs").Some? &&
      Get(Get(r, "relationships").value.members, "met_npcs").value.JObj?
    ensures forall k :: k != "relationships" ==> Get(EnsureContainer(pc), k) == Get(pc, k)
    ensures Get(pc, "relationships").Some? && Get(pc, "relationships").value.JObj? ==>
      var before := Get(pc, "relationships").value.members;
      var after := Get(EnsureContainer(pc), "relationships").value.members;
      (forall k :: k != "met_npcs" ==> Get(after, k) == Get(before, k)) &&
      (Get(before, "met_npcs").Some? && Get(before, "met_npcs").value.JObj? ==> after == before)
    ensures EnsureContainer(EnsureContainer(pc)) == EnsureContainer(pc)
  {
    var r := EnsureContainer(pc);
    var rel := Get(r, "relationships").value.members;
    assert DictAt(r, "relationships") == r;
    assert DictAt(rel, "met_npcs") == rel;
    PutUnchanged(r, "relationships", JObj(rel));
    var pc1 := DictAt(pc, "relationships");
    if Get(pc, "relationships").Some? && Get(pc, "relationships").value.JObj? {
      assert pc1 == pc;
    }
  }

  /** `ensure_relationship_container`, on the sheet in place. */
  method EnsureRelationshipContainer(pc: JsonDict)
    modifies pc
    ensures pc.members == EnsureContainer(old(pc.members))
  {
    if !(HasKey(pc.members, "relationships") && Get(pc.members, "relationships").value.JObj?) {
      pc.Assign("relationships", JObj([]));
    }
    var rel := Get(pc.members, "relationships").value.members;
    if !(HasKey(rel, "met_npcs") && Get(rel, "met_npcs").value.JObj?) {
      rel := Put(rel, "met_npcs", JObj([]));
    }
    pc.Assign("relationships", JObj(rel));
  }

  /** The record stored under the NPC's id in `met_npcs`; `now` is the time of
      the meeting. */
  function MetRecord(npcId: string, npcName: string, trigger: string, now: string, line: string): Json {
    JObj([Member("npc_id", JStr(npcId)), Member("npc_name", JStr(npcName)), Member("met_trigger", JStr(trigger)),
          Member("met_at", JStr(now)), Member("first_impression", JStr(line))])
  }

  /** The PC sheet after the meeting is recorded. */
  function Recorded(pc: Object, npcId: string, record: Json): Object {
    var p := EnsureContainer(pc);
    var rel := Get(p, "relationships").value.members;
    var met := Get(rel, "met_npcs").value.members;
    Put(p, "relationships", JObj(Put(rel, "met_npcs", JObj(Put(met, npcId, record)))))
  }

  /** The record is filed under the NPC's id, and every other meeting and every
      other key of the sheet is kept. */
  lemma RecordedSpec(pc: Object, npcId: string, record: Json)
    ensures Get(MetNpcs(Recorded(pc, npcId, record)), npcId) == Some(record)
    ensures forall k :: k != npcId ==> Get(MetNpcs(Recorded(pc, npcId, record)), k) == Get(MetNpcs(pc), k)
    ensures forall k :: k != "relationships" ==> Get(Recorded(pc, npcId, record), k) == Get(pc, k)
  {
    var p := EnsureContainer(pc);
    EnsureContainerSpec(pc);
    var rel := Get(p, "relationships").value.members;
    var met := Get(rel, "met_npcs").value.members;
    var r := Recorded(pc, npcId, record);
    assert Get(r, "relationships") == Some(JObj(Put(rel, "met_npcs", JObj(Put(met, npcId, record)))));
    assert EnsureContainer(r) == r by {
      assert DictAt(r, "relationships") == r;
      var rel' := Get(r, "relationships").value.members;
      assert DictAt(rel', "met_npcs") == rel';
      PutUnchanged(r, "relationships", JObj(rel'));
    }
    assert MetNpcs(r) == Put(met, npcId, record);
  }

  /** The sheet side of `run`: the containers are made and the record is filed
      under the NPC's id, in place. */
  method FileMeeting(sheet: JsonDict, npcId: string, record: Json)
    modifies sheet
    ensures sheet.members == Recorded(old(sheet.members), npcId, record)
  {
    EnsureRelationshipContainer(sheet);
    EnsureContainerSpec(old(sheet.members));
    var rel := Get(sheet.members, "relationships").value.members;
    var met := Get(rel, "met_npcs").value.members;
    sheet.Assign("relationships", JObj(Put(rel, "met_npcs", JObj(Put(met, npcId, record)))));
  }

  /** `setdefault`: the key keeps its value, or gets the default when absent. */
  function SetDefault(ms: Object, key: string, default: Json): (r: Object)
    ensures Get(r, key) == Some(Get(ms, key).GetOr(default))
    ensures forall k :: k != key ==> Get(r, k) == Get(ms, k)
    ensures HasKey(ms, key) ==> r == ms
  {
    if HasKey(ms, key) then ms else Put(ms, key, default)
  }

  /** `update_campaign_met_list` on a loaded campaign state: the NPC is appended
      to `world_consequences.npcs_met` unless it is there already, and the
      timestamp is renewed. */
  function MetListUpdated(state: Object, npcId: string, now: string): Result<Object> {
    var s1 := SetDefault(state, "world_consequences", JObj([]));
    var wc := Get(s1, "world_consequences").value;
    if !wc.JObj? then Raised("AttributeError")
    else
      var wc1 := SetDefault(wc.members, "npcs_met", JList([]));
      var met := Get(wc1, "npcs_met").value;
      match ContainsText(met, npcId)
      case Raised(e) => Raised(e)
      case Ok(present) =>
        if !present && !met.JList? then Raised("AttributeError")
        else
          var met1 := if present then met else JList(met.items + [JStr(npcId)]);
          Ok(Put(Put(s1, "world_consequences", JObj(Put(wc1, "npcs_met", met1))), "last_updated", JStr(now)))
  }

  /** `update_campaign_met_list` on the loaded state in place. On an error the
      state is not saved, so it is left as it was. */
  method UpdateCampaignMetList(state: JsonDict, npcId: string, now: string) returns (r: Result<()>)
    modifies state
    ensures r.Ok? <==> MetListUpdated(old(state.members), npcId, now).Ok?
    ensures r.Ok? ==> r == Ok(()) && state.members == MetListUpdated(old(state.members), npcId, now).value
    ensures r.Raised? ==> r.exception == MetListUpdated(old(state.members), npcId, now).exception && state.members == old(state.members)
  {
    var s1 := state.members;
    if !HasKey(s1, "world_consequences") {
      s1 := Put(s1, "world_consequences", JObj([]));
    }
    var wc := Get(s1, "world_consequences").value;
    if !wc.JObj? {
      return Raised("AttributeError");
    }
    var wc1 := wc.members;
    if !HasKey(wc1, "npcs_met") {
      wc1 := Put(wc1, "npcs_met", JList([]));
    }
    var met := Get(wc1, "npcs_met").value;
    var present := ContainsText(met, npcId);
    if present.Raised? {
      return Raised(present.exception);
    }
    if !present.value {
      if !met.JList? {
        return Raised("AttributeError");
      }
      met := JList(met.items + [JStr(npcId)]);
    }
    state.members := Put(Put(s1, "world_consequences", JObj(Put(wc1, "npcs_met", met))), "last_updated", JStr(now));
    return Ok(());
  }

  /** The met list of a campaign state, when it is a list. */
  function NpcsMet(state: Object): Option<seq<Json>> {
    match Get(state, "world_consequences")
    case Some(JObj(wc)) =>
      (match Get(wc, "npcs_met")
       case Some(JList(items)) => Some(items)
       case _ => None)
    case _ => None
  }

  /** A state with no met list yet: no `world_consequences`, or one without
      `npcs_met`. */
  predicate NoMetList(state: Object) {
    Get(state, "world_consequences").None? ||
    (Get(state, "world_consequences").value.JObj? && Get(Get(state, "world_consequences").value.members, "npcs_met").None?)
  }

  lemma CampaignKeysDiffer()
    ensures "world_consequences" != "last_updated"
  {
    assert "world_consequences"[0] == 'w' && "last_updated"[0] == 'l';
  }

  /** Where the met list and the timestamp end up after an update. */
  lemma StampedList(s1: Object, wc1: Object, items: seq<Json>, now: string)
    ensures var s := Put(Put(s1, "world_consequences", JObj(Put(wc1, "npcs_met", JList(items)))), "last_updated", JStr(now));
      Get(s, "last_updated") == Some(JStr(now)) && NpcsMet(s) == Some(items)
  {
    CampaignKeysDiffer();
  }

  /** The met list an update reads: the state's own, or a new empty one. */
  lemma ListRead(state: Object)
    requires NpcsMet(state).Some? || NoMetList(state)
    ensures var s1 := SetDefault(state, "world_consequences", JObj([]));
      Get(s1, "world_consequences").value.JObj? &&
      Get(SetDefault(Get(s1, "world_consequences").value.members, "npcs_met", JList([])), "npcs_met") ==
        Some(JList(if NpcsMet(state).Some? then NpcsMet(state).value else []))
  {
  }

  /** A `world_consequences` that is not a dict raises; otherwise an NPC already
      listed leaves the list as it is, an absent one is appended once, at the end,
      and a state without a list gets one naming the NPC; the timestamp is always
      the new one. */
  lemma MetListUpdatedSpec(state: Object, npcId: string, now: string)
    ensures Get(state, "world_consequences").Some? && !Get(state, "world_consequences").value.JObj? ==>
      MetListUpdated(state, npcId, now) == Raised("AttributeError")
    ensures MetListUpdated(state, npcId, now).Ok? ==>
      Get(MetListUpdated(state, npcId, now).value, "last_updated") == Some(JStr(now))
    ensures NpcsMet(state).Some? || NoMetList(state) ==>
      MetListUpdated(state, npcId, now).Ok? &&
      var s := MetListUpdated(state, npcId, now).value;
      NpcsMet(s).Some? && JStr(npcId) in NpcsMet(s).value &&
      (NoMetList(state) ==> NpcsMet(s) == Some([JStr(npcId)])) &&
      (NpcsMet(state).Some? && JStr(npcId) in NpcsMet(state).value ==> NpcsMet(s) == NpcsMet(state)) &&
      (NpcsMet(state).Some? && JStr(npcId) !in NpcsMet(state).value ==> NpcsMet(s) == Some(NpcsMet(state).value + [JStr(npcId)]))
  {
    var s1 := SetDefault(state, "world_consequences", JObj([]));
    var wc := Get(s1, "world_consequences").value;
    if wc.JObj? {
      var wc1 := SetDefault(wc.members, "npcs_met", JList([]));
      var met := Get(wc1, "npcs_met").value;
      var c := ContainsText(met, npcId);
      if c.Ok? && (c.value || met.JList?) {
        var met1 := if c.value then met else JList(met.items + [JStr(npcId)]);
        var s := Put(Put(s1, "world_consequences", JObj(Put(wc1, "npcs_met", met1))), "last_updated", JStr(now));
        assert MetListUpdated(state, npcId, now) == Ok(s);
        CampaignKeysDiffer();
        if met.JList? {
          StampedList(s1, wc1, met1.items, now);
        }
      }
      if NpcsMet(state).Some? || NoMetList(state) {
        ListRead(state);
        assert met.JList?;
        if NoMetList(state) {
          assert met == JList([]);
          assert c == Ok(false);
          assert [] + [JStr(npcId)] == [JStr(npcId)];
        }
      }
    }
  }

  /** The state's met list is a list naming the NPC. */
  predicate ListsNpc(state: Object, npcId: string) {
    Get(state, "world_consequences").Some? && Get(state, "world_consequences").value.JObj? &&
    Get(Get(state, "world_consequences").value.members, "npcs_met").Some? &&
    ContainsText(Get(Get(state, "world_consequences").value.members, "npcs_met").value, npcId) == Ok(true)
  }

  /** After an update the met list names the NPC. */
  lemma UpdatedListsNpc(state: Object, npcId: string, now: string)
    requires MetListUpdated(state, npcId, now).Ok?
    ensures ListsNpc(MetListUpdated(state, npcId, now).value, npcId)
  {
    var s1 := SetDefault(state, "world_consequences", JObj([]));
    var wc1 := SetDefault(Get(s1, "world_consequences").value.members, "npcs_met", JList([]));
    var met := Get(wc1, "npcs_met").value;
    var met1 := if ContainsText(met, npcId).value then met else JList(met.items + [JStr(npcId)]);
    var inner := Put(wc1, "npcs_met", met1);
    CampaignKeysDiffer();
    assert MetListUpdated(state, npcId, now).value == Put(Put(s1, "world_consequences", JObj(inner)), "last_updated", JStr(now));
    assert Get(inner, "npcs_met") == Some(met1);
    if !ContainsText(met, npcId).value {
      assert JStr(npcId) in met1.items;
    }
  }

  /** Updating a state whose list already names the NPC only renews the
      timestamp. */
  lemma RepeatUpdate(s: Object, npcId: string, later: string)
    requires ListsNpc(s, npcId)
    ensures MetListUpdated(s, npcId, later) == Ok(Put(s, "last_updated", JStr(later)))
  {
    var wcm := Get(s, "world_consequences").value.members;
    PutUnchanged(wcm, "npcs_met", Get(wcm, "npcs_met").value);
    PutUnchanged(s, "world_consequences", JObj(wcm));
  }

  /** Recording the same NPC twice lists it once: the second update renews the
      timestamp and changes nothing else. */
  lemma MetListOnce(state: Object, npcId: string, now: string, later: string)
    requires MetListUpdated(state, npcId, now).Ok?
    ensures var s := MetListUpdated(state, npcId, now).value;
      MetListUpdated(s, npcId, later) == Ok(Put(s, "last_updated", JStr(later))) &&
      NpcsMet(MetListUpdated(s, npcId, later).value) == NpcsMet(s)
  {
    UpdatedListsNpc(state, npcId, now);
    var s := MetListUpdated(state, npcId, now).value;
    RepeatUpdate(s, npcId, later);
    CampaignKeysDiffer();
    assert Get(Put(s, "last_updated", JStr(later)), "world_consequences") == Get(s, "world_consequences");
  }

  // ---------------------------------------------------------------------------
  // run

  datatype Outcome = Skipped(npcId: string) | Met(npcId: string, line: string)

  /** The two files a meeting touches: the PC's sheet (`None` when no PC can be
      determined) and the campaign state (`None` when it does not exist). */
  datatype Files = Files(pcSheet: Option<Object>, campaign: Option<Object>)

  /** What `run` learns about the NPC before it records anything: the NPC's name
      and the line it says, or what is raised while the NPC is looked up (`meta`
      is `None` when no file describes it) or the line is composed from the
      PC's visual profile `vp`. */
  function Impression(pb: Phrasebook, pc: Object, meta: Option<NpcMeta>, vp: Option<VisualProfile>, trigger: string): Result<(string, string)> {
    if meta.None? then Raised("FileNotFoundError")
    else
      match ThievesHint(pc)
      case Raised(e) => Raised(e)
      case Ok(hint) => Ok((meta.value.name, Compose(pb, NpcTone(meta.value), meta.value.name, PcName(pc), vp, hint, trigger)))
  }

  /** An unknown NPC or a sheet the hint cannot be read from raises; otherwise
      the reply carries the NPC's name, and the line ends with the flourish
      exactly when the trigger asks for it. */
  lemma ImpressionSpec(pb: Phrasebook, pc: Object, meta: Option<NpcMeta>, vp: Option<VisualProfile>, trigger: string)
    requires EndsWithDot(pb.tell)
    ensures meta.None? ==> Impression(pb, pc, meta, vp, trigger) == Raised("FileNotFoundError")
    ensures meta.Some? ==> (Impression(pb, pc, meta, vp, trigger).Raised? <==> ThievesHint(pc).Raised?)
    ensures Impression(pb, pc, meta, vp, trigger).Ok? ==>
      var (name, line) := Impression(pb, pc, meta, vp, trigger).value;
      name == meta.value.name &&
      (line[|line| - 1] == ')' <==> FlourishApplies(trigger, if vp.Some? then vp.value.short else ""))
  {
    if meta.Some? && ThievesHint(pc).Ok? {
      var m := meta.value;
      ComposeSpec(pb, NpcTone(m), m.name, PcName(pc), vp, ThievesHint(pc).value, trigger);
    }
  }

  /** The campaign side of `run`: nothing when there is no campaign state, and
      otherwise the updated state, or what the update raises with the state
      left as it was. */
  function CampaignStep(campaign: Option<Object>, npcId: string, now: string): (Result<()>, Option<Object>) {
    if campaign.None? then (Ok(()), campaign)
    else
      match MetListUpdated(campaign.value, npcId, now)
      case Raised(e) => (Raised(e), campaign)
      case Ok(state) => (Ok(()), Some(state))
  }

  /** `run` once the impression is known: the sheet is saved before the campaign
      state is updated, so an error there leaves the meeting recorded on the
      sheet. */
  function Recording(files: Files, npcId: string, trigger: string, force: bool, impression: Result<(string, string)>, now: string)
    : (Result<Option<Outcome>>, Files)
  {
    if files.pcSheet.None? then (Ok(None), files)
    else
      var pc := files.pcSheet.value;
      if HasKey(MetNpcs(pc), npcId) && !force then (Ok(Some(Skipped(npcId))), files)
      else
        match impression
        case Raised(e) => (Raised(e), files)
        case Ok((name, line)) =>
          var saved := files.(pcSheet := Some(Recorded(pc, npcId, MetRecord(npcId, name, trigger, now, line))));
          var (updated, campaign) := CampaignStep(files.campaign, npcId, now);
          (if updated.Raised? then Raised(updated.exception) else Ok(Some(Met(npcId, line))), saved.(campaign := campaign))
  }

  /** `run` in the wording `pb`: `now` is the time of the meeting. */
  function Meet(pb: Phrasebook, files: Files, npcId: string, trigger: string, force: bool, meta: Option<NpcMeta>, vp: Option<VisualProfile>, now: string)
    : (Result<Option<Outcome>>, Files)
  {
    Recording(files, npcId, trigger, force, Impression(pb, files.pcSheet.GetOr([]), meta, vp, trigger), now)
  }

  /** Without a PC nothing happens; an NPC already met is skipped unless forced,
      and a skip writes nothing; an error leaves the campaign state as it was. */
  lemma RecordingSkips(files: Files, npcId: string, trigger: string, force: bool, impression: Result<(string, string)>, now: string)
    ensures var (r, after) := Recording(files, npcId, trigger, force, impression, now);
      (files.pcSheet.None? ==> r == Ok(None) && after == files) &&
      (r == Ok(Some(Skipped(npcId))) <==> files.pcSheet.Some? && HasKey(MetNpcs(files.pcSheet.value), npcId) && !force) &&
      (r.Ok? && r.value.Some? && r.value.value.Skipped? ==> after == files) &&
      (r.Raised? ==> after.campaign == files.campaign)
  {
    if files.pcSheet.Some? && !(HasKey(MetNpcs(files.pcSheet.value), npcId) && !force) && impression.Ok? {
      var (r, after) := Recording(files, npcId, trigger, force, impression, now);
      assert r.Raised? || r == Ok(Some(Met(npcId, impression.value.1)));
      if r.Raised? {
        assert files.campaign.Some? && MetListUpdated(files.campaign.value, npcId, now).Raised?;
      }
    }
  }

  /** A meeting files its record, with the line it reports, under the NPC's id,
      keeps the other meetings and updates the campaign state's met list. */
  lemma RecordingMeets(files: Files, npcId: string, trigger: string, force: bool, impression: Result<(string, string)>, now: string)
    requires var r := Recording(files, npcId, trigger, force, impression, now).0;
      r.Ok? && r.value.Some? && r.value.value.Met?
    ensures var (r, after) := Recording(files, npcId, trigger, force, impression, now);
      files.pcSheet.Some? && impression.Ok? && r.value.value.line == impression.value.1 && after.pcSheet.Some? &&
      Get(MetNpcs(after.pcSheet.value), npcId) == Some(MetRecord(npcId, impression.value.0, trigger, now, impression.value.1)) &&
      (forall k :: k != npcId ==> Get(MetNpcs(after.pcSheet.value), k) == Get(MetNpcs(files.pcSheet.value), k)) &&
      (files.campaign.None? ==> after.campaign.None?) &&
      (files.campaign.Some? ==>
        MetListUpdated(files.campaign.value, npcId, now).Ok? &&
        after.campaign == Some(MetListUpdated(files.campaign.value, npcId, now).value))
  {
    var (name, line) := impression.value;
    var pc := files.pcSheet.value;
    var record := MetRecord(npcId, name, trigger, now, line);
    assert Recording(files, npcId, trigger, force, impression, now).1.pcSheet == Some(Recorded(pc, npcId, record));
    RecordedSpec(pc, npcId, record);
  }

  /** An NPC already on the sheet is skipped, and nothing is written. */
  lemma SkipWhenMet(files: Files, npcId: string, trigger: string, impression: Result<(string, string)>, now: string)
    requires files.pcSheet.Some? && HasKey(MetNpcs(files.pcSheet.value), npcId)
    ensures Recording(files, npcId, trigger, false, impression, now) == (Ok(Some(Skipped(npcId))), files)
  {
  }

  /** Where the sheet goes when the meeting is recorded. */
  lemma RecordingSheet(files: Files, npcId: string, trigger: string, force: bool, impression: Result<(string, string)>, now: string)
    requires files.pcSheet.Some? && !(HasKey(MetNpcs(files.pcSheet.value), npcId) && !force) && impression.Ok?
    ensures Recording(files, npcId, trigger, force, impression, now).1.pcSheet ==
      Some(Recorded(files.pcSheet.value, npcId, MetRecord(npcId, impression.value.0, trigger, now, impression.value.1)))
  {
  }

  /** After a run that raises nothing, the sheet names the NPC. */
  lemma SheetListsNpc(files: Files, npcId: string, trigger: string, force: bool, impression: Result<(string, string)>, now: string)
    requires Recording(files, npcId, trigger, force, impression, now).0.Ok?
    ensures var after := Recording(files, npcId, trigger, force, impression, now).1;
      after.pcSheet.Some? ==> HasKey(MetNpcs(after.pcSheet.value), npcId)
  {
    if files.pcSheet.Some? && !(HasKey(MetNpcs(files.pcSheet.value), npcId) && !force) {
      RecordingSheet(files, npcId, trigger, force, impression, now);
      var sheet := Recorded(files.pcSheet.value, npcId, MetRecord(npcId, impression.value.0, trigger, now, impression.value.1));
      RecordedSpec(files.pcSheet.value, npcId, MetRecord(npcId, impression.value.0, trigger, now, impression.value.1));
    }
  }

  /** Once a meeting is made, running again without `force` skips it and writes
      nothing, whatever the second impression would have been. */
  lemma RecordingOnce(files: Files, npcId: string, trigger: string, force: bool, impression: Result<(string, string)>, now: string,
                      trigger': string, impression': Result<(string, string)>, later: string)
    requires Recording(files, npcId, trigger, force, impression, now).0.Ok?
    ensures var after := Recording(files, npcId, trigger, force, impression, now).1;
      after.pcSheet.Some? ==> Recording(after, npcId, trigger', false, impression', later) == (Ok(Some(Skipped(npcId))), after)
  {
    var after := Recording(files, npcId, trigger, force, impression, now).1;
    if after.pcSheet.Some? {
      SheetListsNpc(files, npcId, trigger, force, impression, now);
      SkipWhenMet(after, npcId, trigger', impression', later);
    }
  }

  /** Joining `x` to a list that may hold it already leaves it there once more
      only when it was absent. */
  lemma CountAfterJoin(before: seq<Json>, after: seq<Json>, x: Json)
    requires x in before ==> after == before
    requires x !in before ==> after == before + [x]
    ensures multiset(after)[x] == Max(1, multiset(before)[x])
  {
    if x !in before {
      assert multiset(before + [x]) == multiset(before) + multiset{x};
    }
  }

  /** The campaign side of a recorded meeting: the NPC is listed once. */
  lemma RecordingListsNpc(files: Files, npcId: string, trigger: string, force: bool, impression: Result<(string, string)>, now: string)
    requires files.campaign.Some? && (NpcsMet(files.campaign.value).Some? || NoMetList(files.campaign.value))
    requires var r := Recording(files, npcId, trigger, force, impression, now).0;
      r.Ok? && r.value.Some? && r.value.value.Met?
    ensures var after := Recording(files, npcId, trigger, force, impression, now).1;
      after.campaign.Some? && NpcsMet(after.campaign.value).Some? &&
      multiset(NpcsMet(after.campaign.value).value)[JStr(npcId)] == Max(1, multiset(NpcsMet(files.campaign.value).GetOr([]))[JStr(npcId)])
  {
    var state := files.campaign.value;
    MetListUpdatedSpec(state, npcId, now);
    var s := MetListUpdated(state, npcId, now).value;
    assert Recording(files, npcId, trigger, force, impression, now).1.campaign == Some(s) by {
      RecordingMeets(files, npcId, trigger, force, impression, now);
    }
    CountAfterJoin(NpcsMet(state).GetOr([]), NpcsMet(s).value, JStr(npcId));
  }

  /** A campaign state with a met list, or none yet, lists the NPC after a
      meeting, once. */
  lemma MeetListsNpc(pb: Phrasebook, files: Files, npcId: string, trigger: string, force: bool, meta: Option<NpcMeta>, vp: Option<VisualProfile>, now: string)
    requires files.campaign.Some? && (NpcsMet(files.campaign.value).Some? || NoMetList(files.campaign.value))
    ensures var (r, after) := Meet(pb, files, npcId, trigger, force, meta, vp, now);
      r.Ok? && r.value.Some? && r.value.value.Met? ==>
        after.campaign.Some? && NpcsMet(after.campaign.value).Some? &&
        multiset(NpcsMet(after.campaign.value).value)[JStr(npcId)] == Max(1, multiset(NpcsMet(files.campaign.value).GetOr([]))[JStr(npcId)])
  {
    var impression := Impression(pb, files.pcSheet.GetOr([]), meta, vp, trigger);
    var r := Recording(files, npcId, trigger, force, impression, now).0;
    if r.Ok? && r.value.Some? && r.value.value.Met? {
      RecordingListsNpc(files, npcId, trigger, force, impression, now);
    }
  }

  class FirstImpressionFiles {
    /** The sheet of the PC the meeting is for; `None` when no PC can be
        determined. */
    var pcSheet: Option<Object>
    /** The campaign state; `None` when the file does not exist. */
    var campaign: Option<Object>

    constructor(pcSheet: Option<Object>, campaign: Option<Object>)
      ensures this.pcSheet == pcSheet && this.campaign == campaign
    {
      this.pcSheet := pcSheet;
      this.campaign := campaign;
    }

    /** The campaign side of `run`: nothing when there is no campaign state. */
    method UpdateCampaign(npcId: string, now: string) returns (r: Result<()>)
      modifies this
      ensures pcSheet == old(pcSheet)
      ensures (r, campaign) == CampaignStep(old(campaign), npcId, now)
    {
      r := Ok(());
      if campaign.Some? {
        var loaded := campaign.value;
        var state := new JsonDict(loaded);
        r := UpdateCampaignMetList(state, npcId, now);
        if r.Ok? {
          campaign := Some(state.members);
        }
      }
    }

    /** `run` in the wording `pb` (the script's is `Wording`), writing the sheet
        and then the campaign state. */
    method Run(pb: Phrasebook, npcId: string, trigger: string, force: bool, meta: Option<NpcMeta>, vp: Option<VisualProfile>, now: string)
      returns (r: Result<Option<Outcome>>)
      modifies this
      ensures (r, Files(pcSheet, campaign)) == Meet(pb, Files(old(pcSheet), old(campaign)), npcId, trigger, force, meta, vp, now)
    {
      if pcSheet.None? {
        return Ok(None);
      }
      var pc := pcSheet.value;
      if HasKey(MetNpcs(pc), npcId) && !force {
        return Ok(Some(Skipped(npcId)));
      }
      var impression := Impression(pb, pc, meta, vp, trigger);
      if impression.Raised? {
        return Raised(impression.exception);
      }
      assert Meet(pb, Files(old(pcSheet), old(campaign)), npcId, trigger, force, meta, vp, now) ==
        Recording(Files(old(pcSheet), old(campaign)), npcId, trigger, force, impression, now);
      var (name, line) := impression.value;
      var sheet := new JsonDict(pc);
      FileMeeting(sheet, npcId, MetRecord(npcId, name, trigger, now, line));
      pcSheet := Some(sheet.members);
      var updated := UpdateCampaign(npcId, now);
      if updated.Raised? {
        return Raised(updated.exception);
      }
      return Ok(Some(Met(npcId, line)));
    }
  }
}
