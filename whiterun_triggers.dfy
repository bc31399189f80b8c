/** Location texts for Whiterun and its districts. The classification only reads
    the campaign state; whether a companion is in the party is decided by a
    predicate outside this module, passed in as `isCompanionPresent`. */
module WhiterunTriggers {
  import opened Wrappers
  import opened Text
  import opened Json

  /** The narrated texts, one constructor per text. */
  datatype Event = PlainsDistrict | WindDistrict | CloudDistrict | Gates | LydiaHome

  /** `str(loc).lower()`: a missing location reads as the text "none". */
  function LocText(loc: Option<string>): string {
    Lower(if loc.Some? then loc.value else "None")
  }

  /** The `if`/`elif` chain: the first matching branch picks at most one text. */
  function District(l: string): Option<Event> {
    if Contains(l, "plains") && Contains(l, "whiterun") then Some(PlainsDistrict)
    else if Contains(l, "wind") && Contains(l, "whiterun") then Some(WindDistrict)
    else if Contains(l, "cloud") && Contains(l, "whiterun") then Some(CloudDistrict)
    else if StartsWith(l, "whiterun") then Some(Gates)
    else None
  }

  /** `campaign_state.get("companions", {}).get("active_companions", [])`: the
      second `.get` fails with `AttributeError` unless `companions` is absent or a dict. */
  function ActiveCompanions(state: Object): (r: Result<Json>)
    ensures r.Ok? <==> !HasKey(state, "companions") || Get(state, "companions").value.JObj?
    ensures !HasKey(state, "companions") ==> r == Ok(JList([]))
  {
    match Get(state, "companions")
    case None => Ok(JList([]))
    case Some(JObj(ms)) => Ok(GetOr(ms, "active_companions", JList([])))
    case Some(_) => Raised("AttributeError")
  }

  /** `whiterun_location_triggers`. */
  function WhiterunLocationTriggers(loc: Option<string>, campaignState: Object,
                                    isCompanionPresent: (Json, string) -> bool): (r: Result<seq<Event>>)
    ensures r.Ok? <==> ActiveCompanions(campaignState).Ok?
  {
    var l := LocText(loc);
    var events := if District(l).Some? then [District(l).value] else [];
    match ActiveCompanions(campaignState)
    case Raised(e) => Raised(e)
    case Ok(active) =>
      Ok(if isCompanionPresent(active, "lydia") && StartsWith(l, "whiterun") then events + [LydiaHome] else events)
  }

  /** Lydia home: whether the Lydia line is due for this location and party. */
  predicate LydiaDue(loc: Option<string>, campaignState: Object, isCompanionPresent: (Json, string) -> bool)
    requires ActiveCompanions(campaignState).Ok?
  {
    isCompanionPresent(ActiveCompanions(campaignState).value, "lydia") && StartsWith(LocText(loc), "whiterun")
  }

  /** At most two texts: at most one place text, chosen by the first matching
      branch, then the Lydia line, last, exactly when Lydia is present and the
      location starts with "whiterun". */
  lemma TriggersShape(loc: Option<string>, campaignState: Object, isCompanionPresent: (Json, string) -> bool)
    requires ActiveCompanions(campaignState).Ok?
    ensures var events := WhiterunLocationTriggers(loc, campaignState, isCompanionPresent).value;
      |events| <= 2 &&
      (LydiaHome in events <==> LydiaDue(loc, campaignState, isCompanionPresent)) &&
      (LydiaHome in events ==> events[|events| - 1] == LydiaHome) &&
      (forall i :: 0 <= i < |events| - 1 ==> events[i] == District(LocText(loc)).value) &&
      (District(LocText(loc)).Some? <==> |events| > 0 && events[0] != LydiaHome)
  {
  }

  /** The district texts need their keyword and "whiterun" anywhere in the
      location, after no earlier branch matched; the gate text needs the
      location to start with "whiterun". */
  lemma DistrictSpec(l: string)
    ensures District(l) == Some(PlainsDistrict) <==> Contains(l, "plains") && Contains(l, "whiterun")
    ensures District(l) == Some(WindDistrict) <==>
      !Contains(l, "plains") && Contains(l, "wind") && Contains(l, "whiterun")
    ensures District(l) == Some(CloudDistrict) <==>
      !Contains(l, "plains") && !Contains(l, "wind") && Contains(l, "cloud") && Contains(l, "whiterun")
    ensures District(l) == Some(Gates) <==>
      StartsWith(l, "whiterun") && !Contains(l, "plains") && !Contains(l, "wind") && !Contains(l, "cloud")
    ensures District(l).None? <==> (!StartsWith(l, "whiterun") &&
      (!Contains(l, "whiterun") || (!Contains(l, "plains") && !Contains(l, "wind") && !Contains(l, "cloud"))))
  {
    if StartsWith(l, "whiterun") {
      assert OccursAt(l, "whiterun", 0);
    }
  }

  /** A location that does not mention Whiterun yields no text. */
  lemma OutsideWhiterun(loc: Option<string>, campaignState: Object, isCompanionPresent: (Json, string) -> bool)
    requires !Contains(LocText(loc), "whiterun")
    requires ActiveCompanions(campaignState).Ok?
    ensures WhiterunLocationTriggers(loc, campaignState, isCompanionPresent) == Ok([])
  {
    if StartsWith(LocText(loc), "whiterun") {
      assert OccursAt(LocText(loc), "whiterun", 0);
    }
  }

  /** A missing location reads as "none" and yields no text. */
  lemma NoLocation(campaignState: Object, isCompanionPresent: (Json, string) -> bool)
    requires ActiveCompanions(campaignState).Ok?
    ensures WhiterunLocationTriggers(None, campaignState, isCompanionPresent) == Ok([])
  {
    assert LocText(None) == "none";
    if Contains("none", "whiterun") {
      ContainsShorter("none", "whiterun");
    }
    OutsideWhiterun(None, campaignState, isCompanionPresent);
  }

  /** Only the lowercased location matters. */
  lemma CaseInsensitive(a: string, b: string, campaignState: Object, isCompanionPresent: (Json, string) -> bool)
    requires Lower(a) == Lower(b)
    ensures WhiterunLocationTriggers(Some(a), campaignState, isCompanionPresent) ==
            WhiterunLocationTriggers(Some(b), campaignState, isCompanionPresent)
  {
  }
}
