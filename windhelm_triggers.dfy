/** Narrative triggers for Windhelm's districts and the Eastmarch wilds. Each
    district fires its introduction once, records that in a flag of the campaign
    state, and afterwards fires its return description instead. */
module WindhelmTriggers {
  import opened Wrappers
  import opened Text
  import opened Json
  import opened LocationUtils

  /** The narrated texts, one constructor per text. */
  datatype Event =
    | PalaceIntro | PalaceReturn
    | GrayQuarterIntro | GrayQuarterReturn
    | MarketIntro | MarketReturn
    | DocksIntro | DocksReturn
    | HotSpringsIntro | HotSpringsReturn
    | DunmethPass

  /** The places that fire once and then fire a return text. */
  datatype Site = Palace | GrayQuarter | Market | Docks | HotSprings

  function SiteFlag(site: Site): string {
    match site
    case Palace => "windhelm_palace_intro_done"
    case GrayQuarter => "windhelm_gray_quarter_intro_done"
    case Market => "windhelm_market_intro_done"
    case Docks => "windhelm_docks_intro_done"
    case HotSprings => "eastmarch_hot_springs_seen"
  }

  function Intro(site: Site): Event {
    match site
    case Palace => PalaceIntro
    case GrayQuarter => GrayQuarterIntro
    case Market => MarketIntro
    case Docks => DocksIntro
    case HotSprings => HotSpringsIntro
  }

  function Return(site: Site): Event {
    match site
    case Palace => PalaceReturn
    case GrayQuarter => GrayQuarterReturn
    case Market => MarketReturn
    case Docks => DocksReturn
    case HotSprings => HotSpringsReturn
  }

  /** The location as matched: lowercased, underscores read as spaces, and `""`
      for a missing or empty location. */
  function Normalize(location: Option<string>): string {
    ReplaceChar(if Given(location) then Lower(location.value) else "", '_', ' ')
  }

  /** Only Windhelm and Eastmarch locations trigger anything. */
  predicate InRegion(loc: string) {
    Contains(loc, "windhelm") || Contains(loc, "eastmarch")
  }

  /** Whether the (normalised) location selects a site. The four districts sit
      inside the Windhelm block, so they also need "windhelm". */
  predicate SiteMatches(loc: string, site: Site) {
    var windhelm := Contains(loc, "windhelm");
    match site
    case Palace =>
      windhelm && (Contains(loc, "palace of the kings") || (Contains(loc, "palace") && windhelm))
    case GrayQuarter =>
      windhelm && (Contains(loc, "gray quarter") || (Contains(loc, "gray") && windhelm && !Contains(loc, "palace")))
    case Market =>
      windhelm && (Contains(loc, "stone quarter") || (Contains(loc, "stone") && windhelm) || (Contains(loc, "market") && windhelm))
    case Docks =>
      windhelm && (Contains(loc, "docks") || (Contains(loc, "harbor") && windhelm))
    case HotSprings =>
      Contains(loc, "hot springs") || Contains(loc, "steam fields")
  }

  predicate AtDunmethPass(loc: string) {
    Contains(loc, "dunmeth pass") || Contains(loc, "morrowind border")
  }

  /** One site's block: nothing if the site is not selected; otherwise the return
      text if its flag is set, else the introduction and the flag set to `True`. */
  function Visit(site: Site, loc: string, acc: (seq<Event>, Object)): (seq<Event>, Object) {
    if !SiteMatches(loc, site) then acc
    else if Flag(acc.1, SiteFlag(site)) then (acc.0 + [Return(site)], acc.1)
    else (acc.0 + [Intro(site)], Put(acc.1, SiteFlag(site), JBool(true)))
  }

  /** The sites in the order the source tests them. */
  const AllSites: seq<Site> := [Palace, GrayQuarter, Market, Docks, HotSprings]

  /** The visits of `sites`, one after the other. */
  function VisitAll(sites: seq<Site>, loc: string, acc: (seq<Event>, Object)): (seq<Event>, Object)
    decreases |sites|
  {
    if |sites| == 0 then acc else VisitAll(sites[1..], loc, Visit(sites[0], loc, acc))
  }

  /** The events and the new state of one call. */
  function Triggered(location: Option<string>, state: Object): (seq<Event>, Object) {
    var loc := Normalize(location);
    if !InRegion(loc) then ([], state)
    else
      var r := VisitAll(AllSites, loc, ([], state));
      (r.0 + (if AtDunmethPass(loc) then [DunmethPass] else []), r.1)
  }

  lemma VisitAllSites(loc: string, acc: (seq<Event>, Object))
    ensures VisitAll(AllSites, loc, acc) ==
      Visit(HotSprings, loc, Visit(Docks, loc, Visit(Market, loc, Visit(GrayQuarter, loc, Visit(Palace, loc, acc)))))
  {
    var a1 := Visit(Palace, loc, acc);
    var a2 := Visit(GrayQuarter, loc, a1);
    var a3 := Visit(Market, loc, a2);
    var a4 := Visit(Docks, loc, a3);
    assert AllSites[1..] == [GrayQuarter, Market, Docks, HotSprings];
    assert AllSites[1..][1..] == [Market, Docks, HotSprings];
    assert AllSites[1..][1..][1..] == [Docks, HotSprings];
    assert AllSites[1..][1..][1..][1..] == [HotSprings];
    assert AllSites[1..][1..][1..][1..][1..] == [];
    assert VisitAll([HotSprings], loc, a4) == Visit(HotSprings, loc, a4);
  }

  /** One block of the source, entered once the location has selected `site`: the
      return text if the flag is set, otherwise the introduction and the flag set
      to `True`. */
  method FireSite(site: Site, loc: string, events: seq<Event>, campaignState: JsonDict)
    returns (events': seq<Event>)
    requires SiteMatches(loc, site)
    modifies campaignState
    ensures (events', campaignState.members) == Visit(site, loc, (events, old(campaignState.members)))
  {
    if !campaignState.IsSet(SiteFlag(site)) {
      events' := events + [Intro(site)];
      campaignState.Assign(SiteFlag(site), JBool(true));
    } else {
      events' := events + [Return(site)];
    }
  }

  /** The Windhelm city block of `windhelm_location_triggers`: the four districts,
      each tested on its own, in source order. */
  method CityDistricts(locNormalized: string, events: seq<Event>, campaignState: JsonDict)
    returns (events': seq<Event>)
    modifies campaignState
    ensures (events', campaignState.members) ==
      Visit(Docks, locNormalized, Visit(Market, locNormalized, Visit(GrayQuarter, locNormalized,
        Visit(Palace, locNormalized, (events, old(campaignState.members))))))
  {
    events' := events;
    if SiteMatches(locNormalized, Palace) {
      events' := FireSite(Palace, locNormalized, events', campaignState);
    }
    ghost var a1 := (events', campaignState.members);
    if SiteMatches(locNormalized, GrayQuarter) {
      events' := FireSite(GrayQuarter, locNormalized, events', campaignState);
    }
    ghost var a2 := (events', campaignState.members);
    assert a2 == Visit(GrayQuarter, locNormalized, a1);
    if SiteMatches(locNormalized, Market) {
      events' := FireSite(Market, locNormalized, events', campaignState);
    }
    ghost var a3 := (events', campaignState.members);
    assert a3 == Visit(Market, locNormalized, a2);
    if SiteMatches(locNormalized, Docks) {
      events' := FireSite(Docks, locNormalized, events', campaignState);
    }
  }

  /** `windhelm_location_triggers`: returns the events and updates the campaign
      state in place. */
  method WindhelmLocationTriggers(playerLocation: Option<string>, campaignState: JsonDict)
    returns (events: seq<Event>)
    modifies campaignState
    ensures events == Triggered(playerLocation, old(campaignState.members)).0
    ensures campaignState.members == Triggered(playerLocation, old(campaignState.members)).1
  {
    events := [];
    var loc := if Given(playerLocation) then Lower(playerLocation.value) else "";
    var locNormalized := ReplaceChar(loc, '_', ' ');
    ghost var s0 := campaignState.members;
    assert locNormalized == Normalize(playerLocation);
    if !InRegion(locNormalized) {
      return;
    }
    if Contains(locNormalized, "windhelm") {
      events := CityDistricts(locNormalized, events, campaignState);
    }
    ghost var a4 := (events, campaignState.members);
    assert a4 == Visit(Docks, locNormalized, Visit(Market, locNormalized, Visit(GrayQuarter, locNormalized,
        Visit(Palace, locNormalized, ([], s0)))));
    if SiteMatches(locNormalized, HotSprings) {
      events := FireSite(HotSprings, locNormalized, events, campaignState);
    }
    assert (events, campaignState.members) == VisitAll(AllSites, locNormalized, ([], s0)) by {
      VisitAllSites(locNormalized, ([], s0));
    }
    if AtDunmethPass(locNormalized) {
      events := events + [DunmethPass];
    }
  }

  // ---------------------------------------------------------------------------
  // Properties of one call

  /** A location outside Windhelm and Eastmarch produces no event and leaves the
      state as it was. */
  lemma OutsideRegionNoChange(location: Option<string>, state: Object)
    requires !InRegion(Normalize(location))
    ensures Triggered(location, state) == ([], state)
  {
  }

  /** A missing or empty location produces nothing and changes nothing. */
  lemma EmptyLocationNoChange(location: Option<string>, state: Object)
    requires !Given(location)
    ensures Triggered(location, state) == ([], state)
  {
    if Contains(Normalize(location), "windhelm") {
      ContainsShorter(Normalize(location), "windhelm");
    }
    if Contains(Normalize(location), "eastmarch") {
      ContainsShorter(Normalize(location), "eastmarch");
    }
  }

  /** A visit writes at most its own flag, only when the site is selected, only
      from unset to `True`, and so never clears a flag. */
  lemma VisitWrites(site: Site, loc: string, acc: (seq<Event>, Object))
    ensures forall k :: k != SiteFlag(site) ==> Get(Visit(site, loc, acc).1, k) == Get(acc.1, k)
    ensures forall k :: Flag(acc.1, k) ==> Flag(Visit(site, loc, acc).1, k)
    ensures SiteMatches(loc, site) ==> Flag(Visit(site, loc, acc).1, SiteFlag(site))
    ensures !SiteMatches(loc, site) || Flag(acc.1, SiteFlag(site)) ==> Visit(site, loc, acc).1 == acc.1
  {
  }

  /** Whether `k` is the flag of a site in `sites` that the location selects. */
  predicate MatchedFlag(sites: seq<Site>, loc: string, k: string) {
    exists i :: 0 <= i < |sites| && SiteMatches(loc, sites[i]) && SiteFlag(sites[i]) == k
  }

  /** No state pollution: after the visits every selected site's flag is set, and
      every other key holds what it held before. */
  lemma {:induction false} VisitAllWrites(sites: seq<Site>, loc: string, acc: (seq<Event>, Object))
    ensures forall i :: 0 <= i < |sites| && SiteMatches(loc, sites[i]) ==> Flag(VisitAll(sites, loc, acc).1, SiteFlag(sites[i]))
    ensures forall k :: Flag(acc.1, k) ==> Flag(VisitAll(sites, loc, acc).1, k)
    ensures forall k :: !MatchedFlag(sites, loc, k) ==> Get(VisitAll(sites, loc, acc).1, k) == Get(acc.1, k)
    decreases |sites|
  {
    if |sites| > 0 {
      var next := Visit(sites[0], loc, acc);
      VisitWrites(sites[0], loc, acc);
      VisitAllWrites(sites[1..], loc, next);
      forall i | 0 <= i < |sites| && SiteMatches(loc, sites[i])
        ensures Flag(VisitAll(sites, loc, acc).1, SiteFlag(sites[i]))
      {
        if i > 0 {
          assert sites[1..][i - 1] == sites[i];
        }
      }
      forall k | !MatchedFlag(sites, loc, k)
        ensures Get(VisitAll(sites, loc, acc).1, k) == Get(acc.1, k)
      {
        assert !SiteMatches(loc, sites[0]) || SiteFlag(sites[0]) != k;
        forall i | 0 <= i < |sites[1..]|
          ensures !(SiteMatches(loc, sites[1..][i]) && SiteFlag(sites[1..][i]) == k)
        {
          assert sites[1..][i] == sites[i + 1];
        }
      }
    }
  }

  /** With every selected site's flag already set, the visits change nothing and
      each selected site adds its return text. */
  lemma {:induction false} VisitAllRepeat(sites: seq<Site>, loc: string, acc: (seq<Event>, Object))
    requires forall i :: 0 <= i < |sites| && SiteMatches(loc, sites[i]) ==> Flag(acc.1, SiteFlag(sites[i]))
    ensures VisitAll(sites, loc, acc).1 == acc.1
    ensures forall e :: e in VisitAll(sites, loc, acc).0 ==> e in acc.0 || exists site :: e == Return(site)
    decreases |sites|
  {
    if |sites| > 0 {
      var next := Visit(sites[0], loc, acc);
      VisitWrites(sites[0], loc, acc);
      assert forall i :: 0 <= i < |sites[1..]| ==> sites[1..][i] == sites[i + 1];
      VisitAllRepeat(sites[1..], loc, next);
    }
  }

  /** Idempotence: a second call with the same location leaves the state as the
      first call left it, and fires only return texts and Dunmeth Pass. */
  lemma TriggeredIdempotent(location: Option<string>, state: Object)
    ensures Triggered(location, Triggered(location, state).1).1 == Triggered(location, state).1
    ensures forall e :: e in Triggered(location, Triggered(location, state).1).0 ==>
      e == DunmethPass || exists site :: e == Return(site)
  {
    var loc := Normalize(location);
    if InRegion(loc) {
      VisitAllWrites(AllSites, loc, ([], state));
      var after := Triggered(location, state).1;
      VisitAllRepeat(AllSites, loc, ([], after));
    }
  }

  /** No state pollution for a whole call: every selected site's flag is set
      afterwards, and every key that is not such a flag is unchanged. */
  lemma TriggeredWrites(location: Option<string>, state: Object)
    ensures InRegion(Normalize(location)) ==>
      forall i :: 0 <= i < |AllSites| && SiteMatches(Normalize(location), AllSites[i]) ==>
        Flag(Triggered(location, state).1, SiteFlag(AllSites[i]))
    ensures forall k :: !MatchedFlag(AllSites, Normalize(location), k) ==>
      Get(Triggered(location, state).1, k) == Get(state, k)
  {
    var loc := Normalize(location);
    if InRegion(loc) {
      VisitAllWrites(AllSites, loc, ([], state));
    }
  }

  /** Whether no site in `sites` has its flag set. */
  predicate NoneSet(sites: seq<Site>, state: Object) {
    forall i :: 0 <= i < |sites| ==> !Flag(state, SiteFlag(sites[i]))
  }

  predicate DistinctFlags(sites: seq<Site>) {
    forall i, j :: 0 <= i < j < |sites| ==> SiteFlag(sites[i]) != SiteFlag(sites[j])
  }

  /** The introductions of the selected sites, in order. */
  function Intros(sites: seq<Site>, loc: string): seq<Event>
    decreases |sites|
  {
    if |sites| == 0 then []
    else (if SiteMatches(loc, sites[0]) then [Intro(sites[0])] else []) + Intros(sites[1..], loc)
  }

  /** Two characters of each flag, the first and the tenth, that tell the
      flags apart. */
  lemma FlagMarks(site: Site)
    ensures |SiteFlag(site)| > 9
    ensures SiteFlag(site)[0] == (if site == HotSprings then 'e' else 'w')
    ensures SiteFlag(site)[9] == match site
      case Palace => 'p' case GrayQuarter => 'g' case Market => 'm' case Docks => 'd' case HotSprings => '_'
  {
  }

  /** Different sites keep different flags. */
  lemma SiteFlagInjective(a: Site, b: Site)
    requires a != b
    ensures SiteFlag(a) != SiteFlag(b)
  {
    FlagMarks(a);
    FlagMarks(b);
  }

  lemma AllSitesDistinctFlags()
    ensures DistinctFlags(AllSites)
  {
    forall i, j | 0 <= i < j < |AllSites|
      ensures SiteFlag(AllSites[i]) != SiteFlag(AllSites[j])
    {
      SiteFlagInjective(AllSites[i], AllSites[j]);
    }
  }

  /** A visit to a site whose flag is unset adds the introduction when the site
      is selected, and nothing otherwise. */
  lemma VisitFirst(site: Site, loc: string, acc: (seq<Event>, Object))
    requires !Flag(acc.1, SiteFlag(site))
    ensures Visit(site, loc, acc).0 == acc.0 + (if SiteMatches(loc, site) then [Intro(site)] else [])
  {
  }

  /** A visit leaves the flags of other sites as they were. */
  lemma VisitKeepsFlag(site: Site, loc: string, acc: (seq<Event>, Object), k: string)
    requires k != SiteFlag(site)
    ensures Flag(Visit(site, loc, acc).1, k) == Flag(acc.1, k)
  {
    if SiteMatches(loc, site) && !Flag(acc.1, SiteFlag(site)) {
      PutOther(acc.1, SiteFlag(site), k, JBool(true));
    }
  }

  /** On a first visit every selected site fires its introduction, in order. */
  lemma {:induction false} VisitAllFirst(sites: seq<Site>, loc: string, acc: (seq<Event>, Object))
    requires DistinctFlags(sites) && NoneSet(sites, acc.1)
    ensures VisitAll(sites, loc, acc).0 == acc.0 + Intros(sites, loc)
    decreases |sites|
  {
    if |sites| > 0 {
      var next := Visit(sites[0], loc, acc);
      var rest := sites[1..];
      assert DistinctFlags(rest) by {
        forall i, j | 0 <= i < j < |rest|
          ensures SiteFlag(rest[i]) != SiteFlag(rest[j])
        {
          assert rest[i] == sites[i + 1] && rest[j] == sites[j + 1];
        }
      }
      assert NoneSet(rest, next.1) by {
        forall i | 0 <= i < |rest|
          ensures !Flag(next.1, SiteFlag(rest[i]))
        {
          assert rest[i] == sites[i + 1];
          assert SiteFlag(sites[0]) != SiteFlag(sites[i + 1]);
          VisitKeepsFlag(sites[0], loc, acc, SiteFlag(sites[i + 1]));
        }
      }
      VisitAllFirst(rest, loc, next);
      VisitFirst(sites[0], loc, acc);
      var x := if SiteMatches(loc, sites[0]) then [Intro(sites[0])] else [];
      assert acc.0 + x + Intros(rest, loc) == acc.0 + (x + Intros(rest, loc));
    }
  }

  /** On a state with none of the site flags set, a call in the region fires the
      introduction of every selected site, in source order, then Dunmeth Pass if
      selected. */
  lemma FirstVisit(location: Option<string>, state: Object)
    requires NoneSet(AllSites, state)
    requires InRegion(Normalize(location))
    ensures Triggered(location, state).0 ==
      Intros(AllSites, Normalize(location)) + (if AtDunmethPass(Normalize(location)) then [DunmethPass] else [])
  {
    AllSitesDistinctFlags();
    VisitAllFirst(AllSites, Normalize(location), ([], state));
    assert [] + Intros(AllSites, Normalize(location)) == Intros(AllSites, Normalize(location));
  }

  /** Dunmeth Pass fires on every call that selects it, as the last event. */
  lemma DunmethPassAlwaysFires(location: Option<string>, state: Object)
    requires InRegion(Normalize(location)) && AtDunmethPass(Normalize(location))
    ensures |Triggered(location, state).0| > 0
    ensures Triggered(location, state).0[|Triggered(location, state).0| - 1] == DunmethPass
  {
  }

  /** Only the lowercased location matters. */
  lemma CaseInsensitive(a: string, b: string, state: Object)
    requires Lower(a) == Lower(b)
    ensures Triggered(Some(a), state) == Triggered(Some(b), state)
  {
    assert |a| == |Lower(a)| == |Lower(b)| == |b|;
  }
}
