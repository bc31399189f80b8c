/** The shared location test used when matching search terms against stat sheets. */
module LocationUtils {
  import opened Wrappers
  import opened Text

  /** Python truthiness of an optional string: `None` and `""` are false. */
  predicate Given(s: Option<string>) {
    s.Some? && |s.value| > 0
  }

  /** `location_matches`: case-insensitive substring match in either direction. */
  predicate LocationMatches(search: Option<string>, sheet: Option<string>) {
    if !Given(search) || !Given(sheet) then false
    else
      var a := Lower(search.value);
      var b := Lower(sheet.value);
      Contains(b, a) || Contains(a, b)
  }

  /** Swapping the arguments never changes the answer. */
  lemma LocationMatchesSymmetric(search: Option<string>, sheet: Option<string>)
    ensures LocationMatches(search, sheet) == LocationMatches(sheet, search)
  {
  }

  /** A non-empty location matches itself. */
  lemma LocationMatchesReflexive(s: string)
    requires |s| > 0
    ensures LocationMatches(Some(s), Some(s))
  {
    ContainsSelf(Lower(s));
  }

  /** Only the lowercased text matters: changing the case of either argument keeps the answer. */
  lemma LocationMatchesCaseInsensitive(search: string, search': string, sheet: string, sheet': string)
    requires Lower(search) == Lower(search') && Lower(sheet) == Lower(sheet')
    ensures LocationMatches(Some(search), Some(sheet)) == LocationMatches(Some(search'), Some(sheet'))
  {
  }

  /** Two strings of the same length match only when they are equal after lowercasing. */
  lemma SameLengthMatch(s: string, t: string)
    requires |s| == |t| && Contains(s, t)
    ensures s == t
  {
    var i := ContainsWitness(s, t);
  }

  /** A search text found, in any case, inside a sheet location matches it. */
  lemma InfixMatches(search: string, pre: string, mid: string, post: string)
    requires |search| > 0 && Lower(mid) == Lower(search)
    ensures LocationMatches(Some(search), Some(pre + mid + post))
  {
    LowerAppend(pre + mid, post);
    LowerAppend(pre, mid);
    var b := Lower(pre + mid + post);
    assert b[|pre|..|pre| + |search|] == Lower(search);
    OccursAtContains(b, Lower(search), |pre|);
  }

  /** The docstring's examples of a match: the same location, and a search
      for part of the sheet's location. */
  lemma DocstringMatches()
    ensures LocationMatches(Some("Whiterun"), Some("Whiterun"))
    ensures LocationMatches(Some("ruins"), Some("Ancient Nordic Ruins"))
    ensures LocationMatches(Some("Nordic ruins"), Some("Ancient Nordic Ruins"))
  {
    LocationMatchesReflexive("Whiterun");
    assert "Ancient Nordic Ruins" == "Ancient Nordic " + "Ruins" + "";
    assert Lower("Ruins") == Lower("ruins");
    InfixMatches("ruins", "Ancient Nordic ", "Ruins", "");
    assert "Ancient Nordic Ruins" == "Ancient " + "Nordic Ruins" + "";
    assert Lower("Nordic Ruins") == Lower("Nordic ruins");
    InfixMatches("Nordic ruins", "Ancient ", "Nordic Ruins", "");
  }

  /** The docstring's example of a mismatch: two different holds. */
  lemma DocstringMismatch()
    ensures !LocationMatches(Some("Solitude"), Some("Whiterun"))
  {
    var a := Lower("Solitude");
    var b := Lower("Whiterun");
    assert a[0] == 's' && b[0] == 'w';
    if Contains(b, a) {
      SameLengthMatch(b, a);
    }
    if Contains(a, b) {
      SameLengthMatch(a, b);
    }
  }
}
