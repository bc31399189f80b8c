/** File ids made from display names, as the NPC and character templates build
    them: `re.sub(r'[^a-zA-Z0-9_]', '_', name.lower())`, then runs of `_`
    collapsed to one and `_` stripped from both ends. */
module Identifiers {
  import opened Text

  /** The characters `[a-zA-Z0-9_]` keeps. */
  predicate WordChar(c: char) {
    'a' <= c <= 'z' || 'A' <= c <= 'Z' || '0' <= c <= '9' || c == '_'
  }

  /** The characters an id is made of: lower-case letters, digits and `_`. */
  predicate IdChar(c: char) {
    'a' <= c <= 'z' || '0' <= c <= '9' || c == '_'
  }

  /** The first substitution, character by character, after lower-casing. */
  function Underscored(s: string): (r: string)
    ensures |r| == |s|
    ensures forall i :: 0 <= i < |r| ==> r[i] == (if WordChar(LowerChar(s[i])) then LowerChar(s[i]) else '_')
  {
    seq(|s|, i requires 0 <= i < |s| => if WordChar(LowerChar(s[i])) then LowerChar(s[i]) else '_')
  }

  /** `re.sub(r'_+', '_', s)`: every run of `_` becomes a single `_`. */
  function Collapse(s: string): string
    decreases |s|
  {
    if |s| <= 1 then s
    else if s[0] == '_' && s[1] == '_' then Collapse(s[1..])
    else [s[0]] + Collapse(s[1..])
  }

  /** `s.lstrip('_')`. */
  function StripLeft(s: string): string
    decreases |s|
  {
    if |s| > 0 && s[0] == '_' then StripLeft(s[1..]) else s
  }

  /** `s.rstrip('_')`. */
  function StripRight(s: string): string
    decreases |s|
  {
    if |s| > 0 && s[|s| - 1] == '_' then StripRight(s[..|s| - 1]) else s
  }

  /** The id made from a name. */
  function Sanitize(name: string): string {
    StripRight(StripLeft(Collapse(Underscored(name))))
  }

  predicate AllIdChars(s: string) {
    forall i :: 0 <= i < |s| ==> IdChar(s[i])
  }

  predicate NoDoubleUnderscore(s: string) {
    forall i :: 0 <= i < |s| - 1 ==> !(s[i] == '_' && s[i + 1] == '_')
  }

  /** An id as the templates store it. */
  predicate Clean(s: string) {
    AllIdChars(s) && NoDoubleUnderscore(s) && (|s| > 0 ==> s[0] != '_' && s[|s| - 1] != '_')
  }

  lemma UnderscoredIdChars(s: string)
    ensures AllIdChars(Underscored(s))
  {
  }

  /** Collapsing keeps the first and the last character and the character set,
      and leaves no `__`. */
  lemma {:induction false} CollapseSpec(s: string)
    ensures |Collapse(s)| <= |s|
    ensures |s| > 0 ==> |Collapse(s)| > 0 && Collapse(s)[0] == s[0] && Collapse(s)[|Collapse(s)| - 1] == s[|s| - 1]
    ensures AllIdChars(s) ==> AllIdChars(Collapse(s))
    ensures NoDoubleUnderscore(Collapse(s))
    decreases |s|
  {
    if |s| > 1 {
      CollapseSpec(s[1..]);
      var rest := Collapse(s[1..]);
      if !(s[0] == '_' && s[1] == '_') {
        var r := [s[0]] + rest;
        assert r[1..] == rest;
        forall i | 0 <= i < |r| - 1
          ensures !(r[i] == '_' && r[i + 1] == '_')
        {
          if i > 0 {
            assert r[i] == rest[i - 1] && r[i + 1] == rest[i];
          }
        }
        if AllIdChars(s) {
          forall i | 0 <= i < |r|
            ensures IdChar(r[i])
          {
            if i > 0 {
              assert r[i] == rest[i - 1];
              assert IdChar(s[1..][0]);
            }
          }
        }
      }
    }
  }

  /** A text without `__` is its own collapse. */
  lemma {:induction false} CollapseFixes(s: string)
    requires NoDoubleUnderscore(s)
    ensures Collapse(s) == s
    decreases |s|
  {
    if |s| > 1 {
      assert NoDoubleUnderscore(s[1..]) by {
        forall i | 0 <= i < |s[1..]| - 1
          ensures !(s[1..][i] == '_' && s[1..][i + 1] == '_')
        {
          assert s[1..][i] == s[i + 1] && s[1..][i + 1] == s[i + 2];
        }
      }
      CollapseFixes(s[1..]);
      assert [s[0]] + s[1..] == s;
    }
  }

  /** Stripping on the left gives a suffix that does not start with `_`. */
  lemma {:induction false} StripLeftSpec(s: string)
    ensures |StripLeft(s)| <= |s| && StripLeft(s) == s[|s| - |StripLeft(s)|..]
    ensures |StripLeft(s)| > 0 ==> StripLeft(s)[0] != '_'
    decreases |s|
  {
    if |s| > 0 && s[0] == '_' {
      StripLeftSpec(s[1..]);
      assert s[1..][|s[1..]| - |StripLeft(s[1..])|..] == s[|s| - |StripLeft(s)|..];
    }
  }

  /** Stripping on the right gives a prefix that does not end with `_`. */
  lemma {:induction false} StripRightSpec(s: string)
    ensures |StripRight(s)| <= |s| && StripRight(s) == s[..|StripRight(s)|]
    ensures |StripRight(s)| > 0 ==> StripRight(s)[|StripRight(s)| - 1] != '_'
    decreases |s|
  {
    if |s| > 0 && s[|s| - 1] == '_' {
      StripRightSpec(s[..|s| - 1]);
      assert s[..|s| - 1][..|StripRight(s)|] == s[..|StripRight(s)|];
    }
  }

  /** Every id the templates build is clean. */
  lemma SanitizeClean(name: string)
    ensures Clean(Sanitize(name))
  {
    var u := Underscored(name);
    UnderscoredIdChars(name);
    var c := Collapse(u);
    CollapseSpec(u);
    var l := StripLeft(c);
    StripLeftSpec(c);
    var r := StripRight(l);
    StripRightSpec(l);
    assert r == Sanitize(name);
    forall i | 0 <= i < |r|
      ensures IdChar(r[i])
    {
      assert r[i] == l[i] == c[|c| - |l| + i];
    }
    forall i | 0 <= i < |r| - 1
      ensures !(r[i] == '_' && r[i + 1] == '_')
    {
      assert r[i] == c[|c| - |l| + i] && r[i + 1] == c[|c| - |l| + i + 1];
    }
    if |r| > 0 {
      assert r[0] == l[0];
    }
  }

  /** A clean id sanitises to itself. */
  lemma SanitizeFixes(s: string)
    requires Clean(s)
    ensures Sanitize(s) == s
  {
    assert Underscored(s) == s;
    CollapseFixes(s);
    if |s| > 0 {
      assert StripLeft(s) == s;
      assert StripRight(s) == s;
    }
  }

  /** Sanitising twice is sanitising once. */
  lemma SanitizeIdempotent(name: string)
    ensures Sanitize(Sanitize(name)) == Sanitize(name)
  {
    SanitizeClean(name);
    SanitizeFixes(Sanitize(name));
  }
}
