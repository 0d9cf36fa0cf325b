/**
 * SQLite's built-in `LIKE` operator as the primary query uses it: no
 * `ESCAPE` clause, `%` matches any run of characters (also the empty one),
 * `_` matches exactly one character, and every other character matches
 * itself with ASCII letters compared case-insensitively.
 */
module SqlLike {
  import opened Text

  /** One pattern character against one text character, ignoring ASCII case. */
  predicate SameIgnoringCase(a: char, b: char)
  {
    LowerChar(a) == LowerChar(b)
  }

  /** `s LIKE p`. */
  predicate Like(s: string, p: string)
    decreases |s| + |p|
  {
    if p == [] then s == []
    else if p[0] == '%' then Like(s, p[1..]) || (s != [] && Like(s[1..], p))
    else s != [] && (p[0] == '_' || SameIgnoringCase(s[0], p[0])) && Like(s[1..], p[1..])
  }

  /** A value with no `%` and no `_` stands for itself inside a pattern. */
  predicate NoWildcards(x: string)
  {
    '%' !in x && '_' !in x
  }

  /** A lone `%` matches every string. */
  lemma {:induction false} PercentMatchesAll(s: string)
    ensures Like(s, "%")
  {
    if s != [] {
      PercentMatchesAll(s[1..]);
    }
  }

  /** Every character of `x` matches the character of `t` at the same position. */
  predicate MatchesAtStart(t: string, x: string)
  {
    |x| <= |t| && forall i :: 0 <= i < |x| ==> x[i] == '_' || SameIgnoringCase(t[i], x[i])
  }

  /** `t LIKE 'x%'`, for `x` without `%`, holds exactly when `x` matches the start of `t`. */
  lemma {:induction false} PrefixPattern(t: string, x: string)
    requires '%' !in x
    ensures Like(t, x + "%") <==> MatchesAtStart(t, x)
  {
    if x == [] {
      assert x + "%" == "%";
      PercentMatchesAll(t);
    } else {
      assert (x + "%")[0] == x[0] && (x + "%")[1..] == x[1..] + "%";
      assert '%' !in x[1..] by {
        forall c | c in x[1..] ensures c in x { }
      }
      if t != [] {
        PrefixPattern(t[1..], x[1..]);
        if MatchesAtStart(t, x) {
          forall i | 0 <= i < |x[1..]|
            ensures x[1..][i] == '_' || SameIgnoringCase(t[1..][i], x[1..][i])
          {
            assert x[1..][i] == x[i + 1] && t[1..][i] == t[i + 1];
          }
        }
        if Like(t, x + "%") {
          forall i | 0 <= i < |x|
            ensures x[i] == '_' || SameIgnoringCase(t[i], x[i])
          {
            if i > 0 {
              assert x[1..][i - 1] == x[i] && t[1..][i - 1] == t[i];
            }
          }
        }
      }
    }
  }

  /** Without wildcards, matching at the start is equality of the lower-cased texts. */
  lemma MatchesAtStartIsPrefix(t: string, x: string)
    requires NoWildcards(x)
    ensures MatchesAtStart(t, x) <==> |x| <= |t| && Lower(t)[..|x|] == Lower(x)
  {
    if |x| <= |t| && Lower(t)[..|x|] == Lower(x) {
      forall i | 0 <= i < |x| ensures SameIgnoringCase(t[i], x[i]) {
        assert Lower(t)[..|x|][i] == Lower(x)[i];
      }
    }
  }

  /** A leading `%` lets the rest of the pattern match any suffix. */
  lemma {:induction false} LeadingPercent(s: string, q: string)
    ensures Like(s, "%" + q) <==> exists i :: 0 <= i <= |s| && Like(s[i..], q)
  {
    var p := "%" + q;
    assert p[0] == '%' && p[1..] == q;
    if s == [] {
      assert Like(s, p) == Like(s, q);
      assert s[0..] == s;
    } else {
      LeadingPercent(s[1..], q);
      assert Like(s, p) <==> Like(s, q) || Like(s[1..], p);
      if Like(s, q) {
        assert s[0..] == s;
      }
      if Like(s[1..], p) {
        var i :| 0 <= i <= |s[1..]| && Like(s[1..][i..], q);
        assert s[1..][i..] == s[i + 1..];
      }
      if exists i :: 0 <= i <= |s| && Like(s[i..], q) {
        var i :| 0 <= i <= |s| && Like(s[i..], q);
        if i == 0 {
          assert s[0..] == s;
          assert Like(s, p[1..]);
        } else {
          assert s[1..][i - 1..] == s[i..];
          assert Like(s[1..][i - 1..], q);
          assert Like(s[1..], p);
        }
      }
    }
  }

  /** `s LIKE '%x%'` holds exactly when `x` matches somewhere in `s`. */
  lemma SurroundedPattern(s: string, x: string)
    requires '%' !in x
    ensures Like(s, "%" + x + "%") <==> exists i :: 0 <= i <= |s| && MatchesAtStart(s[i..], x)
  {
    assert "%" + x + "%" == "%" + (x + "%");
    LeadingPercent(s, x + "%");
    forall i | 0 <= i <= |s| ensures Like(s[i..], x + "%") <==> MatchesAtStart(s[i..], x) {
      PrefixPattern(s[i..], x);
    }
  }

  /**
   * The primary query's `field LIKE '%x%'` is the case-insensitive
   * substring test whenever the requested value has no wildcard character.
   */
  lemma LikeIsContainment(s: string, x: string)
    requires NoWildcards(x)
    ensures Like(s, "%" + x + "%") <==> ContainsCI(s, x)
  {
    SurroundedPattern(s, x);
    if Like(s, "%" + x + "%") {
      var i :| 0 <= i <= |s| && MatchesAtStart(s[i..], x);
      MatchesAtStartIsPrefix(s[i..], x);
      LowerSlice(s, i, |s|);
      assert Lower(s)[i..i + |x|] == Lower(x);
      assert OccursAt(Lower(x), Lower(s), i);
    }
    if ContainsCI(s, x) {
      var i :| 0 <= i <= |Lower(s)| - |Lower(x)| && OccursAt(Lower(x), Lower(s), i);
      MatchesAtStartIsPrefix(s[i..], x);
      LowerSlice(s, i, |s|);
      assert Lower(s[i..])[..|x|] == Lower(s)[i..i + |x|];
    }
  }

  /**
   * A `_` in the request is a wildcard: a category typed as
   * "acne_treatment" matches a stored "Acne treatment", which does not
   * contain the typed text.
   */
  lemma UnderscoreMatchesAnyCharacter()
    ensures Like("Acne treatment", "%" + "acne_treatment" + "%")
    ensures !ContainsCI("Acne treatment", "acne_treatment")
  {
    var s := "Acne treatment";
    SurroundedPattern(s, "acne_treatment");
    assert s[0..] == s;
    assert MatchesAtStart(s, "acne_treatment");
    assert Lower("acne_treatment")[4] != Lower(s)[4];
  }
}
