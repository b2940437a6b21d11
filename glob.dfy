/**
 * The matcher an ignore rule compiles to. The rule text is escaped into a
 * regular expression in which only `*` keeps a meaning, "a possibly empty run
 * of characters other than `/`". The expression is not anchored, so a path is
 * accepted when some substring of it matches the whole pattern, or when the
 * path equals the rule text.
 */
module Glob {

  /** `p` matches all of `s`. */
  predicate Whole(p: string, s: string)
    decreases |p| + |s|
  {
    if p == [] then s == []
    else if p[0] == '*' then Whole(p[1..], s) || (s != [] && s[0] != '/' && Whole(p, s[1..]))
    else s != [] && s[0] == p[0] && Whole(p[1..], s[1..])
  }

  /** `p` matches some prefix of `s`: the expression tried at one start position. */
  predicate AtStart(p: string, s: string)
    decreases |p| + |s|
  {
    if p == [] then true
    else if p[0] == '*' then AtStart(p[1..], s) || (s != [] && s[0] != '/' && AtStart(p, s[1..]))
    else s != [] && s[0] == p[0] && AtStart(p[1..], s[1..])
  }

  /** The unanchored search: some start position of `s` admits a match. */
  predicate Somewhere(p: string, s: string)
    decreases |s|
  {
    AtStart(p, s) || (s != [] && Somewhere(p, s[1..]))
  }

  /** `applyRule`: the path equals the rule, or the compiled expression finds a match in it. */
  predicate Accepts(rule: string, path: string) {
    path == rule || Somewhere(rule, path)
  }

  /** The reference meaning of the matcher: some substring of the path matches the pattern. */
  ghost predicate MatchesSubstring(rule: string, path: string) {
    exists i, j | 0 <= i <= j <= |path| :: Whole(rule, path[i..j])
  }

  lemma {:induction false} AtStartIff(p: string, s: string)
    ensures AtStart(p, s) <==> exists k | 0 <= k <= |s| :: Whole(p, s[..k])
    decreases |p| + |s|
  {
    if p == [] {
      assert Whole(p, s[..0]);
    } else if p[0] == '*' {
      AtStartIff(p[1..], s);
      if s != [] && s[0] != '/' {
        AtStartIff(p, s[1..]);
        if AtStart(p, s[1..]) {
          var k :| 0 <= k <= |s[1..]| && Whole(p, s[1..][..k]);
          assert s[..k + 1][1..] == s[1..][..k];
          assert Whole(p, s[..k + 1]);
        }
      }
      if k :| 0 <= k <= |s| && Whole(p, s[..k]) {
        if !Whole(p[1..], s[..k]) {
          assert s[..k] != [] && s[..k][0] != '/' && Whole(p, s[..k][1..]);
          assert s[..k][1..] == s[1..][..k - 1];
          AtStartIff(p, s[1..]);
        }
      }
    } else {
      if s != [] && s[0] == p[0] {
        AtStartIff(p[1..], s[1..]);
        if AtStart(p[1..], s[1..]) {
          var k :| 0 <= k <= |s[1..]| && Whole(p[1..], s[1..][..k]);
          assert s[..k + 1][1..] == s[1..][..k];
        }
        if k :| 0 <= k <= |s| && Whole(p, s[..k]) {
          assert s[..k][1..] == s[1..][..k - 1];
        }
      }
    }
  }

  lemma {:induction false} SomewhereIff(p: string, s: string)
    ensures Somewhere(p, s) <==> MatchesSubstring(p, s)
    decreases |s|
  {
    AtStartIff(p, s);
    if AtStart(p, s) {
      var k :| 0 <= k <= |s| && Whole(p, s[..k]);
      assert s[0..k] == s[..k];
    }
    if s != [] {
      SomewhereIff(p, s[1..]);
      if Somewhere(p, s[1..]) {
        var i, j :| 0 <= i <= j <= |s[1..]| && Whole(p, s[1..][i..j]);
        assert s[i + 1..j + 1] == s[1..][i..j];
        assert Whole(p, s[i + 1..j + 1]);
        assert MatchesSubstring(p, s);
      }
    }
    if MatchesSubstring(p, s) {
      var i, j :| 0 <= i <= j <= |s| && Whole(p, s[i..j]);
      if i == 0 {
        assert s[..j] == s[i..j];
        assert AtStart(p, s);
      } else {
        assert s[1..][i - 1..j - 1] == s[i..j];
        assert MatchesSubstring(p, s[1..]);
        assert Somewhere(p, s[1..]);
      }
    }
  }

  /** A pattern matches its own text: `*` is not `/`, so it can stand for itself. */
  lemma {:induction false} WholeSelf(p: string)
    ensures Whole(p, p)
    decreases |p|
  {
    if p != [] {
      WholeSelf(p[1..]);
      if p[0] == '*' {
        assert Whole(p[1..], p[1..]);
        assert Whole([], []);
        WholeStarSkip(p);
      }
    }
  }

  /** With `*` first, consuming one `*` of the subject and then the rest literally is a match. */
  lemma WholeStarSkip(p: string)
    requires p != [] && p[0] == '*' && Whole(p[1..], p[1..])
    ensures Whole(p, p)
  {
    assert Whole(p, p[1..]);
  }

  /**
   * The equality test in `applyRule` never changes the answer: the matcher
   * accepts exactly the paths that contain a match of the pattern.
   */
  lemma AcceptsIff(rule: string, path: string)
    ensures Accepts(rule, path) <==> MatchesSubstring(rule, path)
  {
    SomewhereIff(rule, path);
    if path == rule {
      WholeSelf(rule);
      assert path[0..|path|] == path;
    }
  }

  /** Without `*`, a rule accepts exactly the paths that contain its text. */
  lemma {:induction false} LiteralWhole(p: string, s: string)
    requires forall i | 0 <= i < |p| :: p[i] != '*'
    ensures Whole(p, s) <==> s == p
    decreases |p|
  {
    if p != [] && s != [] {
      LiteralWhole(p[1..], s[1..]);
      if s[0] == p[0] && s[1..] == p[1..] {
        assert s == [s[0]] + s[1..] && p == [p[0]] + p[1..];
      }
    }
  }

  /** The literal text of `p` starts at position `i` of `s`. */
  predicate OccursAt(p: string, s: string, i: int) {
    0 <= i && i + |p| <= |s| && s[i..i + |p|] == p
  }

  lemma LiteralAccepts(rule: string, path: string)
    requires forall i | 0 <= i < |rule| :: rule[i] != '*'
    ensures Accepts(rule, path) <==> exists i :: OccursAt(rule, path, i)
  {
    AcceptsIff(rule, path);
    if MatchesSubstring(rule, path) {
      var i, j :| 0 <= i <= j <= |path| && Whole(rule, path[i..j]);
      LiteralWhole(rule, path[i..j]);
      assert OccursAt(rule, path, i);
    }
    if i :| OccursAt(rule, path, i) {
      LiteralWhole(rule, path[i..i + |rule|]);
    }
  }
}
