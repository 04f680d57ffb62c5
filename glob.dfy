/** A shell-style wildcard matcher standing in for `fnmatch.fnmatch` on a
    case-sensitive platform: `*` matches any run of characters (also none),
    `?` matches exactly one character, every other character matches itself. */
module Glob {

  function Match(name: string, pat: string): bool
    decreases |pat|, |name|
  {
    if pat == [] then name == []
    else if pat[0] == '*' then Match(name, pat[1..]) || (name != [] && Match(name[1..], pat))
    else name != [] && (pat[0] == '?' || pat[0] == name[0]) && Match(name[1..], pat[1..])
  }

  /** A pattern without wildcards. */
  predicate IsLiteral(pat: string) {
    forall k | 0 <= k < |pat| :: pat[k] != '*' && pat[k] != '?'
  }

  /** A pattern without wildcards matches exactly itself. */
  lemma {:induction false} LiteralMatch(name: string, pat: string)
    requires IsLiteral(pat)
    ensures Match(name, pat) <==> name == pat
    decreases |pat|
  {
    if pat != [] {
      assert IsLiteral(pat[1..]) by {
        forall k | 0 <= k < |pat[1..]|
          ensures pat[1..][k] != '*' && pat[1..][k] != '?'
        {
          assert pat[1..][k] == pat[k + 1];
        }
      }
      if name != [] {
        LiteralMatch(name[1..], pat[1..]);
        assert name == pat <==> name[0] == pat[0] && name[1..] == pat[1..] by {
          if name[0] == pat[0] && name[1..] == pat[1..] {
            assert name == [name[0]] + name[1..];
            assert pat == [pat[0]] + pat[1..];
          }
        }
      }
    }
  }

  /** A lone `*` matches every name. */
  lemma {:induction false} StarMatchesAll(name: string)
    ensures Match(name, "*")
    decreases |name|
  {
    if name != [] {
      StarMatchesAll(name[1..]);
    }
  }

  /** `p*` with a literal `p` matches exactly the names that start with `p`. */
  lemma {:induction false} PrefixStarMatch(name: string, p: string)
    requires IsLiteral(p)
    ensures Match(name, p + "*") <==> |p| <= |name| && name[..|p|] == p
    decreases |p|
  {
    if p == [] {
      assert p + "*" == "*";
      StarMatchesAll(name);
    } else {
      var pat := p + "*";
      assert pat[0] == p[0] && pat[1..] == p[1..] + "*";
      assert IsLiteral(p[1..]) by {
        forall k | 0 <= k < |p[1..]|
          ensures p[1..][k] != '*' && p[1..][k] != '?'
        {
          assert p[1..][k] == p[k + 1];
        }
      }
      if name != [] {
        PrefixStarMatch(name[1..], p[1..]);
        if |p| <= |name| {
          assert name[..|p|] == [name[0]] + name[1..][..|p| - 1];
          assert p == [p[0]] + p[1..];
        }
      }
    }
  }
}
