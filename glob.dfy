/**
  Shell-style pattern matching as Python's `fnmatch.fnmatch` does it on a POSIX
  system (no case folding): `*` matches any run of characters, `/` included, `?`
  matches exactly one character, and every other character matches itself.
 */
module Glob {
  import opened Seqs

  /** The pattern has no wildcard characters, so it stands for itself. */
  predicate Literal(p: string) {
    forall i :: 0 <= i < |p| ==> p[i] != '*' && p[i] != '?'
  }

  predicate NoStar(p: string) {
    forall i :: 0 <= i < |p| ==> p[i] != '*'
  }

  /** `fnmatch.fnmatch(name, pattern)`. Without `*`, every pattern character, `?`
      included, stands for exactly one character of the name. */
  predicate Match(name: string, pattern: string)
    ensures Match(name, pattern) && NoStar(pattern) ==> |name| == |pattern|
    decreases |name| + |pattern|
  {
    if pattern == [] then
      name == []
    else if pattern[0] == '*' then
      Match(name, pattern[1..]) || (|name| > 0 && Match(name[1..], pattern))
    else
      |name| > 0 && (pattern[0] == '?' || pattern[0] == name[0]) && Match(name[1..], pattern[1..])
  }

  /** The pattern `*` matches every name, the empty one and those with `/` included. */
  lemma {:induction false} StarMatchesAll(name: string)
    ensures Match(name, "*")
    decreases |name|
  {
    if name != [] {
      StarMatchesAll(name[1..]);
    } else {
      assert Match(name, "*"[1..]);
    }
  }

  /** A pattern without wildcards matches exactly the name equal to it. */
  lemma {:induction false} LiteralMatchesItself(name: string, p: string)
    requires Literal(p)
    ensures Match(name, p) <==> name == p
    decreases |p|
  {
    if p != [] && name != [] {
      assert Literal(p[1..]) by {
        forall i | 0 <= i < |p[1..]| ensures p[1..][i] != '*' && p[1..][i] != '?' {
          assert p[1..][i] == p[i + 1];
        }
      }
      LiteralMatchesItself(name[1..], p[1..]);
      if name[1..] == p[1..] && name[0] == p[0] {
        assert name == [name[0]] + name[1..];
        assert p == [p[0]] + p[1..];
      }
    }
  }

  lemma EndsWithStep(s: string, suffix: string)
    requires |s| > 0
    ensures EndsWith(s, suffix) <==> s == suffix || EndsWith(s[1..], suffix)
  {
    if EndsWith(s, suffix) && s != suffix {
      assert |suffix| < |s|;
      assert s[1..][|s| - 1 - |suffix|..] == s[|s| - |suffix|..];
    }
    if EndsWith(s[1..], suffix) {
      assert s[1..][|s| - 1 - |suffix|..] == s[|s| - |suffix|..];
    }
  }

  /** `*` followed by a literal, such as `*.txt`, matches exactly the names that end
      with that literal. */
  lemma {:induction false} StarSuffixMatch(name: string, suffix: string)
    requires Literal(suffix)
    ensures Match(name, "*" + suffix) <==> EndsWith(name, suffix)
    decreases |name|
  {
    var p := "*" + suffix;
    assert p[1..] == suffix;
    LiteralMatchesItself(name, suffix);
    if name == [] {
      assert Match(name, p) <==> Match(name, suffix);
    } else {
      StarSuffixMatch(name[1..], suffix);
      EndsWithStep(name, suffix);
    }
  }
}
