/** The version-suffix renaming of the parallel evolution script: a repository id that
    ends in `_ai<digits>` carries its active-iteration number; evolving it renames
    `<name>_ai<k>` to `<name>_v<k+1>`, and an id without the suffix gains `_ai1`. */
module Evolution {
  import opened Strings

  /** The text the pattern `_ai(\d+)$` is anchored against: `$` also matches just
      before a final newline. */
  function MatchTarget(s: string): (t: string)
    ensures |t| <= |s| && t == s[..|t|]
    ensures |s| > 0 && s[|s| - 1] != '\n' ==> t == s
  {
    if |s| > 0 && s[|s| - 1] == '\n' then s[..|s| - 1] else s
  }

  /** `find_ai`: the number written after a trailing `_ai`, or 0 when there is none. */
  function FindAi(s: string): nat
  {
    var t := MatchTarget(s);
    var k := TrailingDigitCount(t);
    if k > 0 && EndsWith(t[..|t| - k], "_ai") then ParseNat(t[|t| - k..]) else 0
  }

  /** The suffix `_ai<n>` is read back as `n`, whatever precedes it. */
  lemma FindAiOfSuffix(x: string, n: nat)
    ensures FindAi(x + "_ai" + NatToString(n)) == n
  {
    var d := NatToString(n);
    var s := x + "_ai" + d;
    assert s[|s| - 1] == d[|d| - 1];
    assert MatchTarget(s) == s;
    TrailingDigitsAppend(x + "_ai", d);
    assert s[..|s| - |d|] == x + "_ai";
    assert s[|s| - |d|..] == d;
  }

  /** A name ending in `_v<n>` carries no active-iteration number. */
  lemma FindAiOfVersion(x: string, n: nat)
    ensures FindAi(x + "_v" + NatToString(n)) == 0
  {
    var d := NatToString(n);
    var s := x + "_v" + d;
    assert s[|s| - 1] == d[|d| - 1];
    assert MatchTarget(s) == s;
    TrailingDigitsAppend(x + "_v", d);
    assert s[..|s| - |d|] == x + "_v";
  }

  /** `increase_ai`: an id without the suffix gains `_ai1`; otherwise the text before
      the first occurrence of `_ai<k>` (the whole id when it never occurs literally)
      gets `_v<k+1>`. */
  function IncreaseAi(s: string): string
  {
    var ai := FindAi(s);
    if ai == 0 then s + "_ai1"
    else BeforeFirst(s, "_ai" + NatToString(ai)) + "_v" + NatToString(ai + 1)
  }

  /** An unnumbered id becomes iteration 1. */
  lemma IncreaseAiNumbers(s: string)
    requires FindAi(s) == 0
    ensures FindAi(IncreaseAi(s)) == 1
  {
    assert NatToString(1) == "1";
    assert IncreaseAi(s) == s + "_ai" + NatToString(1);
    FindAiOfSuffix(s, 1);
  }

  /** A numbered id becomes an unnumbered version. */
  lemma IncreaseAiVersions(s: string)
    requires FindAi(s) > 0
    ensures FindAi(IncreaseAi(s)) == 0
  {
    FindAiOfVersion(BeforeFirst(s, "_ai" + NatToString(FindAi(s))), FindAi(s) + 1);
  }

  /** No text starting with `_ai` occurs at position `j` of `x + y`, inside `x`, when
      `x` holds no `_ai` and `y` starts with `_`. */
  lemma NoOccurrenceAt(x: string, y: string, t: string, j: nat)
    requires |t| >= 3 && t[..3] == "_ai"
    requires |y| >= 1 && y[0] == '_'
    requires forall k :: !OccursAt(x, "_ai", k)
    requires j < |x|
    ensures !OccursAt(x + y, t, j)
  {
    var s := x + y;
    if j + |t| <= |s| {
      var w := s[j..j + 3];
      assert s[j..j + |t|][..3] == w;
      if j + 3 <= |x| {
        assert x[j..j + 3] == w;
        assert !OccursAt(x, "_ai", j);
      } else if j + 2 == |x| {
        assert w[2] == s[j + 2] == '_';
      } else {
        assert w[1] == s[j + 1] == '_';
      }
      assert w != "_ai";
    }
  }

  /** No text starting with `_ai` occurs inside `x + y` before `y` when `x` holds no
      `_ai` and `y` starts with `_`. */
  lemma NoOccurrenceBefore(x: string, y: string, t: string)
    requires |t| >= 3 && t[..3] == "_ai"
    requires |y| >= 1 && y[0] == '_'
    requires !Contains(x, "_ai")
    ensures forall j :: 0 <= j < |x| ==> !OccursAt(x + y, t, j)
  {
    ContainsIff(x, "_ai");
    forall j | 0 <= j < |x|
      ensures !OccursAt(x + y, t, j)
    {
      NoOccurrenceAt(x, y, t, j);
    }
  }

  /** In `x + t`, where `t` starts with `_ai` and `x` holds no `_ai`, the first
      occurrence of `t` is the appended one. */
  lemma BeforeFirstAppended(x: string, t: string)
    requires |t| >= 3 && t[..3] == "_ai"
    requires !Contains(x, "_ai")
    ensures BeforeFirst(x + t, t) == x
  {
    var s := x + t;
    assert s[|x|..|x| + |t|] == t;
    assert OccursAt(s, t, |x|);
    ContainsIff(s, t);
    NoOccurrenceBefore(x, t, t);
  }

  /** A base name holding no `_ai` is kept whole: `<x>_ai<n>` becomes `<x>_v<n+1>`. */
  lemma IncreaseAiOfCleanName(x: string, n: nat)
    requires n > 0
    requires !Contains(x, "_ai")
    ensures IncreaseAi(x + "_ai" + NatToString(n)) == x + "_v" + NatToString(n + 1)
  {
    var t := "_ai" + NatToString(n);
    var s := x + "_ai" + NatToString(n);
    assert s == x + t;
    assert FindAi(s) == n by {
      FindAiOfSuffix(x, n);
    }
    assert BeforeFirst(s, t) == x by {
      BeforeFirstAppended(x, t);
    }
  }

  /** A zero-padded number is read by its value. */
  lemma FindAiZeroPadded(x: string, n: nat)
    ensures FindAi(x + "_ai" + ("0" + NatToString(n))) == n
  {
    var digits := NatToString(n);
    var d := "0" + digits;
    ParseNatLeadingZero(digits);
    var s := x + "_ai" + d;
    assert s[|s| - 1] == d[|d| - 1];
    assert MatchTarget(s) == s;
    TrailingDigitsAppend(x + "_ai", d);
    assert s[..|s| - |d|] == x + "_ai";
    assert s[|s| - |d|..] == d;
  }

  /** `_ai<digits>` does not occur at or after the `_ai0` of `x + "_ai0" + digits` when
      the digits do not start with 0. */
  lemma PaddedMisses(x: string, digits: string)
    requires AllDigits(digits) && |digits| >= 1 && digits[0] != '0'
    ensures forall j :: |x| <= j ==> !OccursAt(x + "_ai" + ("0" + digits), "_ai" + digits, j)
  {
    var s := x + "_ai" + ("0" + digits);
    var t := "_ai" + digits;
    var tail := "ai0" + digits;
    assert forall k :: 0 <= k < |tail| ==> tail[k] != '_' by {
      assert forall k :: 3 <= k < |tail| ==> tail[k] == digits[k - 3];
    }
    assert forall j :: |x| < j < |s| ==> s[j] == tail[j - |x| - 1];
    forall j | |x| <= j
      ensures !OccursAt(s, t, j)
    {
      assert j + |t| > |s| || s[j..j + |t|][0] == s[j];
      assert j + |t| > |s| || s[j..j + |t|][3] == s[j + 3];
    }
  }

  /** A zero-padded number is read by its value, but `_ai0<n>` never holds `_ai<n>`,
      so the whole id is kept before the new version: `x_ai07` becomes `x_ai07_v8`. */
  lemma IncreaseAiZeroPadded(x: string, n: nat)
    requires n > 0
    requires !Contains(x, "_ai")
    ensures var s := x + "_ai" + ("0" + NatToString(n));
      IncreaseAi(s) == s + "_v" + NatToString(n + 1)
  {
    var digits := NatToString(n);
    var d := "0" + digits;
    var y := "_ai" + d;
    var s := x + y;
    assert x + "_ai" + d == s;
    FindAiZeroPadded(x, n);
    var t := "_ai" + digits;
    NoOccurrenceBefore(x, y, t);
    PaddedMisses(x, digits);
    ContainsIff(s, t);
    assert IncreaseAi(s) == BeforeFirst(s, t) + "_v" + NatToString(n + 1);
  }

  /** The repository id built from a renamed id: the user's namespace, the last path
      segment of the renamed id, and `_debug` in debug mode. */
  function RepoIdFor(userName: string, renamed: string, debug: bool): (r: string)
    ensures |r| > |userName| && r[..|userName| + 1] == userName + "/"
    ensures '/' !in r[|userName| + 1..]
    ensures EndsWith(r, AfterLast(renamed, '/') + (if debug then "_debug" else ""))
  {
    var segment := AfterLast(renamed, '/');
    var r := userName + "/" + (segment + (if debug then "_debug" else ""));
    assert r[..|userName| + 1] == userName + "/";
    assert r[|userName| + 1..] == segment + (if debug then "_debug" else "");
    r
  }

  /** `to_repo_id` as `setup` builds it; debug mode holds when `AMLT_OUTPUT_DIR` is not
      in the environment. */
  function ToRepoId(userName: string, hfRepoId: string, envKeys: set<string>): string
  {
    RepoIdFor(userName, IncreaseAi(hfRepoId), "AMLT_OUTPUT_DIR" !in envKeys)
  }

  /** A renamed id's suffix without "/" survives into the pushed id. */
  lemma RepoIdForAppend(userName: string, a: string, b: string)
    requires '/' !in b
    ensures RepoIdFor(userName, a + b, false) == (userName + "/" + AfterLast(a, '/')) + b
  {
    AfterLastAppend(a, b, '/');
  }

  /** Outside debug mode the pushed id of an unnumbered id carries iteration 1. */
  lemma ToRepoIdNumbers(userName: string, hfRepoId: string, envKeys: set<string>)
    requires "AMLT_OUTPUT_DIR" in envKeys
    requires FindAi(hfRepoId) == 0
    ensures FindAi(ToRepoId(userName, hfRepoId, envKeys)) == 1
  {
    assert NatToString(1) == "1";
    assert IncreaseAi(hfRepoId) == hfRepoId + "_ai1";
    RepoIdForAppend(userName, hfRepoId, "_ai1");
    var prefix := userName + "/" + AfterLast(hfRepoId, '/');
    assert prefix + "_ai1" == prefix + "_ai" + NatToString(1);
    FindAiOfSuffix(prefix, 1);
  }

  /** A version suffix stays within the last path segment. */
  lemma VersionSuffixHasNoSlash(n: nat)
    ensures '/' !in "_v" + NatToString(n)
  {
    var d := NatToString(n);
    assert '/' !in d;
    assert '/' !in "_v";
  }

  /** Outside debug mode the pushed id of a numbered id carries no iteration number. */
  lemma ToRepoIdVersions(userName: string, hfRepoId: string, envKeys: set<string>)
    requires "AMLT_OUTPUT_DIR" in envKeys
    requires FindAi(hfRepoId) > 0
    ensures FindAi(ToRepoId(userName, hfRepoId, envKeys)) == 0
  {
    var ai := FindAi(hfRepoId);
    var name := BeforeFirst(hfRepoId, "_ai" + NatToString(ai));
    var d := NatToString(ai + 1);
    var suffix := "_v" + d;
    assert IncreaseAi(hfRepoId) == name + suffix;
    VersionSuffixHasNoSlash(ai + 1);
    RepoIdForAppend(userName, name, suffix);
    var prefix := userName + "/" + AfterLast(name, '/');
    assert prefix + suffix == prefix + "_v" + d;
    FindAiOfVersion(prefix, ai + 1);
  }
}
