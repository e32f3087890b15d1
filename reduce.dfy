/** Reductions over sequences: over a non-empty row of scores, with torch's tie
    rule (`argmin` returns the first minimal position), the first position where
    a test holds, and the first element a parser rejects. */
module Reduce {
  import opened Wrappers

  /** The first position whose element passes `p`, or `|s|` when none does. */
  function FirstWhere<T>(s: seq<T>, p: T -> bool): (k: nat)
    ensures k <= |s|
    ensures forall i :: 0 <= i < k ==> !p(s[i])
    ensures k < |s| ==> p(s[k])
  {
    if |s| == 0 || p(s[0]) then 0
    else
      var k := FirstWhere(s[1..], p);
      assert forall i :: 1 <= i < k + 1 ==> s[i] == s[1..][i - 1];
      k + 1
  }

  /** The position of the first element `parse` rejects, or `|s|` when it accepts all. */
  function FirstFailure<S, T, E>(s: seq<S>, parse: S -> Result<T, E>): (k: nat)
    ensures k <= |s|
    ensures forall i :: 0 <= i < k ==> parse(s[i]).Success?
    ensures k < |s| ==> parse(s[k]).Failure?
  {
    FirstWhere(s, x => parse(x).Failure?)
  }

  /** A rejected element after a run of accepted ones is the first rejected one. */
  lemma FirstFailureAt<S, T, E>(s: seq<S>, parse: S -> Result<T, E>, k: nat)
    requires k < |s|
    requires forall i :: 0 <= i < k ==> parse(s[i]).Success?
    requires parse(s[k]).Failure?
    ensures FirstFailure(s, parse) == k
  {
  }

  /** `out` holds the parses of the first `|out|` elements of `s`. */
  ghost predicate ParsedPrefix<S, T, E>(s: seq<S>, parse: S -> Result<T, E>, out: seq<T>) {
    |out| <= |s| && forall j :: 0 <= j < |out| ==> parse(s[j]) == Success(out[j])
  }

  /** A successful parse of the next element extends the parsed prefix. */
  lemma ExtendParsed<S, T, E>(s: seq<S>, parse: S -> Result<T, E>, out: seq<T>, a: T)
    requires ParsedPrefix(s, parse, out) && |out| < |s|
    requires parse(s[|out|]) == Success(a)
    ensures ParsedPrefix(s, parse, out + [a])
  {
  }

  /** Position of the smallest element; on ties the earliest such position. */
  function ArgMin(s: seq<real>): (k: nat)
    requires |s| > 0
    ensures k < |s|
    ensures forall j :: 0 <= j < |s| ==> s[k] <= s[j]
    ensures forall j :: 0 <= j < k ==> s[j] > s[k]
  {
    if |s| == 1 then 0
    else
      var k := ArgMin(s[..|s| - 1]);
      if s[|s| - 1] < s[k] then |s| - 1 else k
  }

  /** The smallest element. */
  function Min(s: seq<real>): (m: real)
    requires |s| > 0
    ensures m in s
    ensures forall j :: 0 <= j < |s| ==> m <= s[j]
  {
    s[ArgMin(s)]
  }

  /** The largest element. */
  function Max(s: seq<real>): (m: real)
    requires |s| > 0
    ensures m in s
    ensures forall j :: 0 <= j < |s| ==> s[j] <= m
  {
    if |s| == 1 then s[0]
    else
      var m := Max(s[..|s| - 1]);
      assert m in s[..|s| - 1];
      if s[|s| - 1] > m then s[|s| - 1] else m
  }
}
