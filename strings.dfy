/** The handful of Python string operations the core relies on
    (`in`, `find`, `split`, `partition`, `replace`, `int`, `str`), as functions
    over `seq<char>` with the properties callers need. */
module Strings {
  import opened Wrappers

  /** `t` occurs in `s` starting at index `i`. */
  predicate OccursAt(s: string, t: string, i: int) {
    0 <= i && i + |t| <= |s| && s[i..i + |t|] == t
  }

  lemma OccursShift(s: string, t: string)
    requires |s| > 0
    ensures forall j :: 1 <= j ==> (OccursAt(s, t, j) <==> OccursAt(s[1..], t, j - 1))
  {
    forall j | 1 <= j
      ensures OccursAt(s, t, j) <==> OccursAt(s[1..], t, j - 1)
    {
      if j + |t| <= |s| {
        assert s[1..][j - 1..j - 1 + |t|] == s[j..j + |t|];
      }
    }
  }

  /** Index of the first occurrence of `t` in `s` (Python's `s.find(t)`, with None for -1). */
  function Find(s: string, t: string): (r: Option<nat>)
    ensures r.Some? ==> OccursAt(s, t, r.value)
    ensures r.Some? ==> forall j :: 0 <= j < r.value ==> !OccursAt(s, t, j)
    ensures r.None? ==> forall j :: !OccursAt(s, t, j)
    decreases |s|
  {
    if |t| <= |s| && s[..|t|] == t then Some(0)
    else if |s| == 0 then None
    else
      assert !OccursAt(s, t, 0) by {
        if |t| <= |s| { assert s[0..|t|] == s[..|t|]; }
      }
      OccursShift(s, t);
      var rest := Find(s[1..], t);
      if rest.Some? then Some(rest.value + 1) else None
  }

  /** Python's substring test `t in s`. */
  predicate Contains(s: string, t: string)
  {
    Find(s, t).Some?
  }

  lemma ContainsIff(s: string, t: string)
    ensures Contains(s, t) <==> exists i :: OccursAt(s, t, i)
  {
    if Contains(s, t) {
      assert OccursAt(s, t, Find(s, t).value);
    }
  }

  /** Python's `s.split(t)[0]` for a non-empty separator: the text before the first
      occurrence of `t`, or the whole of `s` when `t` does not occur. */
  function BeforeFirst(s: string, t: string): (r: string)
    ensures Contains(s, t) ==> OccursAt(s, t, |r|) && r == s[..|r|]
    ensures Contains(s, t) ==> forall j :: 0 <= j < |r| ==> !OccursAt(s, t, j)
    ensures !Contains(s, t) ==> r == s
  {
    match Find(s, t)
    case Some(i) => s[..i]
    case None => s
  }

  /** Index of the first `c` in `s`. */
  function FirstIndexOf(s: string, c: char): (i: nat)
    requires c in s
    ensures i < |s| && s[i] == c && c !in s[..i]
  {
    if s[0] == c then 0
    else
      var k := FirstIndexOf(s[1..], c);
      assert s[..k + 1] == [s[0]] + s[1..][..k];
      k + 1
  }

  /** Joins the parts with one separator between consecutive parts (`sep.join(parts)`). */
  function Join(parts: seq<string>, sep: char): string
  {
    if |parts| == 0 then ""
    else if |parts| == 1 then parts[0]
    else parts[0] + [sep] + Join(parts[1..], sep)
  }

  /** Python's `s.split(sep)` for a one-character separator: never empty, no part holds
      the separator, and joining the parts back gives `s`. */
  function Split(s: string, sep: char): (parts: seq<string>)
    ensures |parts| >= 1
    decreases |s|
  {
    if sep !in s then [s]
    else
      var i := FirstIndexOf(s, sep);
      [s[..i]] + Split(s[i + 1..], sep)
  }

  /** The parts of `Split` hold no separator and join back to `s`; there is more than
      one part exactly when `s` holds the separator, and the first part is the text
      before its first occurrence. */
  lemma {:induction false} SplitParts(s: string, sep: char)
    ensures var parts := Split(s, sep);
      && (forall i :: 0 <= i < |parts| ==> sep !in parts[i])
      && Join(parts, sep) == s
      && (|parts| == 1 <==> sep !in s)
      && (sep in s ==> parts[0] == s[..FirstIndexOf(s, sep)])
    decreases |s|
  {
    if sep in s {
      var i := FirstIndexOf(s, sep);
      var rest := Split(s[i + 1..], sep);
      SplitParts(s[i + 1..], sep);
      var parts := [s[..i]] + rest;
      assert parts[1..] == rest;
      assert s == s[..i] + [sep] + s[i + 1..];
    }
  }

  /** The last part of `Split`: Python's `s.split(sep)[-1]`. */
  function AfterLast(s: string, sep: char): (r: string)
    ensures sep !in r
    ensures |r| <= |s| && s[|s| - |r|..] == r
    ensures sep in s ==> |r| < |s| && s[|s| - |r| - 1] == sep
    ensures sep !in s ==> r == s
  {
    var parts := Split(s, sep);
    SplitParts(s, sep);
    JoinLast(parts, sep);
    var r := parts[|parts| - 1];
    assert sep !in r;
    assert |parts| == 1 ==> r == Join(parts, sep);
    r
  }

  lemma {:induction false} JoinLast(parts: seq<string>, sep: char)
    requires |parts| >= 1
    ensures var j := Join(parts, sep); var l := parts[|parts| - 1];
            |l| <= |j| && j[|j| - |l|..] == l && (|parts| > 1 ==> |l| < |j| && j[|j| - |l| - 1] == sep)
  {
    if |parts| > 1 {
      JoinLast(parts[1..], sep);
      var rest := Join(parts[1..], sep);
      var l := parts[|parts| - 1];
      assert parts[1..][|parts[1..]| - 1] == l;
      var j := parts[0] + [sep] + rest;
      assert j[|j| - |l|..] == rest[|rest| - |l|..];
      if |parts[1..]| == 1 {
        assert rest == l;
        assert j[|j| - |l| - 1] == sep;
      } else {
        assert j[|j| - |l| - 1] == rest[|rest| - |l| - 1];
      }
    }
  }

  /** Python's `str.partition(sep)`: the text before the first separator, whether one
      was found, and the text after it. */
  datatype Parts = Parts(before: string, found: bool, after: string)

  function Partition(s: string, sep: char): (p: Parts)
    ensures p.found <==> sep in s
    ensures p.found ==> s == p.before + [sep] + p.after && sep !in p.before
    ensures !p.found ==> p.before == s && p.after == ""
  {
    if sep in s then
      var i := FirstIndexOf(s, sep);
      assert s == s[..i] + [sep] + s[i + 1..];
      Parts(s[..i], true, s[i + 1..])
    else Parts(s, false, "")
  }

  /** `s.replace(c, "")`: every `c` removed, everything else kept in order. */
  function RemoveAll(s: string, c: char): (r: string)
    ensures c !in r
    ensures c !in s ==> r == s
    ensures |r| <= |s|
  {
    if |s| == 0 then ""
    else
      var rest := RemoveAll(s[1..], c);
      if s[0] == c then rest else [s[0]] + rest
  }

  /** Exactly the characters other than `c` survive `RemoveAll`. */
  lemma {:induction false} RemoveAllKeeps(s: string, c: char, x: char)
    ensures x in RemoveAll(s, c) <==> x in s && x != c
  {
    if |s| > 0 {
      RemoveAllKeeps(s[1..], c, x);
      assert x in s <==> x == s[0] || x in s[1..];
    }
  }

  /** The first `c` of `a + [c] + b` is the one after `a` when `a` holds none. */
  lemma FirstIndexAfter(a: string, c: char, b: string)
    requires c !in a
    ensures c in a + [c] + b && FirstIndexOf(a + [c] + b, c) == |a|
  {
    var s := a + [c] + b;
    assert s[|a|] == c;
    var i := FirstIndexOf(s, c);
    assert forall j :: 0 <= j < |a| ==> s[j] == a[j];
    assert forall j :: 0 <= j < i ==> s[..i][j] == s[j];
  }

  /** `Split` undoes `Join` on parts free of the separator. */
  lemma {:induction false} SplitJoin(parts: seq<string>, sep: char)
    requires |parts| >= 1
    requires forall i :: 0 <= i < |parts| ==> sep !in parts[i]
    ensures Split(Join(parts, sep), sep) == parts
  {
    if |parts| == 1 {
      assert Join(parts, sep) == parts[0];
    } else {
      var p := parts[0];
      var tail := parts[1..];
      var rest := Join(tail, sep);
      var s := p + [sep] + rest;
      assert Join(parts, sep) == s;
      FirstIndexAfter(p, sep, rest);
      assert s[..|p|] == p;
      assert s[|p| + 1..] == rest;
      assert Split(s, sep) == [p] + Split(rest, sep);
      assert forall i :: 0 <= i < |tail| ==> tail[i] == parts[i + 1];
      SplitJoin(tail, sep);
      assert parts == [p] + tail;
    }
  }

  /** `Partition` finds the separator placed after a separator-free prefix. */
  lemma PartitionAt(a: string, sep: char, b: string)
    requires sep !in a
    ensures Partition(a + [sep] + b, sep) == Parts(a, true, b)
  {
    var s := a + [sep] + b;
    FirstIndexAfter(a, sep, b);
    assert s[..|a|] == a;
    assert s[|a| + 1..] == b;
  }

  lemma {:induction false} RemoveAllAppend(a: string, b: string, c: char)
    ensures RemoveAll(a + b, c) == RemoveAll(a, c) + RemoveAll(b, c)
  {
    if |a| > 0 {
      assert (a + b)[1..] == a[1..] + b;
      RemoveAllAppend(a[1..], b, c);
    } else {
      assert a + b == b;
    }
  }

  /** Removing `c` from `a` followed by `c` gives back `a` when `a` holds none. */
  lemma RemoveTrailing(a: string, c: char)
    requires c !in a
    ensures RemoveAll(a + [c], c) == a
  {
    RemoveAllAppend(a, [c], c);
    assert RemoveAll([c], c) == RemoveAll([c][1..], c);
    assert [c][1..] == "";
  }

  predicate IsDigit(ch: char) {
    '0' <= ch <= '9'
  }

  predicate AllDigits(s: string) {
    forall i :: 0 <= i < |s| ==> IsDigit(s[i])
  }

  function DigitChar(d: nat): (ch: char)
    requires d < 10
    ensures IsDigit(ch)
  {
    (d + '0' as int) as char
  }

  /** Python's `int(s)` on a string of ASCII digits (leading zeros allowed). */
  function ParseNat(s: string): nat
    requires AllDigits(s)
  {
    if |s| == 0 then 0
    else ParseNat(s[..|s| - 1]) * 10 + (s[|s| - 1] as int - '0' as int)
  }

  /** A leading zero does not change the value read. */
  lemma {:induction false} ParseNatLeadingZero(d: string)
    requires AllDigits(d)
    ensures AllDigits("0" + d) && ParseNat("0" + d) == ParseNat(d)
  {
    var z := "0" + d;
    assert forall i :: 1 <= i < |z| ==> z[i] == d[i - 1];
    if |d| > 0 {
      assert z[..|z| - 1] == "0" + d[..|d| - 1];
      ParseNatLeadingZero(d[..|d| - 1]);
    }
  }

  /** Python's `str(n)` for a natural number: decimal digits, no leading zero. */
  function NatToString(n: nat): (r: string)
    ensures |r| >= 1 && AllDigits(r)
    ensures r[0] == '0' ==> n == 0
    ensures ParseNat(r) == n
  {
    if n < 10 then [DigitChar(n)]
    else
      var prefix := NatToString(n / 10);
      var r := prefix + [DigitChar(n % 10)];
      assert r[..|r| - 1] == prefix;
      r
  }

  predicate EndsWith(s: string, t: string) {
    |t| <= |s| && s[|s| - |t|..] == t
  }

  /** Length of the longest run of ASCII digits at the end of `s`. */
  function TrailingDigitCount(s: string): (k: nat)
    ensures k <= |s|
    ensures AllDigits(s[|s| - k..])
    ensures k < |s| ==> !IsDigit(s[|s| - k - 1])
  {
    if |s| == 0 || !IsDigit(s[|s| - 1]) then 0
    else
      var k := TrailingDigitCount(s[..|s| - 1]);
      assert s[..|s| - 1][|s| - 1 - k..] == s[|s| - 1 - k..|s| - 1];
      k + 1
  }

  /** Digits appended after a non-digit form the whole trailing digit run. */
  lemma {:induction false} TrailingDigitsAppend(a: string, d: string)
    requires AllDigits(d)
    requires |a| > 0 ==> !IsDigit(a[|a| - 1])
    ensures TrailingDigitCount(a + d) == |d|
  {
    if |d| == 0 {
      assert a + d == a;
    } else {
      var s := a + d;
      assert s[..|s| - 1] == a + d[..|d| - 1];
      assert s[|s| - 1] == d[|d| - 1];
      TrailingDigitsAppend(a, d[..|d| - 1]);
    }
  }

  /** Two candidates for the text after the last separator coincide. */
  lemma AfterLastUnique(s: string, sep: char, r1: string, r2: string)
    requires |r1| <= |s| && s[|s| - |r1|..] == r1 && sep !in r1
    requires |r2| <= |s| && s[|s| - |r2|..] == r2 && sep !in r2
    requires sep in s ==> |r1| < |s| && s[|s| - |r1| - 1] == sep
    requires sep in s ==> |r2| < |s| && s[|s| - |r2| - 1] == sep
    requires sep !in s ==> r1 == s && r2 == s
    ensures r1 == r2
  {
    if sep in s {
      assert forall j :: 0 <= j < |r1| ==> r1[j] == s[|s| - |r1| + j];
      assert forall j :: 0 <= j < |r2| ==> r2[j] == s[|s| - |r2| + j];
    }
  }

  /** Text without the separator appended to `a` stays in the last segment. */
  lemma AfterLastAppend(a: string, b: string, sep: char)
    requires sep !in b
    ensures AfterLast(a + b, sep) == AfterLast(a, sep) + b
  {
    var s := a + b;
    var r := AfterLast(a, sep) + b;
    var ra := AfterLast(a, sep);
    assert s[|s| - |r|..] == r by {
      assert a[|a| - |ra|..] == ra;
      assert forall j :: 0 <= j < |r| ==> s[|s| - |r| + j] == r[j];
    }
    assert sep in s <==> sep in a by {
      assert forall x :: x in s <==> x in a || x in b;
    }
    if sep in a {
      assert s[|s| - |r| - 1] == a[|a| - |ra| - 1];
    }
    AfterLastUnique(s, sep, AfterLast(s, sep), r);
  }
}
