/**
  String helpers shared by the modules: JavaScript's string ordering,
  `Array.prototype.join` / `String.prototype.split` on one separator
  character, `String.prototype.repeat`, and searches for one character.
*/
module Strings {
  import opened Wrappers

  /** JavaScript's `a < b` on two strings: character by character, and a
      proper prefix is smaller than the longer string. */
  function LexLess(a: string, b: string): (r: bool)
    // a proper prefix sorts first ("2023-10" < "2023-10-25")
    ensures |a| < |b| && a == b[..|a|] ==> r
  {
    if |a| == 0 then |b| > 0
    else if |b| == 0 then false
    else if a[0] != b[0] then a[0] < b[0]
    else
      assert |a| < |b| && a == b[..|a|] ==> a[1..] == b[1..][..|a| - 1];
      LexLess(a[1..], b[1..])
  }

  lemma {:induction false} LexLessIrreflexive(a: string)
    ensures !LexLess(a, a)
  {
    if |a| > 0 {
      LexLessIrreflexive(a[1..]);
    }
  }

  /** The ordering is strict and total: exactly one of `a < b`, `a == b`, `b < a`. */
  lemma {:induction false} LexLessTrichotomy(a: string, b: string)
    ensures LexLess(a, b) || a == b || LexLess(b, a)
    ensures !(LexLess(a, b) && LexLess(b, a))
  {
    if |a| > 0 && |b| > 0 && a[0] == b[0] {
      LexLessTrichotomy(a[1..], b[1..]);
      if a[1..] == b[1..] {
        assert a == [a[0]] + a[1..] && b == [b[0]] + b[1..];
      }
    }
  }

  /** The first character where the strings differ decides the order. */
  lemma {:induction false} LexLessFirstDifference(a: string, b: string, k: nat)
    requires k < |a| && k < |b| && a[..k] == b[..k] && a[k] != b[k]
    ensures LexLess(a, b) <==> a[k] < b[k]
  {
    if k > 0 {
      assert a[0] == a[..k][0] == b[..k][0] == b[0];
      assert a[1..][..k - 1] == a[..k][1..] == b[..k][1..] == b[1..][..k - 1];
      LexLessFirstDifference(a[1..], b[1..], k - 1);
    }
  }

  /** The ordering is transitive. */
  lemma {:induction false} LexLessTransitive(a: string, b: string, c: string)
    requires LexLess(a, b) && LexLess(b, c)
    ensures LexLess(a, c)
  {
    if |a| > 0 && a[0] == b[0] && b[0] == c[0] {
      LexLessTransitive(a[1..], b[1..], c[1..]);
    }
  }

  /** `"c".repeat(n)` */
  function Repeat(c: char, n: nat): (r: string)
    ensures |r| == n
    ensures forall i :: 0 <= i < n ==> r[i] == c
  {
    if n == 0 then "" else [c] + Repeat(c, n - 1)
  }

  /** `parts.join(sep)` */
  function Join(parts: seq<string>, sep: char): string
  {
    if |parts| == 0 then ""
    else if |parts| == 1 then parts[0]
    else parts[0] + [sep] + Join(parts[1..], sep)
  }

  /** The total length of the parts. */
  function Lengths(parts: seq<string>): nat
  {
    if |parts| == 0 then 0 else |parts[0]| + Lengths(parts[1..])
  }

  /** Where part `i` starts in the joined text: the parts before it and one
      separator after each of them. */
  function Offset(parts: seq<string>, i: nat): nat
    requires i <= |parts|
  {
    Lengths(parts[..i]) + i
  }

  lemma OffsetStep(parts: seq<string>, i: nat)
    requires 0 < i <= |parts|
    ensures Offset(parts, i) == |parts[0]| + 1 + Offset(parts[1..], i - 1)
  {
    assert parts[..i][1..] == parts[1..][..i - 1];
  }

  lemma {:induction false} JoinLength(parts: seq<string>, sep: char)
    requires |parts| > 0
    ensures |Join(parts, sep)| == Lengths(parts) + |parts| - 1
  {
    if |parts| > 1 {
      JoinLength(parts[1..], sep);
    }
  }

  /** Joining lays out every part in order, each at its offset, with
      exactly one separator between consecutive parts, and nothing more. */
  lemma {:induction false} JoinLayout(parts: seq<string>, sep: char)
    requires |parts| > 0
    ensures |Join(parts, sep)| == Lengths(parts) + |parts| - 1
    ensures forall i :: 0 <= i < |parts| ==>
      Offset(parts, i) + |parts[i]| <= |Join(parts, sep)|
      && Join(parts, sep)[Offset(parts, i)..Offset(parts, i) + |parts[i]|] == parts[i]
    ensures forall i :: 0 <= i < |parts| - 1 ==>
      Offset(parts, i) + |parts[i]| < |Join(parts, sep)|
      && Join(parts, sep)[Offset(parts, i) + |parts[i]|] == sep
  {
    JoinLength(parts, sep);
    forall i | 0 <= i < |parts|
      ensures Offset(parts, i) + |parts[i]| <= |Join(parts, sep)|
      ensures Join(parts, sep)[Offset(parts, i)..Offset(parts, i) + |parts[i]|] == parts[i]
      ensures i < |parts| - 1 ==>
        Offset(parts, i) + |parts[i]| < |Join(parts, sep)|
        && Join(parts, sep)[Offset(parts, i) + |parts[i]|] == sep
    {
      JoinPart(parts, sep, i);
    }
  }

  /** Part `i` of a join, and the separator after it. */
  lemma {:induction false} JoinPart(parts: seq<string>, sep: char, i: nat)
    requires i < |parts|
    ensures Offset(parts, i) + |parts[i]| <= |Join(parts, sep)|
    ensures Join(parts, sep)[Offset(parts, i)..Offset(parts, i) + |parts[i]|] == parts[i]
    ensures i < |parts| - 1 ==>
      Offset(parts, i) + |parts[i]| < |Join(parts, sep)|
      && Join(parts, sep)[Offset(parts, i) + |parts[i]|] == sep
  {
    var j := Join(parts, sep);
    if |parts| > 1 {
      var rest := parts[1..];
      assert j == parts[0] + [sep] + Join(rest, sep);
      if i == 0 {
        assert parts[..0] == [];
      } else {
        OffsetStep(parts, i);
        JoinPart(rest, sep, i - 1);
        assert parts[i] == rest[i - 1];
      }
    } else {
      assert parts[..0] == [];
    }
  }

  /** `s.split(sep)`: never empty; the empty string splits into `[""]`. */
  function Split(s: string, sep: char): (r: seq<string>)
    ensures |r| >= 1
    ensures forall i :: 0 <= i < |r| ==> sep !in r[i]
  {
    if |s| == 0 then [""]
    else
      var rest := Split(s[1..], sep);
      if s[0] == sep then [""] + rest
      else [[s[0]] + rest[0]] + rest[1..]
  }

  lemma {:induction false} SplitWithoutSeparator(p: string, sep: char)
    requires sep !in p
    ensures Split(p, sep) == [p]
  {
    if |p| > 0 {
      SplitWithoutSeparator(p[1..], sep);
      assert [p[0]] + p[1..] == p;
    }
  }

  lemma {:induction false} SplitAtFirstSeparator(p: string, s: string, sep: char)
    requires sep !in p
    ensures Split(p + [sep] + s, sep) == [p] + Split(s, sep)
  {
    var whole := p + [sep] + s;
    if |p| == 0 {
      assert whole[1..] == s;
    } else {
      assert whole[1..] == p[1..] + [sep] + s;
      SplitAtFirstSeparator(p[1..], s, sep);
      assert [p[0]] + p[1..] == p;
    }
  }

  /** Splitting a joined list gives the list back, as long as no part holds
      the separator. */
  lemma {:induction false} SplitJoin(parts: seq<string>, sep: char)
    requires |parts| >= 1
    requires forall i :: 0 <= i < |parts| ==> sep !in parts[i]
    ensures Split(Join(parts, sep), sep) == parts
  {
    if |parts| == 1 {
      SplitWithoutSeparator(parts[0], sep);
    } else {
      SplitJoin(parts[1..], sep);
      SplitAtFirstSeparator(parts[0], Join(parts[1..], sep), sep);
      assert [parts[0]] + parts[1..] == parts;
    }
  }

  /** A string splits into a single part exactly when it holds no separator. */
  lemma {:induction false} SplitIsSingle(s: string, sep: char)
    ensures |Split(s, sep)| == 1 <==> sep !in s
  {
    if |s| > 0 {
      SplitIsSingle(s[1..], sep);
      assert s == [s[0]] + s[1..];
    }
  }

  /** `s.indexOf(c)`, absent instead of -1. */
  function FirstIndexOf(s: string, c: char): (r: Option<nat>)
    ensures r.None? <==> c !in s
    ensures r.Some? ==> r.value < |s| && s[r.value] == c && c !in s[..r.value]
  {
    if |s| == 0 then None
    else if s[0] == c then Some(0)
    else
      var r := FirstIndexOf(s[1..], c);
      assert s == [s[0]] + s[1..];
      if r.Some? then
        assert s[..r.value + 1] == [s[0]] + s[1..][..r.value];
        Some(r.value + 1)
      else None
  }

  /** `s.lastIndexOf(c)`, absent instead of -1. */
  function LastIndexOf(s: string, c: char): (r: Option<nat>)
    ensures r.None? <==> c !in s
    ensures r.Some? ==> r.value < |s| && s[r.value] == c && c !in s[r.value + 1..]
  {
    if |s| == 0 then None
    else if s[|s| - 1] == c then Some(|s| - 1)
    else
      var r := LastIndexOf(s[..|s| - 1], c);
      assert s == s[..|s| - 1] + [s[|s| - 1]];
      if r.Some? then
        assert s[r.value + 1..] == s[..|s| - 1][r.value + 1..] + [s[|s| - 1]];
        r
      else r
  }
}
