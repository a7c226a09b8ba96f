/** The few Python string operations the scripts rely on: `in`, `split`,
    `join`, `replace` and slicing, over Dafny's `string` (a `seq<char>`). */
module Strings {
  import opened Wrappers

  /** `sub` occurs in `s` starting at index `i`. */
  ghost predicate OccursAt(s: string, sub: string, i: nat) {
    i + |sub| <= |s| && s[i..i + |sub|] == sub
  }

  /** Python's `s.find(sub)`, as an Option: the first index at which `sub` occurs. */
  function IndexOf(s: string, sub: string): (r: Option<nat>)
    ensures r.Some? ==> OccursAt(s, sub, r.value)
    ensures r.Some? ==> forall j: nat :: j < r.value ==> !OccursAt(s, sub, j)
    ensures r.None? ==> forall j: nat :: !OccursAt(s, sub, j)
    decreases |s|
  {
    if sub <= s then
      assert s[0..|sub|] == sub;
      Some(0)
    else if s == [] then
      None
    else
      OccursTail(s, sub);
      match IndexOf(s[1..], sub)
      case None => None
      case Some(k) => Some(k + 1)
  }

  /** Past the first character, `sub` occurs in `s` where it occurs in
      `s[1..]`, one index on. */
  lemma OccursTail(s: string, sub: string)
    requires s != [] && !(sub <= s)
    ensures !OccursAt(s, sub, 0)
    ensures forall j: nat :: j > 0 ==> (OccursAt(s, sub, j) <==> OccursAt(s[1..], sub, j - 1))
  {
    forall j: nat | j > 0
      ensures OccursAt(s, sub, j) <==> OccursAt(s[1..], sub, j - 1)
    {
      var k := j - 1;
      if k + 1 + |sub| <= |s| {
        assert s[k + 1..k + 1 + |sub|] == s[1..][k..k + |sub|];
      }
    }
  }

  /** Python's `sub in s`. */
  predicate Contains(s: string, sub: string) {
    IndexOf(s, sub).Some?
  }

  lemma ContainsIff(s: string, sub: string)
    ensures Contains(s, sub) <==> exists j: nat :: OccursAt(s, sub, j)
  {
  }

  /** Python's `s.split(sep)` for a non-empty separator: the separator is
      found left to right, and occurrences do not overlap. */
  function Split(s: string, sep: string): (parts: seq<string>)
    requires |sep| > 0
    ensures |parts| >= 1
    decreases |s|
  {
    match IndexOf(s, sep)
    case None => [s]
    case Some(i) => [s[..i]] + Split(s[i + |sep|..], sep)
  }

  /** A split at the first occurrence `i`: the text before it, then the
      parts of what follows the separator. */
  lemma SplitFound(s: string, sep: string, i: nat)
    requires |sep| > 0 && IndexOf(s, sep) == Some(i)
    ensures i + |sep| <= |s| && s[i..i + |sep|] == sep
    ensures Split(s, sep) == [s[..i]] + Split(s[i + |sep|..], sep)
  {
    FoundAt(s, sep, i);
  }

  lemma FoundAt(s: string, sep: string, i: nat)
    requires IndexOf(s, sep) == Some(i)
    ensures i + |sep| <= |s| && s[i..i + |sep|] == sep
  {
  }

  /** Python's `sep.join(parts)`. */
  function Join(parts: seq<string>, sep: string): string
  {
    if |parts| == 0 then ""
    else if |parts| == 1 then parts[0]
    else parts[0] + sep + Join(parts[1..], sep)
  }

  /** Python's `s.replace(pattern, replacement)` for a non-empty `pattern`. */
  function Replace(s: string, pattern: string, replacement: string): string
    requires |pattern| > 0
  {
    Join(Split(s, pattern), replacement)
  }

  /** Python's `parts[-1]`. */
  function Last(parts: seq<string>): string
    requires |parts| > 0
  {
    parts[|parts| - 1]
  }

  /** Python's `s[:n]`. */
  function Take(s: string, n: nat): (r: string)
    ensures |r| == if n <= |s| then n else |s|
    ensures r <= s
  {
    if n <= |s| then s[..n] else s
  }

  lemma JoinOne(part: string, sep: string)
    ensures Join([part], sep) == part
  {
  }

  lemma JoinCons(head: string, tail: seq<string>, sep: string)
    requires |tail| >= 1
    ensures Join([head] + tail, sep) == head + sep + Join(tail, sep)
  {
    var p := [head] + tail;
    assert p[0] == head;
    assert p[1..] == tail;
  }

  /** Splitting and joining again with the same separator gives back the input. */
  lemma {:induction false} JoinSplit(s: string, sep: string)
    requires |sep| > 0
    ensures Join(Split(s, sep), sep) == s
    decreases |s|
  {
    match IndexOf(s, sep)
    case None =>
    case Some(i) =>
      var rest := s[i + |sep|..];
      SplitFound(s, sep, i);
      JoinCons(s[..i], Split(rest, sep), sep);
      JoinSplit(rest, sep);
      Reassemble(s, sep, i);
  }

  /** The text before an occurrence, the separator and the text after it
      make up the whole. */
  lemma Reassemble(s: string, sep: string, i: nat)
    requires i + |sep| <= |s| && s[i..i + |sep|] == sep
    ensures s[..i] + sep + s[i + |sep|..] == s
  {
    assert s == s[..i] + s[i..i + |sep|] + s[i + |sep|..];
  }

  lemma SliceOfPrefix(s: string, i: nat, a: nat, b: nat)
    requires a <= b <= i <= |s|
    ensures s[..i][a..b] == s[a..b]
  {
  }

  /** No part of a split contains the separator. */
  lemma {:induction false} SplitPartsFree(s: string, sep: string)
    requires |sep| > 0
    ensures forall k :: 0 <= k < |Split(s, sep)| ==> !Contains(Split(s, sep)[k], sep)
    decreases |s|
  {
    match IndexOf(s, sep)
    case None =>
    case Some(i) =>
      var rest := s[i + |sep|..];
      SplitPartsFree(rest, sep);
      HeadFree(s, sep, i);
      SplitFound(s, sep, i);
      PartsFree(s[..i], Split(rest, sep), sep);
  }

  /** The text before the first occurrence does not contain the separator. */
  lemma HeadFree(s: string, sep: string, i: nat)
    requires |sep| > 0 && IndexOf(s, sep) == Some(i)
    ensures !Contains(s[..i], sep)
  {
    FoundAt(s, sep, i);
    var head := s[..i];
    forall j: nat ensures !OccursAt(head, sep, j) {
      if j + |sep| <= |head| {
        SliceOfPrefix(s, i, j, j + |sep|);
        assert j < i;
        assert !OccursAt(s, sep, j);
      }
    }
    ContainsIff(head, sep);
  }

  lemma PartsFree(head: string, tail: seq<string>, sep: string)
    requires !Contains(head, sep) && forall k :: 0 <= k < |tail| ==> !Contains(tail[k], sep)
    ensures forall k :: 0 <= k < |[head] + tail| ==> !Contains(([head] + tail)[k], sep)
  {
    var parts := [head] + tail;
    forall k | 0 <= k < |parts| ensures !Contains(parts[k], sep) {
      if k > 0 { assert parts[k] == tail[k - 1]; }
    }
  }

  /** A string without the separator splits into itself alone, and conversely. */
  lemma SplitSingle(s: string, sep: string)
    requires |sep| > 0
    ensures |Split(s, sep)| == 1 <==> !Contains(s, sep)
    ensures !Contains(s, sep) ==> Split(s, sep) == [s]
  {
    match IndexOf(s, sep)
    case None =>
    case Some(i) =>
  }

  /** The last part of a split is a suffix of the input. */
  lemma {:induction false} LastPartIsSuffix(s: string, sep: string)
    requires |sep| > 0
    ensures var l := Last(Split(s, sep)); |l| <= |s| && s[|s| - |l|..] == l
    decreases |s|
  {
    match IndexOf(s, sep)
    case None =>
    case Some(i) =>
      var rest := s[i + |sep|..];
      LastPartIsSuffix(rest, sep);
      LastOfSplitAt(s, sep, i);
      SuffixOfDrop(s, i + |sep|, Last(Split(rest, sep)));
  }

  /** The last part of a split at a first occurrence is the last part of
      what follows it. */
  lemma LastOfSplitAt(s: string, sep: string, i: nat)
    requires |sep| > 0 && IndexOf(s, sep) == Some(i)
    ensures Last(Split(s, sep)) == Last(Split(s[i + |sep|..], sep))
  {
    SplitFound(s, sep, i);
    LastCons(s[..i], Split(s[i + |sep|..], sep));
  }

  lemma LastCons(head: string, tail: seq<string>)
    requires |tail| > 0
    ensures Last([head] + tail) == Last(tail)
  {
    assert ([head] + tail)[|tail|] == tail[|tail| - 1];
  }

  lemma SuffixOfDrop(s: string, m: nat, l: string)
    requires m <= |s| && |l| <= |s| - m && s[m..][|s| - m - |l|..] == l
    ensures s[|s| - |l|..] == l
  {
    assert s[m..][|s| - m - |l|..] == s[|s| - |l|..];
  }

  /** Dafny's reference reading of removing a set of characters. */
  function Without(s: string, cs: set<char>): (r: string)
    ensures forall k :: 0 <= k < |r| ==> r[k] !in cs
    ensures |r| <= |s|
  {
    if s == [] then []
    else if s[0] in cs then Without(s[1..], cs)
    else [s[0]] + Without(s[1..], cs)
  }

  lemma WithoutAppend(a: string, b: string, cs: set<char>)
    ensures Without(a + b, cs) == Without(a, cs) + Without(b, cs)
  {
    if a == [] {
      assert a + b == b;
    } else {
      assert (a + b)[1..] == a[1..] + b;
    }
  }

  lemma {:induction false} WithoutTwice(s: string, a: set<char>, b: set<char>)
    ensures Without(Without(s, a), b) == Without(s, a + b)
  {
    if s != [] {
      WithoutTwice(s[1..], a, b);
      if s[0] !in a {
        assert Without(s, a) == [s[0]] + Without(s[1..], a);
        assert Without([s[0]] + Without(s[1..], a), b) == Without([s[0]], b) + Without(Without(s[1..], a), b) by {
          WithoutAppend([s[0]], Without(s[1..], a), b);
        }
        assert Without([s[0]], b) == if s[0] in b then [] else [s[0]];
      }
    }
  }

  /** `s.replace(c, "")` for one character removes exactly that character. */
  lemma {:induction false} ReplaceCharByNothing(s: string, c: char)
    ensures Replace(s, [c], "") == Without(s, {c})
    decreases |s|
  {
    match IndexOf(s, [c])
    case None =>
      forall k | 0 <= k < |s| ensures s[k] != c {
        assert !OccursAt(s, [c], k);
        assert s[k..k + 1] == [s[k]];
      }
      WithoutNone(s, {c});
    case Some(i) =>
      var rest := s[i + 1..];
      ReplaceCharByNothing(rest, c);
      ReplaceAtFirst(s, c, i);
      forall k | 0 <= k < i ensures s[k] != c {
        assert !OccursAt(s, [c], k);
        assert s[k..k + 1] == [s[k]];
      }
      assert s[i..i + 1] == [c];
      WithoutAtFirst(s, c, i);
  }

  /** Replacing by nothing keeps what comes before the first occurrence. */
  lemma ReplaceAtFirst(s: string, c: char, i: nat)
    requires IndexOf(s, [c]) == Some(i)
    ensures i < |s| && Replace(s, [c], "") == s[..i] + Replace(s[i + 1..], [c], "")
  {
    var head, rest := s[..i], s[i + 1..];
    var parts := Split(rest, [c]);
    SplitFound(s, [c], i);
    assert Split(s, [c]) == [head] + parts;
    JoinCons(head, parts, "");
    assert Join([head] + parts, "") == head + "" + Join(parts, "");
    assert head + "" == head;
  }

  /** Removing the character keeps what comes before its first occurrence. */
  lemma WithoutAtFirst(s: string, c: char, i: nat)
    requires i < |s| && s[i] == c && forall k :: 0 <= k < i ==> s[k] != c
    ensures Without(s, {c}) == s[..i] + Without(s[i + 1..], {c})
  {
    var head, rest := s[..i], s[i + 1..];
    var tail := [c] + rest;
    assert s == head + tail;
    WithoutAppend(head, tail, {c});
    WithoutNone(head, {c});
    assert tail[1..] == rest;
  }

  lemma {:induction false} WithoutNone(s: string, cs: set<char>)
    requires forall k :: 0 <= k < |s| ==> s[k] !in cs
    ensures Without(s, cs) == s
  {
    if s != [] {
      WithoutNone(s[1..], cs);
    }
  }

  /** Splitting on a one-character separator that the head does not contain
      peels the head off as the first part. */
  lemma SplitCharFree(a: string, c: char, b: string)
    requires c !in a
    ensures Split(a + [c] + b, [c]) == [a] + Split(b, [c])
  {
    var s := a + [c] + b;
    assert s[|a|..|a| + 1] == [c];
    assert OccursAt(s, [c], |a|);
    forall j: nat | j < |a| ensures !OccursAt(s, [c], j) {
      assert s[j..j + 1][0] == a[j];
    }
    var r := IndexOf(s, [c]);
    assert r.Some?;
    var i := r.value;
    assert s[i..i + 1] == [c];
    assert i == |a|;
    assert s[..i] == a;
    assert s[i + 1..] == b;
  }

  /** Splitting on a one-character separator absent from the string gives the string. */
  lemma SplitCharAbsent(a: string, c: char)
    requires c !in a
    ensures Split(a, [c]) == [a]
  {
    forall j: nat ensures !OccursAt(a, [c], j) {
      if j < |a| {
        assert a[j..j + 1][0] == a[j];
      }
    }
  }

  /** Splitting a join of separator-free parts on a one-character separator
      gives back the parts. */
  lemma {:induction false} SplitJoinChar(parts: seq<string>, c: char)
    requires |parts| >= 1
    requires forall k :: 0 <= k < |parts| ==> c !in parts[k]
    ensures Split(Join(parts, [c]), [c]) == parts
    decreases |parts|
  {
    if |parts| == 1 {
      SplitCharAbsent(parts[0], c);
    } else {
      SplitJoinChar(parts[1..], c);
      SplitCharFree(parts[0], c, Join(parts[1..], [c]));
      assert parts == [parts[0]] + parts[1..];
    }
  }

  lemma JoinSix(f0: string, f1: string, f2: string, f3: string, f4: string, f5: string, sep: string)
    ensures Join([f0, f1, f2, f3, f4, f5], sep) == f0 + sep + (f1 + sep + (f2 + sep + (f3 + sep + (f4 + sep + f5))))
  {
    JoinOne(f5, sep);
    JoinCons(f4, [f5], sep);
    assert [f4] + [f5] == [f4, f5];
    JoinCons(f3, [f4, f5], sep);
    assert [f3] + [f4, f5] == [f3, f4, f5];
    JoinCons(f2, [f3, f4, f5], sep);
    assert [f2] + [f3, f4, f5] == [f2, f3, f4, f5];
    JoinCons(f1, [f2, f3, f4, f5], sep);
    assert [f1] + [f2, f3, f4, f5] == [f1, f2, f3, f4, f5];
    JoinCons(f0, [f1, f2, f3, f4, f5], sep);
    assert [f0] + [f1, f2, f3, f4, f5] == [f0, f1, f2, f3, f4, f5];
  }

  /** When the part after the last separator has no separator, it is the last part. */
  lemma {:induction false} LastOfSplitAfter(a: string, c: char, b: string)
    requires c !in b
    ensures Last(Split(a + [c] + b, [c])) == b
    decreases |a|
  {
    var s := a + [c] + b;
    assert OccursAt(s, [c], |a|) by { assert s[|a|..|a| + 1] == [c]; }
    var r := IndexOf(s, [c]);
    assert r.Some?;
    var i := r.value;
    assert i <= |a|;
    var rest := s[i + 1..];
    var parts := Split(rest, [c]);
    assert Split(s, [c]) == [s[..i]] + parts;
    assert Last([s[..i]] + parts) == Last(parts);
    if i == |a| {
      assert rest == b;
      SplitCharAbsent(b, c);
    } else {
      assert rest == a[i + 1..] + [c] + b;
      LastOfSplitAfter(a[i + 1..], c, b);
    }
  }

  /** When the separator occurs, the character just before the last part is
      the separator: the last part is everything after its last occurrence. */
  lemma {:induction false} LastPartAfterSeparator(s: string, c: char)
    requires c in s
    ensures var l := Last(Split(s, [c])); |l| < |s| && s[|s| - |l| - 1] == c && s[|s| - |l|..] == l
  {
    var k :| 0 <= k < |s| && s[k] == c;
    assert OccursAt(s, [c], k) by { assert s[k..k + 1] == [c]; }
    ContainsIff(s, [c]);
    SplitSingle(s, [c]);
    var parts := Split(s, [c]);
    JoinSplit(s, [c]);
    JoinSnoc(parts, [c]);
    AroundLast(Join(parts[..|parts| - 1], [c]), c, Last(parts));
  }

  lemma AroundLast(a: string, c: char, l: string)
    ensures var t := a + [c] + l; |l| < |t| && t[|t| - |l| - 1] == c && t[|t| - |l|..] == l
  {
    var t := a + [c] + l;
    assert t[|a| + 1..] == l;
  }

  /** Joining peels off the last part as well as the first. */
  lemma {:induction false} JoinSnoc(parts: seq<string>, sep: string)
    requires |parts| >= 2
    ensures Join(parts, sep) == Join(parts[..|parts| - 1], sep) + sep + Last(parts)
    decreases |parts|
  {
    if |parts| > 2 {
      var tail := parts[1..];
      JoinSnoc(tail, sep);
      assert tail[..|tail| - 1] == parts[..|parts| - 1][1..];
      assert Last(tail) == Last(parts);
    }
  }
  /** `c in s` for a one-character string is membership. */
  lemma ContainsChar(s: string, c: char)
    ensures Contains(s, [c]) <==> c in s
  {
    ContainsIff(s, [c]);
    if c in s {
      var k :| 0 <= k < |s| && s[k] == c;
      assert OccursAt(s, [c], k) by { assert s[k..k + 1] == [c]; }
    }
    if Contains(s, [c]) {
      var j: nat :| OccursAt(s, [c], j);
      assert s[j..j + 1][0] == s[j];
    }
  }
}
