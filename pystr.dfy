/**
 * The handful of Python `str` operations the playlist-id parser relies on,
 * written over `string` (= `seq<char>`):
 *   `sep in s`       is Contains(s, sep)
 *   `s.find(sep)`    is Find(s, sep)
 *   `s.split(sep)`   is Split(s, sep)   (non-empty separator, no maxsplit)
 *   `sep.join(ps)`   is Join(ps, sep)
 *   `ps[-1]`         is Last(ps)
 *   `str(n)`         is NatToString(n)  (n >= 0)
 */
module PyStr {
  import opened Wrappers

  /** `sep` occurs in `s` starting at index `i`. */
  predicate OccursAt(s: string, sep: string, i: nat) {
    i + |sep| <= |s| && s[i..i + |sep|] == sep
  }

  /** Python's substring test `sep in s`. */
  predicate Contains(s: string, sep: string) {
    exists i :: 0 <= i <= |s| && OccursAt(s, sep, i)
  }

  lemma OccursAtShift(s: string, sep: string, j: nat)
    requires |s| > 0
    ensures OccursAt(s[1..], sep, j) <==> OccursAt(s, sep, j + 1)
  {
    if j + 1 + |sep| <= |s| {
      assert s[1..][j..j + |sep|] == s[j + 1..j + 1 + |sep|];
    }
  }

  /** Occurrences inside `a + b` that start at or after `|a|` are the occurrences of `b`. */
  lemma OccursAtConcat(a: string, b: string, sep: string, j: nat)
    ensures OccursAt(a + b, sep, |a| + j) <==> OccursAt(b, sep, j)
  {
    if j + |sep| <= |b| {
      assert (a + b)[|a| + j..|a| + j + |sep|] == b[j..j + |sep|];
    }
  }

  /** Occurrences inside a suffix `s[n..]` are the occurrences of `s` from `n` on. */
  lemma OccursAtSuffix(s: string, sep: string, n: nat, j: nat)
    requires n <= |s|
    ensures OccursAt(s[n..], sep, j) <==> OccursAt(s, sep, n + j)
  {
    if n + j + |sep| <= |s| {
      assert s[n..][j..j + |sep|] == s[n + j..n + j + |sep|];
    }
  }

  /** Occurrences that end inside a prefix of `s` are occurrences of that prefix. */
  lemma OccursAtPrefix(s: string, sep: string, n: nat, j: nat)
    requires n <= |s| && j + |sep| <= n
    ensures OccursAt(s[..n], sep, j) <==> OccursAt(s, sep, j)
  {
    assert s[..n][j..j + |sep|] == s[j..j + |sep|];
  }

  /**
   * Python's `s.find(sep)`: the index of the leftmost occurrence of `sep`,
   * or None where Python returns -1.
   */
  function Find(s: string, sep: string): (r: Option<nat>)
    requires |sep| > 0
    ensures r.Some? ==> OccursAt(s, sep, r.value)
    decreases |s|
  {
    if |s| < |sep| then None
    else if s[..|sep|] == sep then Some(0)
    else
      match Find(s[1..], sep)
      case Some(i) => OccursAtShift(s, sep, i); Some(i + 1)
      case None => None
  }

  /** `Find` gives the leftmost occurrence, and nothing exactly when there is none. */
  lemma {:induction false} FindLeftmost(s: string, sep: string)
    requires |sep| > 0
    ensures Find(s, sep).Some? ==> forall j: nat :: j < Find(s, sep).value ==> !OccursAt(s, sep, j)
    ensures Find(s, sep).None? <==> !Contains(s, sep)
    decreases |s|
  {
    if |s| >= |sep| && s[..|sep|] != sep {
      FindLeftmost(s[1..], sep);
      forall j: nat ensures OccursAt(s[1..], sep, j) <==> OccursAt(s, sep, j + 1) {
        OccursAtShift(s, sep, j);
      }
      assert !OccursAt(s, sep, 0);
      assert forall j: nat :: OccursAt(s, sep, j) ==> j > 0 && OccursAt(s[1..], sep, j - 1);
    }
  }

  /** A separator that cannot overlap itself: its first character does not occur again in it. */
  predicate NonOverlapping(sep: string) {
    |sep| > 0 && forall d :: 0 < d < |sep| ==> sep[d] != sep[0]
  }

  lemma CharOfOccurrence(s: string, sep: string, p: nat, k: nat)
    requires OccursAt(s, sep, p) && p <= k < p + |sep|
    ensures s[k] == sep[k - p]
  {
    assert s[k] == s[p..p + |sep|][k - p];
  }

  /** Two occurrences of a non-overlapping separator never overlap. */
  lemma NoStraddle(s: string, sep: string, p: nat, q: nat)
    requires NonOverlapping(sep) && p < q < p + |sep|
    ensures !(OccursAt(s, sep, p) && OccursAt(s, sep, q))
  {
    if OccursAt(s, sep, q) && p + |sep| <= |s| {
      CharOfOccurrence(s, sep, q, q);
      assert s[p..p + |sep|][q - p] == s[q];
    }
  }

  /** For a one-character separator, substring containment is character membership. */
  lemma ContainsChar(s: string, c: char)
    ensures Contains(s, [c]) <==> c in s
  {
    if c in s {
      var i :| 0 <= i < |s| && s[i] == c;
      assert OccursAt(s, [c], i);
    }
    forall i | 0 <= i <= |s| && OccursAt(s, [c], i) ensures c in s {
      assert s[i] == s[i..i + 1][0];
    }
  }

  /**
   * A separator with no character in common with `m` cannot occur across `m`:
   * `a + m + b` contains `sep` only if `a` or `b` does.
   */
  lemma ContainsAcross(a: string, m: string, b: string, sep: string)
    requires |sep| > 0 && |m| > 0
    requires forall k :: 0 <= k < |m| ==> m[k] !in sep
    requires !Contains(a, sep) && !Contains(b, sep)
    ensures !Contains(a + m + b, sep)
  {
    var s := a + m + b;
    forall j | 0 <= j <= |s| ensures !OccursAt(s, sep, j) {
      if j + |sep| <= |a| {
        OccursAtPrefix(s, sep, |a|, j);
        assert s[..|a|] == a;
        assert !OccursAt(a, sep, j);
      } else if j >= |a| + |m| {
        assert s == (a + m) + b;
        OccursAtConcat(a + m, b, sep, j - |a| - |m|);
        assert !OccursAt(b, sep, j - |a| - |m|);
      } else if j + |sep| <= |s| {
        var k := if j <= |a| then |a| else j;
        assert s[j..j + |sep|][k - j] == m[k - |a|];
        assert m[k - |a|] !in sep;
      }
    }
  }

  /** Python's `s.split(sep)` for a non-empty separator, scanning left to right. */
  function Split(s: string, sep: string): (parts: seq<string>)
    requires |sep| > 0
    ensures |parts| >= 1
    decreases |s|
  {
    match Find(s, sep)
    case None => [s]
    case Some(i) => [s[..i]] + Split(s[i + |sep|..], sep)
  }

  /**
   * No part of a split contains the separator, and the split has more than
   * one part exactly when the string contains the separator.
   */
  lemma {:induction false} SplitParts(s: string, sep: string)
    requires |sep| > 0
    ensures |Split(s, sep)| == 1 <==> !Contains(s, sep)
    ensures forall k :: 0 <= k < |Split(s, sep)| ==> !Contains(Split(s, sep)[k], sep)
    decreases |s|
  {
    FindLeftmost(s, sep);
    var f := Find(s, sep);
    if f.Some? {
      var i := f.value;
      var rest := s[i + |sep|..];
      SplitStep(s, sep, i);
      SplitParts(rest, sep);
      forall j | 0 <= j <= i && OccursAt(s[..i], sep, j) ensures false {
        OccursAtPrefix(s, sep, i, j);
      }
    }
  }

  /** Python's `ps[-1]`. */
  function Last<T>(ps: seq<T>): T
    requires |ps| > 0
  {
    ps[|ps| - 1]
  }

  /** Python's `sep.join(ps)`. */
  function Join(ps: seq<string>, sep: string): string
    requires |ps| >= 1
  {
    if |ps| == 1 then ps[0] else ps[0] + sep + Join(ps[1..], sep)
  }

  /** One step of Split at the first occurrence `i` of the separator. */
  lemma SplitStep(s: string, sep: string, i: nat)
    requires |sep| > 0 && Find(s, sep) == Some(i)
    ensures Split(s, sep) == [s[..i]] + Split(s[i + |sep|..], sep)
    ensures s == s[..i] + sep + s[i + |sep|..]
  {
    assert s == s[..i] + sep + s[i + |sep|..] by {
      assert s[i..i + |sep|] == sep;
    }
    assert Split(s, sep) == [s[..i]] + Split(s[i + |sep|..], sep);
  }

  /** Splitting loses nothing: joining the parts with the separator gives back the string. */
  lemma {:induction false} JoinSplit(s: string, sep: string)
    requires |sep| > 0
    ensures Join(Split(s, sep), sep) == s
    decreases |s|
  {
    var f := Find(s, sep);
    if f.Some? {
      var rest := s[f.value + |sep|..];
      SplitStep(s, sep, f.value);
      JoinSplit(rest, sep);
      var ps := Split(s, sep);
      assert ps[1..] == Split(rest, sep);
    }
  }

  /**
   * The last part of a split is what follows some occurrence of the separator
   * (or the whole string when there is none).
   */
  lemma {:induction false} SplitLast(s: string, sep: string) returns (p: Option<nat>)
    requires |sep| > 0
    ensures p.None? <==> !Contains(s, sep)
    ensures p.None? ==> Last(Split(s, sep)) == s
    ensures p.Some? ==>
      OccursAt(s, sep, p.value) && !Contains(s[p.value + |sep|..], sep) &&
      Last(Split(s, sep)) == s[p.value + |sep|..]
    decreases |s|
  {
    FindLeftmost(s, sep);
    var f := Find(s, sep);
    if f.None? {
      p := None;
    } else {
      var i := f.value;
      var rest := s[i + |sep|..];
      var q := SplitLast(rest, sep);
      LastAfterFirst(s, sep, i);
      if q.None? {
        assert s[i + |sep|..] == rest;
        p := Some(i);
      } else {
        var j := ShiftOccurrence(s, sep, i + |sep|, q.value);
        assert rest[q.value + |sep|..] == s[j + |sep|..];
        p := Some(j);
      }
    }
  }

  /** With a first occurrence at `i`, the last part is the last part of the split of what follows it. */
  lemma LastAfterFirst(s: string, sep: string, i: nat)
    requires |sep| > 0 && Find(s, sep) == Some(i)
    ensures Last(Split(s, sep)) == Last(Split(s[i + |sep|..], sep))
  {
    SplitStep(s, sep, i);
    LastOfConcat([s[..i]], Split(s[i + |sep|..], sep));
  }

  /** An occurrence at `j` in the suffix `s[n..]` is one at `n + j` in `s`, followed by the same text. */
  lemma ShiftOccurrence(s: string, sep: string, n: nat, j: nat) returns (p: nat)
    requires n <= |s| && OccursAt(s[n..], sep, j)
    ensures p == n + j && OccursAt(s, sep, p) && s[n..][j + |sep|..] == s[p + |sep|..]
  {
    OccursAtSuffix(s, sep, n, j);
    p := n + j;
  }

  lemma LastOfConcat<T>(a: seq<T>, b: seq<T>)
    requires |b| > 0
    ensures Last(a + b) == Last(b)
  {
  }

  /**
   * With a separator that cannot overlap itself, the last part follows the
   * LAST occurrence of the separator.
   */
  lemma LastOccurrence(s: string, sep: string, p: nat)
    requires NonOverlapping(sep) && OccursAt(s, sep, p)
    requires !Contains(s[p + |sep|..], sep)
    ensures forall q: nat :: p < q ==> !OccursAt(s, sep, q)
  {
    forall q: nat | p < q ensures !OccursAt(s, sep, q) {
      if q < p + |sep| {
        NoStraddle(s, sep, p, q);
      } else {
        assert s[..p + |sep|] + s[p + |sep|..] == s;
        OccursAtConcat(s[..p + |sep|], s[p + |sep|..], sep, q - p - |sep|);
        if q - p - |sep| <= |s[p + |sep|..]| {
          assert !OccursAt(s[p + |sep|..], sep, q - p - |sep|);
        }
      }
    }
  }

  /** Splitting at a first occurrence: the first part is what precedes it. */
  lemma SplitAt(a: string, sep: string, b: string)
    requires NonOverlapping(sep) && !Contains(a, sep)
    ensures Split(a + sep + b, sep) == [a] + Split(b, sep)
  {
    var s := a + sep + b;
    assert OccursAt(s, sep, |a|) by {
      assert s[|a|..|a| + |sep|] == sep;
    }
    forall j | 0 <= j < |a| ensures !OccursAt(s, sep, j) {
      if j + |sep| <= |a| {
        OccursAtPrefix(s, sep, |a|, j);
        assert s[..|a|] == a;
        assert !OccursAt(a, sep, j);
      } else {
        NoStraddle(s, sep, j, |a|);
      }
    }
    FindLeftmost(s, sep);
    var i := Find(s, sep).value;
    assert i == |a|;
    assert s[..i] == a && s[i + |sep|..] == b;
  }

  /** A one-character separator never overlaps itself. */
  lemma CharNonOverlapping(c: char)
    ensures NonOverlapping([c])
  {
  }

  /** The first occurrence of a character that `a` lacks, in `a + [c] + b`, is at `|a|`. */
  lemma FindChar(a: string, c: char, b: string)
    requires c !in a
    ensures Find(a + [c] + b, [c]) == Some(|a|)
  {
    FindLeftmost(a + [c] + b, [c]);
    var s := a + [c] + b;
    assert OccursAt(s, [c], |a|) by {
      assert s[|a|..|a| + 1] == [c];
    }
    forall j | 0 <= j < |a| ensures !OccursAt(s, [c], j) {
      assert s[j..j + 1] == [a[j]];
    }
  }

  /** Splitting on a character at its first occurrence. */
  lemma SplitAtChar(a: string, c: char, b: string)
    requires c !in a
    ensures Split(a + [c] + b, [c]) == [a] + Split(b, [c])
  {
    ContainsChar(a, c);
    SplitAt(a, [c], b);
  }

  /**
   * `x` is a whole `c`-delimited field of `s` starting at index `j`: it holds
   * no `c` and is bounded by `c` or by the ends of `s`.
   */
  predicate IsField(s: string, c: char, j: nat, x: string) {
    j + |x| <= |s| && s[j..j + |x|] == x && c !in x &&
    (j == 0 || s[j - 1] == c) && (j + |x| == |s| || s[j + |x|] == c)
  }

  /** A field of the text after a `c` is a field of the whole text, shifted. */
  lemma FieldOfSuffix(s: string, c: char, n: nat, j: nat, x: string)
    requires 0 < n <= |s| && s[n - 1] == c && IsField(s[n..], c, j, x)
    ensures IsField(s, c, n + j, x)
  {
    assert s[n..][j..j + |x|] == s[n + j..n + j + |x|];
    if j > 0 {
      assert s[n..][j - 1] == s[n + j - 1];
    }
    if n + j + |x| < |s| {
      assert s[n..][j + |x|] == s[n + j + |x|];
    }
  }

  /** A field of the whole text that starts after a `c` at `n - 1` is a field of the text after it. */
  lemma FieldInSuffix(s: string, c: char, n: nat, j: nat, x: string)
    requires 0 < n <= j && IsField(s, c, j, x)
    ensures IsField(s[n..], c, j - n, x)
  {
    assert s[n..][j - n..j - n + |x|] == s[j..j + |x|];
    if j - n > 0 {
      assert s[n..][j - n - 1] == s[j - 1];
    }
    if j + |x| < |s| {
      assert s[n..][j - n + |x|] == s[j + |x|];
    }
  }

  lemma BeforeFirstChar(s: string, c: char, i: nat, k: nat)
    requires Find(s, [c]) == Some(i) && k < i
    ensures s[k] != c
  {
    FindLeftmost(s, [c]);
    assert !OccursAt(s, [c], k);
    assert s[k..k + 1] == [s[k]];
  }

  /** The first occurrence of a character: everything before it is free of it. */
  lemma FirstChar(s: string, c: char, i: nat)
    requires Find(s, [c]) == Some(i)
    ensures i < |s| && s[i] == c && c !in s[..i]
  {
    CharOfOccurrence(s, [c], i, i);
    forall k | 0 <= k < i ensures s[..i][k] != c {
      BeforeFirstChar(s, c, i, k);
    }
  }

  lemma FieldAfterFirst(s: string, c: char, i: nat, j: nat, x: string)
    requires Find(s, [c]) == Some(i) && IsField(s, c, j, x) && j > 0
    ensures i < j
  {
    if j - 1 < i {
      BeforeFirstChar(s, c, i, j - 1);
    }
  }

  /** Without the separator character, the only field is the whole string. */
  lemma WholeField(s: string, c: char)
    requires Find(s, [c]).None?
    ensures Split(s, [c]) == [s] && IsField(s, c, 0, s)
  {
    FindLeftmost(s, [c]);
    ContainsChar(s, c);
    assert s[0..|s|] == s;
  }

  /** What precedes the first occurrence of the character is the first field. */
  lemma FirstPartField(s: string, c: char, i: nat)
    requires Find(s, [c]) == Some(i)
    ensures IsField(s, c, 0, s[..i])
  {
    FirstChar(s, c, i);
    assert s[0..i] == s[..i];
  }

  /** The first part of `s.split(c)` is a field of `s`. */
  lemma FirstPartIsField(s: string, c: char, x: string)
    requires Split(s, [c])[0] == x
    ensures IsField(s, c, 0, x)
  {
    var f := Find(s, [c]);
    if f.None? {
      WholeField(s, c);
    } else {
      SplitStep(s, [c], f.value);
      FirstPartField(s, c, f.value);
    }
  }

  /** Part k > 0 of `s.split(c)` is part k - 1 of the split of what follows the first `c`, at `i`. */
  lemma LaterPart(s: string, c: char, k: nat, x: string) returns (i: nat)
    requires 0 < k < |Split(s, [c])| && Split(s, [c])[k] == x
    ensures i < |s| && s[i] == c
    ensures k - 1 < |Split(s[i + 1..], [c])| && Split(s[i + 1..], [c])[k - 1] == x
  {
    i := Find(s, [c]).value;
    SplitStep(s, [c], i);
    CharOfOccurrence(s, [c], i, i);
  }

  /** Part k of `s.split(c)` is a field of `s`. */
  lemma {:induction false} FieldOfPart(s: string, c: char, k: nat, x: string) returns (j: nat)
    requires k < |Split(s, [c])| && Split(s, [c])[k] == x
    ensures IsField(s, c, j, x)
    decreases |s|
  {
    if k == 0 {
      FirstPartIsField(s, c, x);
      j := 0;
    } else {
      var i := LaterPart(s, c, k, x);
      var j' := FieldOfPart(s[i + 1..], c, k - 1, x);
      FieldOfSuffix(s, c, i + 1, j', x);
      j := i + 1 + j';
    }
  }

  lemma FieldOfCharFree(s: string, c: char, j: nat, x: string)
    requires c !in s && IsField(s, c, j, x)
    ensures x == s
  {
  }

  lemma FirstField(s: string, c: char, i: nat, x: string)
    requires Find(s, [c]) == Some(i) && IsField(s, c, 0, x)
    ensures x == s[..i]
  {
    FirstChar(s, c, i);
  }

  lemma {:induction false} PartOfField(s: string, c: char, j: nat, x: string)
    requires IsField(s, c, j, x)
    ensures x in Split(s, [c])
    decreases |s|
  {
    var f := Find(s, [c]);
    if f.None? {
      FindLeftmost(s, [c]);
      ContainsChar(s, c);
      FieldOfCharFree(s, c, j, x);
    } else {
      var i := f.value;
      SplitStep(s, [c], i);
      if j == 0 {
        FirstField(s, c, i, x);
      } else {
        CharOfOccurrence(s, [c], i, i);
        FieldAfterFirst(s, c, i, j, x);
        FieldInSuffix(s, c, i + 1, j, x);
        PartOfField(s[i + 1..], c, j - i - 1, x);
      }
    }
  }

  /**
   * The parts of `s.split(c)` are exactly the `c`-delimited fields of `s`:
   * Python's `x in s.split(c)` asks whether `x` is one of them.
   */
  lemma SplitFields(s: string, c: char, x: string)
    ensures x in Split(s, [c]) <==> exists j :: 0 <= j <= |s| && IsField(s, c, j, x)
  {
    if x in Split(s, [c]) {
      var k :| 0 <= k < |Split(s, [c])| && Split(s, [c])[k] == x;
      var j := FieldOfPart(s, c, k, x);
    }
    forall j | 0 <= j <= |s| && IsField(s, c, j, x) ensures x in Split(s, [c]) {
      PartOfField(s, c, j, x);
    }
  }

  /** Without the separator character, a split yields the whole string. */
  lemma SplitNoChar(s: string, c: char)
    requires c !in s
    ensures Split(s, [c]) == [s]
  {
    ContainsChar(s, c);
  }

  /** The first part of `s.split(c)` is `s` up to (not including) the first `c`. */
  lemma SplitFirstChar(s: string, c: char) returns (n: nat)
    ensures n <= |s| && Split(s, [c])[0] == s[..n]
    ensures c !in s[..n] && (n == |s| || s[n] == c)
  {
    FindLeftmost(s, [c]);
    var f := Find(s, [c]);
    if f.None? {
      ContainsChar(s, c);
      n := |s|;
      assert s[..n] == s;
    } else {
      n := f.value;
      FirstChar(s, c, n);
      SplitStep(s, [c], n);
    }
  }

  /**
   * The first part of `t.split(c)` is the only prefix of `t` that is free of
   * `c` and is followed by `c` or by the end of `t`.
   */
  lemma UpToFirstChar(t: string, c: char, x: string)
    requires x <= t && c !in x && (|x| == |t| || t[|x|] == c)
    ensures Split(t, [c])[0] == x
  {
    var n := SplitFirstChar(t, c);
    assert |x| == n;
  }

  /** A decimal digit character. */
  function Digit(d: nat): (c: char)
    requires d < 10
    ensures '0' <= c <= '9' && c as int - '0' as int == d
  {
    ('0' as int + d) as char
  }

  /** Python's `str(n)` for a natural number: decimal digits, no leading zero. */
  function NatToString(n: nat): (s: string)
    ensures |s| >= 1
    ensures forall k :: 0 <= k < |s| ==> '0' <= s[k] <= '9'
    ensures |s| > 1 ==> s[0] != '0'
  {
    if n < 10 then [Digit(n)] else NatToString(n / 10) + [Digit(n % 10)]
  }

  /** The number a string of decimal digits stands for, read left to right. */
  function DigitsValue(s: string): int {
    if s == [] then 0 else 10 * DigitsValue(s[..|s| - 1]) + (s[|s| - 1] as int - '0' as int)
  }

  /** The digits written for `n` stand for `n`. */
  lemma {:induction false} NatToStringValue(n: nat)
    ensures DigitsValue(NatToString(n)) == n
  {
    var s := NatToString(n);
    if n >= 10 {
      NatToStringValue(n / 10);
      assert s[..|s| - 1] == NatToString(n / 10);
    }
  }
}
