/**
 The few Python `str` operations the endpoint relies on: `startswith`,
 `endswith`, `find`, `split`, `join`, `replace`, `lower`, and the decimal
 rendering of an integer inside an f-string. Each is defined the way CPython
 behaves on the inputs the endpoint gives it, except `lower`, which maps only
 the ASCII letters A-Z; `replace` is tied to an independent definition
 through `split` and `join`.
 */
module PyStr {

  predicate StartsWith(s: string, prefix: string) {
    |prefix| <= |s| && s[..|prefix|] == prefix
  }

  predicate EndsWith(s: string, suffix: string) {
    |suffix| <= |s| && s[|s| - |suffix|..] == suffix
  }

  /** `pat` occurs in `s` starting at index `i`. */
  predicate OccursAt(s: string, pat: string, i: int) {
    0 <= i && i + |pat| <= |s| && s[i..i + |pat|] == pat
  }

  lemma OccursShift(s: string, pat: string, k: int)
    requires |s| >= 1 && k >= 0
    ensures OccursAt(s[1..], pat, k) <==> OccursAt(s, pat, k + 1)
  {
    if k + |pat| <= |s| - 1 {
      assert s[1..][k..k + |pat|] == s[k + 1..k + 1 + |pat|];
    }
  }

  /** `str.find`: the lowest index at which `pat` occurs, or -1. */
  function Find(s: string, pat: string): (i: int)
    requires |pat| > 0
    ensures -1 <= i <= |s|
    ensures i == -1 ==> forall k :: !OccursAt(s, pat, k)
    ensures i >= 0 ==> OccursAt(s, pat, i) && forall k :: 0 <= k < i ==> !OccursAt(s, pat, k)
    decreases |s|
  {
    if |s| < |pat| then -1
    else if StartsWith(s, pat) then 0
    else
      var j := Find(s[1..], pat);
      assert forall k :: k >= 1 ==> (OccursAt(s, pat, k) <==> OccursAt(s[1..], pat, k - 1)) by {
        forall k | k >= 1 ensures OccursAt(s, pat, k) <==> OccursAt(s[1..], pat, k - 1) {
          OccursShift(s, pat, k - 1);
        }
      }
      assert !OccursAt(s, pat, 0);
      if j < 0 then -1 else j + 1
  }

  /** `sep.join(parts)`. */
  function JoinWith(sep: string, parts: seq<string>): string
  {
    if |parts| == 0 then ""
    else if |parts| == 1 then parts[0]
    else parts[0] + sep + JoinWith(sep, parts[1..])
  }

  /** `s.split(sep)` for a non-empty separator: the pieces between successive
      leftmost occurrences of `sep`. */
  function Split(s: string, sep: string): (parts: seq<string>)
    requires |sep| > 0
    ensures |parts| >= 1
    ensures JoinWith(sep, parts) == s
    decreases |s|
  {
    var i := Find(s, sep);
    if i < 0 then [s]
    else
      var rest := Split(s[i + |sep|..], sep);
      assert s == s[..i] + sep + s[i + |sep|..] by {
        assert s[i..i + |sep|] == sep;
      }
      [s[..i]] + rest
  }

  /** `s.replace(pat, rep)`: every leftmost, non-overlapping occurrence of
      `pat` is replaced by `rep`, scanning from the left. */
  function Replace(s: string, pat: string, rep: string): string
    requires |pat| > 0
    decreases |s|
  {
    if |s| < |pat| then s
    else if StartsWith(s, pat) then rep + Replace(s[|pat|..], pat, rep)
    else [s[0]] + Replace(s[1..], pat, rep)
  }

  /** No occurrence of `pat` starts among the first `i` positions of `s`. */
  predicate ClearBefore(s: string, pat: string, i: int)
    decreases i
  {
    i <= 0 || (|s| >= 1 && !StartsWith(s, pat) && ClearBefore(s[1..], pat, i - 1))
  }

  /** A prefix free of the pattern's first character holds no occurrence. */
  lemma {:induction false} ClearFromChars(s: string, pat: string, i: int)
    requires |pat| > 0 && 0 <= i <= |s|
    requires forall k :: 0 <= k < i ==> s[k] != pat[0]
    ensures ClearBefore(s, pat, i)
    decreases i
  {
    if i > 0 {
      assert !StartsWith(s, pat) by {
        if |pat| <= |s| {
          assert s[..|pat|][0] == s[0];
        }
      }
      assert forall k :: 0 <= k < i - 1 ==> s[1..][k] == s[k + 1];
      ClearFromChars(s[1..], pat, i - 1);
    }
  }

  /** The quantified form of `ClearBefore`. */
  lemma {:induction false} ClearFromNone(s: string, pat: string, i: int)
    requires |pat| > 0 && 0 <= i <= |s|
    requires forall k :: 0 <= k < i ==> !OccursAt(s, pat, k)
    ensures ClearBefore(s, pat, i)
    decreases i
  {
    if i > 0 {
      assert !StartsWith(s, pat) by {
        if StartsWith(s, pat) {
          assert s[0..|pat|] == s[..|pat|];
          assert OccursAt(s, pat, 0);
        }
      }
      forall k | 0 <= k < i - 1 ensures !OccursAt(s[1..], pat, k) {
        OccursShift(s, pat, k);
      }
      ClearFromNone(s[1..], pat, i - 1);
    }
  }

  /** `find` stops at the first occurrence. */
  lemma {:induction false} FindIsClear(s: string, pat: string)
    requires |pat| > 0 && Find(s, pat) >= 0
    ensures ClearBefore(s, pat, Find(s, pat))
    decreases |s|
  {
    if |s| >= |pat| && !StartsWith(s, pat) {
      FindIsClear(s[1..], pat);
    }
  }

  /** Where `pat` does not occur, `replace` changes nothing. */
  lemma {:induction false} ReplaceNoMatch(s: string, pat: string, rep: string)
    requires |pat| > 0
    requires forall k :: !OccursAt(s, pat, k)
    ensures Replace(s, pat, rep) == s
    decreases |s|
  {
    if |s| >= |pat| {
      assert !OccursAt(s, pat, 0);
      forall k ensures !OccursAt(s[1..], pat, k) {
        if k >= 0 {
          OccursShift(s, pat, k);
        }
      }
      ReplaceNoMatch(s[1..], pat, rep);
      assert [s[0]] + s[1..] == s;
    }
  }

  /** A string that does not start with `pat` keeps its first character. */
  lemma ReplaceStep(s: string, pat: string, rep: string)
    requires |pat| > 0 && |s| >= |pat| && !StartsWith(s, pat)
    ensures Replace(s, pat, rep) == [s[0]] + Replace(s[1..], pat, rep)
  {
  }

  /** Re-association of a copied first character onto the prefix. */
  lemma ConsPrefix(s: string, i: int, x: string, y: string, r: string, z: string)
    requires 1 <= i <= |s|
    requires x == [s[0]] + y && y == s[1..][..i - 1] + r + z
    ensures x == s[..i] + r + z
  {
    assert [s[0]] + s[1..][..i - 1] == s[..i];
  }

  lemma SliceShift(s: string, j: int)
    requires 1 <= j <= |s|
    ensures s[1..][j - 1..] == s[j..]
  {
  }

  lemma ReplaceAtStart(s: string, pat: string, rep: string)
    requires |pat| > 0 && OccursAt(s, pat, 0)
    ensures Replace(s, pat, rep) == s[..0] + rep + Replace(s[|pat|..], pat, rep)
  {
    assert StartsWith(s, pat) by { assert s[..|pat|] == s[0..|pat|]; }
    assert s[..0] + rep == rep;
  }

  /** When the first occurrence of `pat` is at `i`, `replace` copies the
      prefix before it, emits `rep`, and carries on after the occurrence. */
  lemma {:induction false} ReplaceAtFirst(s: string, pat: string, rep: string, i: int)
    requires |pat| > 0
    requires OccursAt(s, pat, i) && ClearBefore(s, pat, i)
    ensures Replace(s, pat, rep) == s[..i] + rep + Replace(s[i + |pat|..], pat, rep)
    decreases i
  {
    if i == 0 {
      ReplaceAtStart(s, pat, rep);
    } else {
      OccursShift(s, pat, i - 1);
      ReplaceAtFirst(s[1..], pat, rep, i - 1);
      ReplaceStep(s, pat, rep);
      SliceShift(s, i + |pat|);
      ConsPrefix(s, i, Replace(s, pat, rep), Replace(s[1..], pat, rep), rep, Replace(s[i + |pat|..], pat, rep));
    }
  }

  /** As `ReplaceAtFirst`, when the character after the occurrence cannot
      start another one: it is copied through unchanged. */
  lemma ReplaceAroundFirst(s: string, pat: string, rep: string, i: int)
    requires |pat| > 0
    requires OccursAt(s, pat, i) && ClearBefore(s, pat, i)
    requires i + |pat| < |s| && s[i + |pat|] != pat[0]
    ensures Replace(s, pat, rep) == s[..i] + rep + [s[i + |pat|]] + Replace(s[i + |pat| + 1..], pat, rep)
  {
    ReplaceAtFirst(s, pat, rep, i);
    var rest := s[i + |pat|..];
    ReplaceKeepsHead(rest, pat, rep);
    assert rest[1..] == s[i + |pat| + 1..];
    Glue(Replace(s, pat, rep), s[..i] + rep, Replace(rest, pat, rep), rest[0], Replace(rest[1..], pat, rep));
  }

  lemma Glue(x: string, a: string, y: string, c: char, z: string)
    requires x == a + y && y == [c] + z
    ensures x == a + [c] + z
  {
  }

  /** A string made of a clear prefix followed by one occurrence becomes the
      prefix followed by the replacement. */
  lemma ReplaceTrailing(s: string, prefix: string, pat: string, rep: string)
    requires |pat| > 0 && s == prefix + pat
    requires ClearBefore(s, pat, |prefix|)
    ensures Replace(s, pat, rep) == prefix + rep
  {
    assert OccursAt(s, pat, |prefix|) by { assert s[|prefix|..|prefix| + |pat|] == pat; }
    ReplaceAtFirst(s, pat, rep, |prefix|);
    assert s[..|prefix|] == prefix;
    assert s[|prefix| + |pat|..] == [];
  }

  /** A string that starts with a character other than `pat[0]` keeps that
      first character under `replace`. */
  lemma ReplaceKeepsHead(s: string, pat: string, rep: string)
    requires |pat| > 0 && |s| > 0 && s[0] != pat[0]
    ensures Replace(s, pat, rep) == [s[0]] + Replace(s[1..], pat, rep)
  {
    if |s| < |pat| {
      assert [s[0]] + s[1..] == s;
    } else {
      assert !StartsWith(s, pat) by { assert s[..|pat|][0] == s[0]; }
    }
  }

  /** An independent definition of `replace` through `split` and `join`:
      `s.replace(pat, rep) == rep.join(s.split(pat))`. */
  lemma {:induction false} ReplaceIsJoinOfSplit(s: string, pat: string, rep: string)
    requires |pat| > 0
    ensures Replace(s, pat, rep) == JoinWith(rep, Split(s, pat))
    decreases |s|
  {
    var i := Find(s, pat);
    if i < 0 {
      ReplaceNoMatch(s, pat, rep);
    } else {
      FindIsClear(s, pat);
      ReplaceAtFirst(s, pat, rep, i);
      ReplaceIsJoinOfSplit(s[i + |pat|..], pat, rep);
      var rest := Split(s[i + |pat|..], pat);
      assert Split(s, pat) == [s[..i]] + rest;
      assert ([s[..i]] + rest)[1..] == rest;
    }
  }

  function LowerChar(c: char): char {
    if 'A' <= c <= 'Z' then (c as int - 'A' as int + 'a' as int) as char else c
  }

  /** `str.lower` on ASCII letters. */
  function Lower(s: string): (r: string)
    ensures |r| == |s|
    ensures forall i :: 0 <= i < |r| ==> !('A' <= r[i] <= 'Z')
    ensures forall i :: 0 <= i < |s| && !('A' <= s[i] <= 'Z') ==> r[i] == s[i]
    ensures forall i :: 0 <= i < |s| && 'A' <= s[i] <= 'Z' ==> r[i] as int - s[i] as int == 32
  {
    seq(|s|, i requires 0 <= i < |s| => LowerChar(s[i]))
  }

  function Digit(d: nat): char
    requires d < 10
  {
    "0123456789"[d]
  }

  /** The decimal text Python prints for a non-negative integer. */
  function Decimal(n: nat): (r: string)
    ensures |r| >= 1
    ensures forall i :: 0 <= i < |r| ==> '0' <= r[i] <= '9'
    ensures |r| > 1 ==> r[0] != '0'
    decreases n
  {
    if n < 10 then [Digit(n)] else Decimal(n / 10) + [Digit(n % 10)]
  }

  /** Reads back a string of decimal digits. */
  function DecimalValue(s: string): nat
    requires forall i :: 0 <= i < |s| ==> '0' <= s[i] <= '9'
    decreases |s|
  {
    if |s| == 0 then 0
    else DecimalValue(s[..|s| - 1]) * 10 + (s[|s| - 1] as int - '0' as int)
  }

  lemma DecimalSplit(n: nat)
    requires n >= 10
    ensures var r := Decimal(n);
      r[..|r| - 1] == Decimal(n / 10) && r[|r| - 1] == Digit(n % 10)
  {
  }

  lemma DigitValue(d: nat)
    requires d < 10
    ensures Digit(d) as int - '0' as int == d
  {
  }

  lemma {:induction false} DecimalRoundTrip(n: nat)
    ensures DecimalValue(Decimal(n)) == n
    decreases n
  {
    if n < 10 {
      DigitValue(n);
    } else {
      DecimalRoundTrip(n / 10);
      DecimalSplit(n);
      DigitValue(n % 10);
    }
  }

  lemma Decimal400()
    ensures Decimal(400) == "400"
  {
    assert Decimal(4) == "4";
    assert Decimal(40) == "40";
  }
}
