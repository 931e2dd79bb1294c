/** Substring search and decimal numbers. */
module Search {

  /** `pat` occurs in `s` at position `i`. */
  predicate OccursAt(s: string, pat: string, i: nat) {
    i + |pat| <= |s| && s[i..i + |pat|] == pat
  }

  predicate Contains(s: string, pat: string) {
    exists i :: 0 <= i <= |s| && OccursAt(s, pat, i)
  }

  /** `std::string::find`: the first position of `pat`, or -1. */
  function Find(s: string, pat: string): (r: int)
    requires pat != ""
    ensures r >= 0 ==> OccursAt(s, pat, r) && forall i :: 0 <= i < r ==> !OccursAt(s, pat, i)
    ensures r < 0 ==> r == -1 && !Contains(s, pat)
    decreases |s|
  {
    if |s| < |pat| then -1
    else if s[..|pat|] == pat then
      assert OccursAt(s, pat, 0);
      0
    else
      var r := Find(s[1..], pat);
      assert !OccursAt(s, pat, 0);
      assert forall i :: 0 < i <= |s| ==> (OccursAt(s, pat, i) <==> OccursAt(s[1..], pat, i - 1)) by {
        forall i | 0 < i <= |s|
          ensures OccursAt(s, pat, i) <==> OccursAt(s[1..], pat, i - 1)
        {
          OccursTail(s, pat, i);
        }
      }
      if r < 0 then -1 else r + 1
  }

  lemma OccursTail(s: string, pat: string, i: nat)
    requires 0 < i <= |s|
    ensures OccursAt(s, pat, i) <==> OccursAt(s[1..], pat, i - 1)
  {
    if i + |pat| <= |s| {
      assert s[1..][i - 1..i - 1 + |pat|] == s[i..i + |pat|];
    }
  }

  /** A position with no earlier one is the one found. */
  lemma FindIs(s: string, pat: string, p: nat)
    requires pat != "" && OccursAt(s, pat, p)
    requires forall i :: 0 <= i < p ==> !OccursAt(s, pat, i)
    ensures Find(s, pat) == p
  {
    assert Contains(s, pat);
  }

  /** More text behind does not move the first occurrence. */
  lemma FindInPrefix(s: string, more: string, pat: string)
    requires pat != "" && Find(s, pat) >= 0
    ensures Find(s + more, pat) == Find(s, pat)
  {
    var p := Find(s, pat);
    assert (s + more)[p..p + |pat|] == s[p..p + |pat|];
    forall i | 0 <= i < p
      ensures !OccursAt(s + more, pat, i)
    {
      assert (s + more)[i..i + |pat|] == s[i..i + |pat|];
      assert !OccursAt(s, pat, i);
    }
    FindIs(s + more, pat, p);
  }

  lemma OccursShift(before: string, s: string, pat: string, i: nat)
    ensures OccursAt(before + s, pat, |before| + i) <==> OccursAt(s, pat, i)
  {
    if i + |pat| <= |s| {
      assert (before + s)[|before| + i..|before| + i + |pat|] == s[i..i + |pat|];
    }
  }

  /** Text in front in which the pattern does not start only moves the first occurrence. */
  lemma FindBehind(front: string, s: string, pat: string)
    requires pat != "" && Find(s, pat) >= 0
    requires forall i :: 0 <= i < |front| ==> !OccursAt(front + s, pat, i)
    ensures Find(front + s, pat) == |front| + Find(s, pat)
  {
    var p := Find(s, pat);
    OccursShift(front, s, pat, p);
    forall i | 0 <= i < |front| + p
      ensures !OccursAt(front + s, pat, i)
    {
      if i >= |front| {
        OccursShift(front, s, pat, i - |front|);
      }
    }
    FindIs(front + s, pat, |front| + p);
  }

  lemma OccursInWhole(s: string, i: nat, j: nat, pat: string, k: nat)
    requires i <= j <= |s| && OccursAt(s[i..j], pat, k)
    ensures OccursAt(s, pat, i + k)
  {
    OccursInFront(s[i..j], s[j..], pat, k);
    OccursShift(s[..i], s[i..j] + s[j..], pat, k);
    assert s == s[..i] + (s[i..j] + s[j..]);
  }

  lemma OccursInFront(s: string, t: string, pat: string, i: nat)
    requires i + |pat| <= |s|
    ensures OccursAt(s + t, pat, i) <==> OccursAt(s, pat, i)
  {
    assert (s + t)[i..i + |pat|] == s[i..i + |pat|];
  }

  lemma OccursChar(s: string, pat: string, i: nat, k: nat)
    requires OccursAt(s, pat, i) && k < |pat|
    ensures i + k < |s| && s[i + k] == pat[k]
  {
    assert s[i..i + |pat|][k] == s[i + k];
  }

  /** A part of a text holds no pattern that the text does not hold. */
  lemma PartWithout(s: string, i: nat, j: nat, pat: string)
    requires !Contains(s, pat) && i <= j <= |s|
    ensures !Contains(s[i..j], pat)
  {
    forall k | 0 <= k <= j - i
      ensures !OccursAt(s[i..j], pat, k)
    {
      if OccursAt(s[i..j], pat, k) {
        OccursInWhole(s, i, j, pat, k);
      }
    }
  }

  /** What stands before the first occurrence holds none. */
  lemma BeforeFirst(s: string, pat: string)
    requires pat != "" && Find(s, pat) >= 0
    ensures !Contains(s[..Find(s, pat)], pat)
  {
    var p := Find(s, pat);
    forall k | 0 <= k <= p
      ensures !OccursAt(s[0..p], pat, k)
    {
      if OccursAt(s[0..p], pat, k) {
        OccursInWhole(s, 0, p, pat, k);
      }
    }
    assert s[0..p] == s[..p];
  }

  // ----------------------------------------------------------------- Numbers

  function Digit(d: nat): char
    requires d < 10
  {
    "0123456789"[d]
  }

  function DigitValue(c: char): int {
    if '0' <= c <= '9' then (c - '0') as int else -1
  }

  /** `std::to_string` of a size. */
  function Decimal(n: nat): (s: string)
    ensures s != "" && forall i :: 0 <= i < |s| ==> '0' <= s[i] <= '9'
  {
    if n < 10 then [Digit(n)] else Decimal(n / 10) + [Digit(n % 10)]
  }

  /** The number a string of decimal digits denotes, or -1. */
  function DecimalValue(s: string): int {
    if s == "" then -1
    else
      var last := DigitValue(s[|s| - 1]);
      if last < 0 then -1
      else if |s| == 1 then last
      else
        var front := DecimalValue(s[..|s| - 1]);
        if front < 0 then -1 else 10 * front + last
  }

  lemma {:induction false} DecimalReadsBack(n: nat)
    ensures DecimalValue(Decimal(n)) == n
  {
    var s := Decimal(n);
    assert forall d :: 0 <= d < 10 ==> DigitValue(Digit(d)) == d;
    if n >= 10 {
      DecimalReadsBack(n / 10);
      assert s[..|s| - 1] == Decimal(n / 10);
    }
  }
}
