/** Sums of a weight over the threads of a program.  A count is a sum of zero-one weights. */
module Summation {

  function Sum<T>(s: seq<T>, w: T -> nat): nat {
    if s == [] then 0 else w(s[0]) + Sum(s[1..], w)
  }

  /** Moving one thread to another state changes the sum by that thread's weight only. */
  lemma {:induction false} SumUpdate<T>(s: seq<T>, i: nat, x: T, w: T -> nat)
    requires i < |s|
    ensures Sum(s[i := x], w) + w(s[i]) == Sum(s, w) + w(x)
  {
    if i == 0 {
      assert s[i := x][1..] == s[1..];
    } else {
      assert s[i := x][1..] == s[1..][i - 1 := x];
      SumUpdate(s[1..], i - 1, x, w);
    }
  }

  lemma {:induction false} SumMember<T>(s: seq<T>, i: nat, w: T -> nat)
    requires i < |s|
    ensures w(s[i]) <= Sum(s, w)
  {
    if i > 0 {
      SumMember(s[1..], i - 1, w);
    }
  }

  lemma {:induction false} SumZero<T>(s: seq<T>, w: T -> nat)
    requires forall i :: 0 <= i < |s| ==> w(s[i]) == 0
    ensures Sum(s, w) == 0
  {
    if s != [] {
      assert forall i :: 0 <= i < |s[1..]| ==> s[1..][i] == s[i + 1];
      SumZero(s[1..], w);
    }
  }

  /** Two weights that agree on every thread have the same sum. */
  lemma {:induction false} SumSame<T>(s: seq<T>, t: seq<T>, v: T -> nat, w: T -> nat)
    requires |s| == |t|
    requires forall i :: 0 <= i < |s| ==> v(s[i]) <= w(t[i])
    ensures Sum(s, v) <= Sum(t, w)
    ensures (forall i :: 0 <= i < |s| ==> v(s[i]) == w(t[i])) ==> Sum(s, v) == Sum(t, w)
  {
    if s != [] {
      assert forall i :: 0 <= i < |s[1..]| ==> s[1..][i] == s[i + 1] && t[1..][i] == t[i + 1];
      SumSame(s[1..], t[1..], v, w);
    }
  }

  lemma {:induction false} SumAppend<T>(s: seq<T>, x: T, w: T -> nat)
    ensures Sum(s + [x], w) == Sum(s, w) + w(x)
  {
    if s == [] {
      assert [x][1..] == [];
    } else {
      assert (s + [x])[1..] == s[1..] + [x];
      SumAppend(s[1..], x, w);
    }
  }

  /** Raising every weight by at most `d` raises the sum by at most `d` for each thread. */
  lemma {:induction false} SumRaised<T>(s: seq<T>, t: seq<T>, w: T -> nat, d: nat)
    requires |s| == |t|
    requires forall i :: 0 <= i < |s| ==> w(t[i]) <= w(s[i]) + d
    ensures Sum(t, w) <= Sum(s, w) + d * |s|
  {
    if s != [] {
      assert forall i :: 0 <= i < |s[1..]| ==> s[1..][i] == s[i + 1] && t[1..][i] == t[i + 1];
      SumRaised(s[1..], t[1..], w, d);
      assert d * |s| == d * |s[1..]| + d;
    }
  }

  /** Two lists of threads that differ in thread `i` only. */
  lemma {:induction false} SumOneMoved<T>(s: seq<T>, t: seq<T>, i: nat, w: T -> nat)
    requires i < |s| == |t|
    requires forall j :: 0 <= j < |s| && j != i ==> t[j] == s[j]
    ensures Sum(t, w) + w(s[i]) == Sum(s, w) + w(t[i])
  {
    assert t == s[i := t[i]];
    SumUpdate(s, i, t[i], w);
  }
}
