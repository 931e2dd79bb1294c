/** Tasks and the order in which the scheduler dispatches them (scheduler/src/task_comparator.cpp). */
module TaskOrder {

  /** The callable of a task is not modelled; running a task is recorded, not performed. */
  datatype Task = Task(id: int, startTime: int, duration: int, priority: int)

  /** `TaskComparator`: true when `a` is to be dispatched after `b`. */
  predicate Later(a: Task, b: Task) {
    if a.startTime != b.startTime then a.startTime > b.startTime else a.priority > b.priority
  }

  /** What std::priority_queue requires of a comparator (section 28.7 of ISO C++17): irreflexive,
      transitive, and with a transitive incomparability.  What comes later has the greater start time, or
      the same and the greater priority number. */
  lemma LaterIsStrictWeakOrder(a: Task, b: Task, c: Task)
    ensures !Later(a, a)
    ensures Later(a, b) ==> !Later(b, a)
    ensures Later(a, b) && Later(b, c) ==> Later(a, c)
    ensures !Later(a, b) && !Later(b, c) ==> !Later(a, c)
    ensures !Later(a, b) && !Later(b, a) <==> (a.startTime, a.priority) == (b.startTime, b.priority)
    ensures b.startTime < a.startTime ==> Later(a, b)
    ensures b.startTime == a.startTime && b.priority < a.priority ==> Later(a, b)
  {
  }

  /** `t` is in `q` and nothing in `q` is strictly before it. */
  ghost predicate IsFirst(t: Task, q: multiset<Task>) {
    t in q && forall u :: u in q ==> !Later(t, u)
  }

  /** A first task is least by start time, then by priority number. */
  lemma FirstIsLeast(t: Task, q: multiset<Task>)
    ensures IsFirst(t, q) <==>
              t in q && forall u :: u in q ==>
                t.startTime < u.startTime || (t.startTime == u.startTime && t.priority <= u.priority)
  {
  }

  lemma {:induction false} FirstExists(q: multiset<Task>) returns (t: Task)
    requires |q| > 0
    ensures IsFirst(t, q)
    decreases |q|
  {
    var u :| u in q;
    var rest := q - multiset{u};
    if |rest| == 0 {
      t := u;
      assert q == multiset{u};
    } else {
      var v := FirstExists(rest);
      assert q == rest + multiset{u};
      t := if Later(v, u) then u else v;
    }
  }

  /** `out` is popped from `q` with no push in between, each time a first task. */
  ghost predicate PopRun(q: multiset<Task>, out: seq<Task>)
    decreases |out|
  {
    out == [] || (IsFirst(out[0], q) && PopRun(q - multiset{out[0]}, out[1..]))
  }

  /** Every queue can be emptied so. */
  lemma {:induction false} PopRunExists(q: multiset<Task>) returns (out: seq<Task>)
    ensures PopRun(q, out) && multiset(out) == q
    decreases |q|
  {
    if |q| == 0 {
      out := [];
    } else {
      var t := FirstExists(q);
      var rest := PopRunExists(q - multiset{t});
      out := [t] + rest;
      assert out[1..] == rest && q == multiset{t} + (q - multiset{t});
    }
  }

  /** A push-free run of pops is sorted by start time, then by priority number. */
  lemma PopRunByTime(q: multiset<Task>, out: seq<Task>, i: nat, j: nat)
    requires PopRun(q, out) && i < j < |out|
    ensures out[i].startTime < out[j].startTime ||
            (out[i].startTime == out[j].startTime && out[i].priority <= out[j].priority)
  {
    PopRunSorted(q, out);
  }

  /** A push-free run of pops is sorted, takes only queued tasks, and leaves nothing that should have
      gone earlier: every task popped is before, or level with, every task left. */
  lemma {:induction false} PopRunSorted(q: multiset<Task>, out: seq<Task>)
    requires PopRun(q, out)
    ensures multiset(out) <= q
    ensures forall i, j :: 0 <= i < j < |out| ==> !Later(out[i], out[j])
    ensures forall i, u :: 0 <= i < |out| && u in q - multiset(out) ==> !Later(out[i], u)
    decreases |out|
  {
    if out != [] {
      var rest := q - multiset{out[0]};
      PopRunSorted(rest, out[1..]);
      assert out == [out[0]] + out[1..];
      assert multiset(out) == multiset{out[0]} + multiset(out[1..]);
      forall j | 0 < j < |out|
        ensures !Later(out[0], out[j])
      {
        assert out[j] == out[1..][j - 1] && out[j] in multiset(out[1..]);
        assert out[j] in q;
      }
      assert forall i :: 0 < i < |out| ==> out[i] == out[1..][i - 1];
      forall i, u | 0 <= i < |out| && u in q - multiset(out)
        ensures !Later(out[i], u)
      {
        assert u in q && u in rest - multiset(out[1..]);
        assert i > 0 ==> !Later(out[1..][i - 1], u);
      }
    }
  }

  lemma LeftNotEarlier(q: multiset<Task>, out: seq<Task>, i: nat, u: Task)
    requires PopRun(q, out) && i < |out| && u in q && u !in out
    ensures !Later(out[i], u)
  {
    PopRunSorted(q, out);
    assert u in q - multiset(out);
  }

  /** Of two tasks queued together, the one with the earlier start, or with the same and the smaller
      priority number, is popped first. */
  lemma EarlierPoppedFirst(q: multiset<Task>, out: seq<Task>, a: Task, b: Task, j: nat)
    requires PopRun(q, out) && a in q && b in q
    requires a.startTime < b.startTime || (a.startTime == b.startTime && a.priority < b.priority)
    requires j < |out| && out[j] == b
    ensures exists i :: 0 <= i < j && out[i] == a
  {
    if a !in out {
      LeftNotEarlier(q, out, j, a);
      assert false;
    }
    PopRunSorted(q, out);
    var i :| 0 <= i < |out| && out[i] == a;
  }
}

/** `std::priority_queue<Task, std::vector<Task>, TaskComparator>` (scheduler/include/threadpool.h:24)
    as an array heap, with the push_heap and pop_heap of section 28.7.7 of ISO C++17. */
module TaskHeap {
  import opened TaskOrder

  function Parent(i: nat): nat
    requires i > 0
  {
    (i - 1) / 2
  }

  ghost predicate HeapOrdered(c: seq<Task>) {
    forall k :: 0 < k < |c| ==> !Later(c[Parent(k)], c[k])
  }

  function Swap(c: seq<Task>, i: nat, j: nat): (r: seq<Task>)
    requires i < |c| && j < |c|
    ensures |r| == |c| && r[i] == c[j] && r[j] == c[i]
    ensures forall k :: 0 <= k < |c| && k != i && k != j ==> r[k] == c[k]
    ensures multiset(r) == multiset(c)
  {
    c[i := c[j]][j := c[i]]
  }

  lemma {:induction false} RootBeforeAll(c: seq<Task>, k: nat)
    requires HeapOrdered(c) && k < |c|
    ensures !Later(c[0], c[k])
  {
    if k > 0 {
      RootBeforeAll(c, Parent(k));
      LaterIsStrictWeakOrder(c[0], c[Parent(k)], c[k]);
    }
  }

  lemma RootIsFirst(c: seq<Task>)
    requires HeapOrdered(c) && c != []
    ensures IsFirst(c[0], multiset(c))
  {
    forall u | u in multiset(c)
      ensures !Later(c[0], u)
    {
      var k :| 0 <= k < |c| && c[k] == u;
      RootBeforeAll(c, k);
    }
  }

  /** Heap-ordered but for position `i`, which may be earlier than its parent. */
  ghost predicate OrderedAbove(c: seq<Task>, i: nat) {
    && (forall k :: 0 < k < |c| && k != i ==> !Later(c[Parent(k)], c[k]))
    && (i > 0 ==> forall k :: 0 < k < |c| && Parent(k) == i && Parent(i) < |c| ==> !Later(c[Parent(i)], c[k]))
  }

  /** Heap-ordered but for position `i`, which may be later than its children. */
  ghost predicate OrderedBelow(c: seq<Task>, i: nat) {
    && (forall k :: 0 < k < |c| && Parent(k) != i ==> !Later(c[Parent(k)], c[k]))
    && (i > 0 ==> forall k :: 0 < k < |c| && Parent(k) == i && Parent(i) < |c| ==> !Later(c[Parent(i)], c[k]))
  }

  lemma RiseStep(c: seq<Task>, i: nat)
    requires 0 < i < |c| && OrderedAbove(c, i) && Later(c[Parent(i)], c[i])
    ensures OrderedAbove(Swap(c, i, Parent(i)), Parent(i))
  {
    var d := Swap(c, i, Parent(i));
    forall k | 0 < k < |d| && k != Parent(i)
      ensures !Later(d[Parent(k)], d[k])
    {
      assert !Later(c[Parent(k)], c[k]) || k == i;
    }
    if Parent(i) > 0 {
      forall k | 0 < k < |d| && Parent(k) == Parent(i)
        ensures !Later(d[Parent(Parent(i))], d[k])
      {
        assert !Later(c[Parent(Parent(i))], c[Parent(i)]);
        assert !Later(c[Parent(k)], c[k]) || k == i;
      }
    }
  }

  lemma SinkStep(c: seq<Task>, i: nat, child: nat)
    requires i < |c| && OrderedBelow(c, i)
    requires 0 < child < |c| && Parent(child) == i && Later(c[i], c[child])
    requires forall k :: 0 < k < |c| && Parent(k) == i ==> !Later(c[child], c[k])
    ensures OrderedBelow(Swap(c, i, child), child)
  {
    var d := Swap(c, i, child);
    forall k | 0 < k < |d| && Parent(k) != child
      ensures !Later(d[Parent(k)], d[k])
    {
      assert Parent(k) != i ==> !Later(c[Parent(k)], c[k]);
    }
    forall k | 0 < k < |d| && Parent(k) == child
      ensures !Later(d[i], d[k])
    {
      assert !Later(c[Parent(k)], c[k]);
    }
  }

  lemma SettledStep(c: seq<Task>, i: nat, child: nat)
    requires i < |c| && OrderedBelow(c, i)
    requires child < |c| && !Later(c[i], c[child])
    requires forall k :: 0 < k < |c| && Parent(k) == i ==> !Later(c[child], c[k])
    ensures HeapOrdered(c)
  {
    forall k | 0 < k < |c|
      ensures !Later(c[Parent(k)], c[k])
    {
      if Parent(k) == i {
        LaterIsStrictWeakOrder(c[i], c[child], c[k]);
      }
    }
  }

  class TaskQueue {
    var c: seq<Task>  // the underlying vector

    ghost predicate Valid()
      reads this
    {
      HeapOrdered(c)
    }

    ghost function Contents(): multiset<Task>
      reads this
    {
      multiset(c)
    }

    constructor ()
      ensures Valid() && Contents() == multiset{}
    {
      c := [];
    }

    method Empty() returns (e: bool)
      ensures e <==> |Contents()| == 0
    {
      e := |c| == 0;
    }

    method Top() returns (t: Task)
      requires Valid() && |Contents()| > 0
      ensures IsFirst(t, Contents())
      ensures forall u :: u in Contents() ==>
                t.startTime < u.startTime || (t.startTime == u.startTime && t.priority <= u.priority)
      ensures t == c[0]
    {
      RootIsFirst(c);
      t := c[0];
    }

    method Push(t: Task)
      requires Valid()
      modifies this
      ensures Valid() && Contents() == old(Contents()) + multiset{t}
    {
      c := c + [t];
      var i := |c| - 1;
      while i > 0 && Later(c[Parent(i)], c[i])
        invariant 0 <= i < |c| && OrderedAbove(c, i)
        invariant Contents() == old(Contents()) + multiset{t}
        decreases i
      {
        RiseStep(c, i);
        c := Swap(c, i, Parent(i));
        i := Parent(i);
      }
    }

    method Pop()
      requires Valid() && |Contents()| > 0
      modifies this
      ensures Valid() && Contents() == old(Contents()) - multiset{old(c[0])}
    {
      DropRoot();
      Sink();
    }

    /** Lets the root sink below every earlier child. */
    method Sink()
      requires OrderedBelow(c, 0)
      modifies this
      ensures Valid() && Contents() == old(Contents())
    {
      var i := 0;
      while 2 * i + 1 < |c|
        invariant 0 <= i && OrderedBelow(c, i)
        invariant Contents() == old(Contents())
        decreases |c| - i
      {
        var child := EarlierChild(i);
        if !Later(c[i], c[child]) {
          SettledStep(c, i, child);
          return;
        }
        SinkStep(c, i, child);
        c := Swap(c, i, child);
        i := child;
      }
      forall k | 0 < k < |c|
        ensures !Later(c[Parent(k)], c[k])
      {
        assert Parent(k) != i;
      }
    }

    method EarlierChild(i: nat) returns (child: nat)
      requires 2 * i + 1 < |c|
      ensures i < child < |c| && Parent(child) == i
      ensures forall k :: 0 < k < |c| && Parent(k) == i ==> !Later(c[child], c[k])
    {
      child := 2 * i + 1;
      if child + 1 < |c| && Later(c[child], c[child + 1]) {
        child := child + 1;
      }
      forall k | 0 < k < |c| && Parent(k) == i
        ensures !Later(c[child], c[k])
      {
        assert k == 2 * i + 1 || k == 2 * i + 2;
      }
    }

    /** The vector's part of a pop: the last task takes the root's place. */
    method DropRoot()
      requires Valid() && |Contents()| > 0
      modifies this
      ensures OrderedBelow(c, 0)
      ensures Contents() == old(Contents()) - multiset{old(c[0])}
    {
      var last := |c| - 1;
      var d := Swap(c, 0, last);
      assert d == d[..last] + [d[last]];
      assert multiset(d) == multiset(d[..last]) + multiset{d[last]};
      c := d[..last];
    }
  }
}
