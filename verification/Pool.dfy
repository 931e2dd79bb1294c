/** `ThreadPool` as an object (scheduler/src/threadpool.cpp): its tasks in an array heap, one method
    for each atomic region, and what each region does to the state of the step relation. */
module Pool {
  import opened TaskOrder
  import opened TaskHeap
  import opened ThreadPool

  class WorkerPool {
    const tasks: TaskQueue
    var stop: bool
    var workers: seq<Worker>
    var clients: seq<Client>
    var owner: Mutex
    var dtor: Destructor
    var clock: int
    ghost var pushed: seq<Task>
    ghost var late: nat
    var executed: seq<Run>

    ghost predicate Valid()
      reads this, tasks
    {
      tasks.Valid() && LockInv(View()) && KnowsInv(View())
    }

    ghost function View(): State
      reads this, tasks
    {
      State(workers, clients, owner, tasks.Contents(), stop, dtor, clock, pushed, late, executed)
    }

    constructor (numThreads: nat, numClients: nat, now: int)
      ensures Valid() && fresh(tasks) && View() == Init(numThreads, numClients, now)
    {
      tasks := new TaskQueue();
      stop, owner, dtor, clock := false, Free, Alive, now;
      workers := seq(numThreads, _ => Want);
      clients := seq(numClients, _ => Idle);
      pushed, late, executed := [], 0, [];
    }

    /** What decides whose step is possible. */
    function Threads(): State
      reads this
    {
      State(workers, clients, owner, multiset{}, stop, dtor, clock, [], 0, executed)
    }

    /** A call of `enqueue`. */
    method CallEnqueue(c: nat, task: Task)
      requires Valid() && Enabled(View(), Begin(c, task))
      modifies this`clients
      ensures Valid() && View() == Do(old(View()), Begin(c, task))
    {
      StepKept(View(), Begin(c, task));
      clients := clients[c := Asks(task)];
    }

    /** The mutex in `enqueue`: lines 48 and 56. */
    method AcquireForClient(c: nat)
      requires Valid() && Enabled(View(), LockC(c))
      modifies this
      ensures Valid() && View() == Do(old(View()), LockC(c))
    {
      StepKept(View(), LockC(c));
      owner := ByClient(c);
      clients := clients[c := Locked(clients[c].task)];
    }

    /** The mutex in the worker loop, on entry and after a wake-up: lines 12-13. */
    method AcquireForWorker(w: nat)
      requires Valid() && Enabled(View(), LockW(w))
      modifies this
      ensures Valid() && View() == Do(old(View()), LockW(w))
    {
      StepKept(View(), LockW(w));
      owner := ByWorker(w);
      workers := workers[w := Check];
    }

    /** The wait: releases the mutex and blocks. */
    method BlockOn(w: nat)
      requires Valid() && Enabled(View(), Block(w))
      modifies this
      ensures Valid() && View() == Do(old(View()), Block(w))
    {
      StepKept(View(), Block(w));
      owner := Free;
      workers := workers[w := Asleep];
    }

    method WakeSpuriously(w: nat)
      requires Valid() && Enabled(View(), Spurious(w))
      modifies this
      ensures Valid() && View() == Do(old(View()), Spurious(w))
    {
      StepKept(View(), Spurious(w));
      workers := workers[w := Want];
    }

    /** `enqueue` under the mutex: lines 49 and 57. */
    method PushTask(c: nat)
      requires Valid() && Enabled(View(), Push(c))
      modifies this, tasks
      ensures Valid() && View() == Do(old(View()), Push(c))
    {
      StepKept(View(), Push(c));
      var task := clients[c].task;
      tasks.Push(task);
      pushed := pushed + [task];
      if stop {
        late := late + 1;
      }
      owner := Free;
      clients := clients[c := Owes];
    }

    /** `notify_one` after the mutex was released: lines 51 and 59. */
    method NotifyOneWorker(c: nat, target: nat)
      requires Valid() && Enabled(View(), NotifyOne(c, target))
      modifies this
      ensures Valid() && View() == Do(old(View()), NotifyOne(c, target))
    {
      StepKept(View(), NotifyOne(c, target));
      clients := clients[c := Idle];
      if target < |workers| && workers[target].Asleep? {
        workers := workers[target := Want];
      }
    }

    /** The predicate of `cv_.wait`: line 13. */
    method EvaluatePredicate(w: nat)
      requires Valid() && Enabled(View(), Evaluate(w))
      modifies this
      ensures Valid() && View() == Do(old(View()), Evaluate(w))
    {
      StepKept(View(), Evaluate(w));
      var ready := stop;
      if !ready {
        var empty := tasks.Empty();
        ready := !empty;
      }
      workers := workers[w := if ready then Ready else Drowsy];
    }

    /** From the predicate to the end of the region: lines 15-20.  The task taken is a first one. */
    method TakeOrReturn(w: nat) returns (ghost a: Action)
      requires Valid() && At(View(), w, Ready)
      modifies this, tasks
      ensures a == Leave(w) || (a.Take? && a.w == w)
      ensures a == Leave(w) <==> old(stop) && |old(tasks.Contents())| == 0
      ensures Enabled(old(View()), a)
      ensures Valid() && View() == Do(old(View()), a)
    {
      assert Knows(View(), workers[w]);
      var empty := tasks.Empty();
      if stop && empty {
        a := Leave(w);
        Return(w);
      } else {
        var task := TakeTop(w);
        a := Take(w, task);
      }
    }

    method Return(w: nat)
      requires Valid() && Enabled(View(), Leave(w))
      modifies this
      ensures Valid() && View() == Do(old(View()), Leave(w))
    {
      StepKept(View(), Leave(w));
      owner := Free;
      workers := workers[w := Returned];
    }

    method TakeTop(w: nat) returns (newTask: Task)
      requires Valid() && At(View(), w, Ready) && |tasks.Contents()| > 0
      modifies this, tasks
      ensures Enabled(old(View()), Take(w, newTask))
      ensures Valid() && View() == Do(old(View()), Take(w, newTask))
    {
      newTask := tasks.Top();
      StepKept(View(), Take(w, newTask));
      tasks.Pop();
      owner := Free;
      workers := workers[w := Hold(newTask)];
    }

    /** Lines 22-25: run at once, or sleep until the start time. */
    method CompareClock(w: nat)
      requires Valid() && Enabled(View(), ReadClock(w))
      modifies this
      ensures Valid() && View() == Do(old(View()), ReadClock(w))
    {
      StepKept(View(), ReadClock(w));
      var task := workers[w].task;
      if clock < task.startTime {
        workers := workers[w := Timed(task)];
      } else {
        workers := workers[w := Running(task)];
      }
    }

    /** The end of `sleep_until`: line 24. */
    method WakeOnTime(w: nat, now: int)
      requires Valid() && Enabled(View(), WakeAt(w, now))
      modifies this
      ensures Valid() && View() == Do(old(View()), WakeAt(w, now))
    {
      StepKept(View(), WakeAt(w, now));
      clock := now;
      workers := workers[w := Running(workers[w].task)];
    }

    method AdvanceClock(now: int)
      requires Valid() && Enabled(View(), Tick(now))
      modifies this`clock
      ensures Valid() && View() == Do(old(View()), Tick(now))
    {
      StepKept(View(), Tick(now));
      clock := now;
    }

    /** Line 31, and back to the loop top. */
    method RunTask(w: nat)
      requires Valid() && Enabled(View(), Execute(w))
      modifies this
      ensures Valid() && View() == Do(old(View()), Execute(w))
    {
      StepKept(View(), Execute(w));
      executed := executed + [Run(workers[w].task, clock)];
      workers := workers[w := Want];
    }

    /** Line 38: stored without the mutex. */
    method StoreStop()
      requires Valid() && Enabled(View(), SetStop)
      modifies this
      ensures Valid() && View() == Do(old(View()), SetStop)
    {
      StepKept(View(), SetStop);
      stop := true;
      dtor := Stopped;
    }

    /** Line 39. */
    method NotifyAllWorkers()
      requires Valid() && Enabled(View(), NotifyAll)
      modifies this
      ensures Valid() && View() == Do(old(View()), NotifyAll)
    {
      StepKept(View(), NotifyAll);
      ghost var was := workers;
      var i := 0;
      while i < |workers|
        invariant 0 <= i <= |workers| == |was|
        invariant forall j :: 0 <= j < i ==> workers[j] == if was[j].Asleep? then Want else was[j]
        invariant forall j :: i <= j < |workers| ==> workers[j] == was[j]
        invariant unchanged(this`stop) && unchanged(this`clients) && unchanged(this`owner) && unchanged(this`dtor)
        invariant unchanged(this`clock) && unchanged(this`pushed) && unchanged(this`late) && unchanged(this`executed)
      {
        if workers[i].Asleep? {
          workers := workers[i := Want];
        }
        i := i + 1;
      }
      dtor := Joining(0);
    }

    /** The next turn of the loop that joins, or its end: lines 40-43. */
    method JoinNext()
      requires Valid() && Enabled(View(), Join)
      modifies this`dtor
      ensures Valid() && View() == Do(old(View()), Join)
    {
      StepKept(View(), Join);
      dtor := if dtor.next < |workers| then Joining(dtor.next + 1) else Gone;
    }

    /** The next step of a thread that can go on.  A worker that is to take a task or to leave does what
        it finds to do, and takes the task that the heap has on top. */
    method Perform(a: Action) returns (ghost did: Action)
      requires Valid() && Placed(View(), a)
      modifies this, tasks
      ensures Enabled(old(View()), did)
      ensures Valid() && View() == Do(old(View()), did)
      ensures did == a || ((a.Take? || a.Leave?) && (did.Take? || did.Leave?) && did.w == a.w)
    {
      did := a;
      match a
      case Begin(c, task) => CallEnqueue(c, task);
      case LockC(c) => AcquireForClient(c);
      case Push(c) => PushTask(c);
      case NotifyOne(c, target) => NotifyOneWorker(c, target);
      case LockW(w) => AcquireForWorker(w);
      case Evaluate(w) => EvaluatePredicate(w);
      case Block(w) => BlockOn(w);
      case Take(w, _) => did := TakeOrReturn(w);
      case Leave(w) => did := TakeOrReturn(w);
      case ReadClock(w) => CompareClock(w);
      case WakeAt(w, now) => WakeOnTime(w, now);
      case Execute(w) => RunTask(w);
      case Spurious(w) => WakeSpuriously(w);
      case SetStop => StoreStop();
      case NotifyAll => NotifyAllWorkers();
      case Join => JoinNext();
      case Tick(now) => AdvanceClock(now);
    }

    /** Performs `a` if it is possible. */
    method Attempt(a: Action) returns (ghost acts: seq<Action>)
      requires Valid()
      modifies this, tasks
      ensures Valid() && Follows(old(View()), [a], acts, View())
    {
      ghost var was := View();
      SamePlace(was, Threads(), a);
      acts := [];
      if Placed(Threads(), a) {
        ghost var did := Perform(a);
        acts := [did];
      }
      FollowsOne(was, a, acts, View());
    }

    /** Runs the pool under a scheduler.  `acts` is the run of the step relation that the object made, on
        an array heap where that knows a multiset: whatever the schedule, no task is lost or doubled, none
        starts early, and at rest or after the destructor the tasks left are those pushed when all workers
        were gone. */
    method RunSchedule(schedule: seq<Action>, ghost numThreads: nat, ghost numClients: nat, ghost now: int)
      returns (ghost acts: seq<Action>)
      requires Valid() && View() == Init(numThreads, numClients, now)
      modifies this, tasks
      ensures Valid() && Follows(Init(numThreads, numClients, now), schedule, acts, View())
      ensures WakeInv(View()) && forall t: Task :: Conserved(View(), t)
      ensures forall i :: 0 <= i < |executed| ==> executed[i].task.startTime <= executed[i].at
      ensures Quiescent(View()) || dtor.Gone? ==>
                && |tasks.Contents()| == Unserved(Init(numThreads, numClients, now), acts)
                && (AllExecutedOnce(View()) <==> |tasks.Contents()| == 0)
      ensures numThreads >= 1 && (Quiescent(View()) || dtor.Gone?) && late == 0 ==> AllExecutedOnce(View())
    {
      acts := Go(schedule);
      FollowsReaches(Init(numThreads, numClients, now), schedule, acts, View());
      RunEnds(numThreads, numClients, now, acts, View());
    }

    method Go(schedule: seq<Action>) returns (ghost acts: seq<Action>)
      requires Valid()
      modifies this, tasks
      ensures Valid() && Follows(old(View()), schedule, acts, View())
    {
      acts := [];
      ghost var start := View();
      var i := 0;
      while i < |schedule|
        invariant 0 <= i <= |schedule| && Valid()
        invariant Follows(start, schedule[..i], acts, View())
      {
        ghost var was, done := View(), schedule[..i];
        ghost var more := Attempt(schedule[i]);
        FollowsJoin(start, done, acts, was, [schedule[i]], more, View());
        assert schedule[..i + 1] == done + [schedule[i]];
        acts := acts + more;
        i := i + 1;
      }
      assert schedule[..i] == schedule;
    }
  }

  /** A worker that is to take a task or to leave does what it finds to do. */
  predicate Stands(a: Action, did: Action) {
    did == a || ((a.Take? || a.Leave?) && (did.Take? || did.Leave?) && did.w == a.w)
  }

  /** The run `acts` from `s` to `s'` follows a schedule: each step that is possible is made, the others
      are skipped. */
  ghost predicate Follows(s: State, schedule: seq<Action>, acts: seq<Action>, s': State)
    decreases |schedule|
  {
    if schedule == [] then acts == [] && s == s'
    else if !Placed(s, schedule[0]) then Follows(s, schedule[1..], acts, s')
    else
      acts != [] && Stands(schedule[0], acts[0]) && Enabled(s, acts[0]) &&
      Follows(Do(s, acts[0]), schedule[1..], acts[1..], s')
  }

  /** A step of the schedule that is possible is the next step of the run; what a worker at its turn to take
      or leave does is its own to find. */
  lemma FollowsFirst(s: State, schedule: seq<Action>, acts: seq<Action>, s': State)
    requires Follows(s, schedule, acts, s') && schedule != []
    ensures !Placed(s, schedule[0]) ==> Follows(s, schedule[1..], acts, s')
    ensures Placed(s, schedule[0]) ==>
              && acts != [] && Enabled(s, acts[0]) && Follows(Do(s, acts[0]), schedule[1..], acts[1..], s')
              && (!schedule[0].Take? && !schedule[0].Leave? ==> acts[0] == schedule[0])
              && (schedule[0].Take? || schedule[0].Leave? ==>
                    (acts[0].Take? || acts[0].Leave?) && acts[0].w == schedule[0].w)
  {
  }

  lemma FollowsOne(s: State, a: Action, acts: seq<Action>, s': State)
    requires if Placed(s, a) then |acts| == 1 && Stands(a, acts[0]) && Enabled(s, acts[0]) && s' == Do(s, acts[0])
             else acts == [] && s' == s
    ensures Follows(s, [a], acts, s')
  {
    assert [a][1..] == [];
  }

  lemma {:induction false} FollowsJoin(s: State, done: seq<Action>, acts: seq<Action>, t: State,
                                       next: seq<Action>, more: seq<Action>, s': State)
    requires Follows(s, done, acts, t) && Follows(t, next, more, s')
    ensures Follows(s, done + next, acts + more, s')
    decreases |done|
  {
    if done == [] {
      assert done + next == next && acts + more == more;
    } else {
      assert (done + next)[1..] == done[1..] + next;
      if Placed(s, done[0]) {
        assert (acts + more)[1..] == acts[1..] + more;
        FollowsJoin(Do(s, acts[0]), done[1..], acts[1..], t, next, more, s');
      } else {
        FollowsJoin(s, done[1..], acts, t, next, more, s');
      }
    }
  }

  lemma {:induction false} FollowsReaches(s: State, schedule: seq<Action>, acts: seq<Action>, s': State)
    requires Follows(s, schedule, acts, s')
    ensures Reaches(s, acts, s') && |acts| <= |schedule|
    decreases |schedule|
  {
    if schedule != [] {
      if Placed(s, schedule[0]) {
        FollowsReaches(Do(s, acts[0]), schedule[1..], acts[1..], s');
      } else {
        FollowsReaches(s, schedule[1..], acts, s');
      }
    }
  }

  lemma SamePlace(s: State, t: State, a: Action)
    requires (s.workers, s.clients, s.owner, s.dtor, s.clock) == (t.workers, t.clients, t.owner, t.dtor, t.clock)
    ensures Placed(s, a) == Placed(t, a)
  {
    assert forall w: nat :: Sleeping(s, w) == Sleeping(t, w);
  }

  lemma RunEnds(numThreads: nat, numClients: nat, now: int, acts: seq<Action>, s: State)
    requires Reaches(Init(numThreads, numClients, now), acts, s)
    ensures WakeInv(s) && forall t: Task :: Conserved(s, t)
    ensures forall i :: 0 <= i < |s.executed| ==> s.executed[i].task.startTime <= s.executed[i].at
    ensures Quiescent(s) || s.dtor.Gone? ==>
              && |s.queue| == Unserved(Init(numThreads, numClients, now), acts)
              && (AllExecutedOnce(s) <==> |s.queue| == 0)
              && (numThreads >= 1 && s.late == 0 ==> AllExecutedOnce(s))
  {
    ReachableInv(numThreads, numClients, now, acts, s);
    NeverEarly(numThreads, numClients, now, acts, s);
    if s.dtor.Gone? {
      DrainingShutdown(numThreads, numClients, now, acts, s);
    } else if Quiescent(s) {
      NoTaskStranded(numThreads, numClients, now, acts, s);
    }
  }

  lemma StepKept(s: State, a: Action)
    requires LockInv(s) && KnowsInv(s) && Enabled(s, a)
    ensures LockInv(Do(s, a)) && KnowsInv(Do(s, a))
  {
    StepLock(s, a);
    StepKnows(s, a);
  }
}
