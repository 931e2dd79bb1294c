/** The worker pool over a priority queue (scheduler/src/threadpool.cpp), for any number of workers
    and any number of threads that enqueue.

    A step is one atomic region of one thread.  The predicate of `cv_.wait` is evaluated under the
    mutex in one step and the thread blocks in another, because `stop_` is stored without the mutex
    and may change in between.  Time passes in `Tick` and while a worker sleeps until a start time. */
module ThreadPool {
  import opened Summation
  import opened TaskOrder

  datatype Worker =
    | Want                   // wants the mutex: loop top, or woken
    | Check                  // holds the mutex, evaluates the predicate
    | Ready                  // holds the mutex, the predicate was true
    | Drowsy                 // holds the mutex, the predicate was false, about to block
    | Asleep                 // blocked on cv_
    | Hold(task: Task)       // popped a task
    | Timed(task: Task)      // sleeps until the task's start time
    | Running(task: Task)
    | Returned

  datatype Client = Idle | Asks(task: Task) | Locked(task: Task) | Owes

  datatype Mutex = Free | ByWorker(w: nat) | ByClient(c: nat)

  datatype Destructor = Alive | Stopped | Joining(next: nat) | Gone

  datatype Run = Run(task: Task, at: int)

  /** `pushed` and `executed` are histories; `late` counts pushes made after `stop_` was set. */
  datatype State = State(
    workers: seq<Worker>, clients: seq<Client>, owner: Mutex, queue: multiset<Task>, stop: bool,
    dtor: Destructor, clock: int, pushed: seq<Task>, late: nat, executed: seq<Run>)

  datatype Action =
    | Begin(c: nat, task: Task)      // a client calls enqueue
    | LockC(c: nat)
    | Push(c: nat)
    | NotifyOne(c: nat, target: nat)
    | LockW(w: nat)
    | Evaluate(w: nat)
    | Block(w: nat)
    | Take(w: nat, task: Task)
    | Leave(w: nat)
    | ReadClock(w: nat)
    | WakeAt(w: nat, now: int)
    | Execute(w: nat)
    | Spurious(w: nat)
    | SetStop
    | NotifyAll
    | Join
    | Tick(now: int)

  function Init(workers: nat, clients: nat, now: int): State {
    State(seq(workers, _ => Want), seq(clients, _ => Idle), Free, multiset{}, false, Alive, now, [], 0, [])
  }

  predicate At(s: State, w: nat, pc: Worker) { w < |s.workers| && s.workers[w] == pc }

  predicate Sleeping(s: State, w: nat) { w < |s.workers| && s.workers[w].Asleep? }

  /** Whether the thread of `a` stands where `a` is its next step, and a lock it takes is free. */
  predicate Placed(s: State, a: Action) {
    match a
    case Begin(c, _) => c < |s.clients| && s.clients[c].Idle? && !s.dtor.Gone?
    case LockC(c) => c < |s.clients| && s.clients[c].Asks? && s.owner.Free?
    case Push(c) => c < |s.clients| && s.clients[c].Locked?
    case NotifyOne(c, t) =>
      c < |s.clients| && s.clients[c].Owes? &&
      (Sleeping(s, t) || forall w :: 0 <= w < |s.workers| ==> !Sleeping(s, w))
    case LockW(w) => At(s, w, Want) && s.owner.Free?
    case Evaluate(w) => At(s, w, Check)
    case Block(w) => At(s, w, Drowsy)
    case Take(w, _) => At(s, w, Ready)
    case Leave(w) => At(s, w, Ready)
    case ReadClock(w) => w < |s.workers| && s.workers[w].Hold?
    case WakeAt(w, now) =>
      w < |s.workers| && s.workers[w].Timed? && now >= s.clock && now >= s.workers[w].task.startTime
    case Execute(w) => w < |s.workers| && s.workers[w].Running?
    case Spurious(w) => Sleeping(s, w)
    case SetStop => s.dtor.Alive?
    case NotifyAll => s.dtor.Stopped?
    case Join =>
      s.dtor.Joining? && (s.dtor.next >= |s.workers| || s.workers[s.dtor.next].Returned?)
    case Tick(now) => now >= s.clock
  }

  ghost predicate Enabled(s: State, a: Action) {
    && Placed(s, a)
    && (a.Take? ==> IsFirst(a.task, s.queue))
    && (a.Leave? ==> s.stop && |s.queue| == 0)
  }

  // ------------------------------------- A step, one variable at a time

  /** Where worker `w` is after the step. */
  function WorkerAfter(s: State, a: Action, w: nat): Worker
    requires w < |s.workers|
  {
    var pc := s.workers[w];
    match a
    case NotifyOne(_, t) => if t == w && pc.Asleep? then Want else pc
    case LockW(v) => if v == w then Check else pc
    case Evaluate(v) => if v == w then (if s.stop || |s.queue| > 0 then Ready else Drowsy) else pc
    case Block(v) => if v == w then Asleep else pc
    case Take(v, t) => if v == w then Hold(t) else pc
    case Leave(v) => if v == w then Returned else pc
    case ReadClock(v) =>
      if v == w && pc.Hold? then (if s.clock < pc.task.startTime then Timed(pc.task) else Running(pc.task)) else pc
    case WakeAt(v, _) => if v == w && pc.Timed? then Running(pc.task) else pc
    case Execute(v) => if v == w then Want else pc
    case Spurious(v) => if v == w then Want else pc
    case NotifyAll => if pc.Asleep? then Want else pc
    case _ => pc
  }

  function ClientAfter(s: State, a: Action, c: nat): Client
    requires c < |s.clients|
  {
    var pc := s.clients[c];
    match a
    case Begin(d, t) => if d == c then Asks(t) else pc
    case LockC(d) => if d == c && pc.Asks? then Locked(pc.task) else pc
    case Push(d) => if d == c then Owes else pc
    case NotifyOne(d, _) => if d == c then Idle else pc
    case _ => pc
  }

  function OwnerAfter(s: State, a: Action): Mutex {
    match a
    case LockC(c) => ByClient(c)
    case LockW(w) => ByWorker(w)
    case Push(_) => Free
    case Block(_) => Free
    case Take(_, _) => Free
    case Leave(_) => Free
    case _ => s.owner
  }

  function QueueAfter(s: State, a: Action): multiset<Task>
    requires a.Push? ==> a.c < |s.clients| && s.clients[a.c].Locked?
  {
    match a
    case Push(c) => s.queue + multiset{s.clients[c].task}
    case Take(_, t) => s.queue - multiset{t}
    case _ => s.queue
  }

  function DestructorAfter(s: State, a: Action): Destructor
    requires a.Join? ==> s.dtor.Joining?
  {
    match a
    case SetStop => Stopped
    case NotifyAll => Joining(0)
    case Join => if s.dtor.next < |s.workers| then Joining(s.dtor.next + 1) else Gone
    case _ => s.dtor
  }

  function ClockAfter(s: State, a: Action): int {
    match a
    case WakeAt(_, now) => now
    case Tick(now) => now
    case _ => s.clock
  }

  function Do(s: State, a: Action): State
    requires Enabled(s, a)
  {
    State(
      seq(|s.workers|, w requires 0 <= w < |s.workers| => WorkerAfter(s, a, w)),
      seq(|s.clients|, c requires 0 <= c < |s.clients| => ClientAfter(s, a, c)),
      OwnerAfter(s, a), QueueAfter(s, a), s.stop || a.SetStop?, DestructorAfter(s, a), ClockAfter(s, a),
      if a.Push? then s.pushed + [s.clients[a.c].task] else s.pushed,
      if a.Push? && s.stop then s.late + 1 else s.late,
      if a.Execute? then s.executed + [Run(s.workers[a.w].task, s.clock)] else s.executed)
  }

  ghost predicate Reaches(s: State, acts: seq<Action>, s': State)
    decreases |acts|
  {
    if acts == [] then s == s'
    else Enabled(s, acts[0]) && Reaches(Do(s, acts[0]), acts[1..], s')
  }

  /** Steps the pool does not take by itself: calls from outside, time, spurious wake-ups. */
  predicate External(a: Action) { a.Begin? || a.SetStop? || a.Tick? || a.Spurious? }

  ghost predicate Quiescent(s: State) {
    forall a: Action :: Enabled(s, a) ==> External(a)
  }

  /** Any sleeper may wake by itself, and be the one that an owed notify wakes. */
  lemma AnySleeperMayWake(s: State, w: nat, c: nat)
    requires Sleeping(s, w) && c < |s.clients| && s.clients[c].Owes?
    ensures Enabled(s, Spurious(w)) && Do(s, Spurious(w)).workers[w].Want?
    ensures Enabled(s, NotifyOne(c, w)) && Do(s, NotifyOne(c, w)).workers[w].Want?
  {
  }

  /** The clock may advance by any amount at any time. */
  lemma TimeMayPass(s: State, now: int)
    requires now >= s.clock
    ensures Enabled(s, Tick(now)) && Do(s, Tick(now)).clock == now
  {
  }

  // ---------------------------------------------------------------- Weights

  function Awake(w: Worker): nat { if w.Want? || w.Check? || w.Ready? then 1 else 0 }

  function OwesNotify(c: Client): nat { if c.Owes? then 1 else 0 }

  function Carries(t: Task): Worker -> nat {
    (w: Worker) => if (w.Hold? || w.Timed? || w.Running?) && w.task == t then 1 else 0
  }

  function IsTask(t: Task): Task -> nat { (u: Task) => if u == t then 1 else 0 }

  function Ran(t: Task): Run -> nat { (r: Run) => if r.task == t then 1 else 0 }

  // ------------------------------------------------- One worker at a time

  function MovedW(s: State, a: Action): int {
    match a
    case NotifyOne(_, t) => if Sleeping(s, t) then t else -1
    case LockW(w) => w
    case Evaluate(w) => w
    case Block(w) => w
    case Take(w, _) => w
    case Leave(w) => w
    case ReadClock(w) => w
    case WakeAt(w, _) => w
    case Execute(w) => w
    case Spurious(w) => w
    case _ => -1
  }

  function MovedC(a: Action): int {
    match a
    case Begin(c, _) => c
    case LockC(c) => c
    case Push(c) => c
    case NotifyOne(c, _) => c
    case _ => -1
  }

  lemma SumStepW(s: State, a: Action, f: Worker -> nat)
    requires Enabled(s, a) && !a.NotifyAll?
    ensures var s' := Do(s, a); var w := MovedW(s, a);
            |s'.workers| == |s.workers| && w < |s.workers| &&
            (w < 0 ==> s'.workers == s.workers) &&
            Sum(s'.workers, f) + (if w < 0 then 0 else f(s.workers[w]))
            == Sum(s.workers, f) + (if w < 0 then 0 else f(WorkerAfter(s, a, w)))
  {
    var w := MovedW(s, a);
    forall v | 0 <= v < |s.workers| && v != w
      ensures Do(s, a).workers[v] == s.workers[v]
    {
      WorkerStays(s, a, v);
    }
    if w >= 0 {
      SumOneMoved(s.workers, Do(s, a).workers, w, f);
    } else {
      assert Do(s, a).workers == s.workers;
    }
  }

  lemma WorkerStays(s: State, a: Action, v: nat)
    requires Enabled(s, a) && !a.NotifyAll? && v < |s.workers| && v != MovedW(s, a)
    ensures WorkerAfter(s, a, v) == s.workers[v]
  {
  }

  lemma SumStepC(s: State, a: Action, f: Client -> nat)
    requires Enabled(s, a)
    ensures var s' := Do(s, a); var c := MovedC(a);
            |s'.clients| == |s.clients| && c < |s.clients| &&
            Sum(s'.clients, f) + (if c < 0 then 0 else f(s.clients[c]))
            == Sum(s.clients, f) + (if c < 0 then 0 else f(ClientAfter(s, a, c)))
  {
    var c := MovedC(a);
    forall d | 0 <= d < |s.clients| && d != c
      ensures Do(s, a).clients[d] == s.clients[d]
    {
      ClientStays(s, a, d);
    }
    if c >= 0 {
      SumOneMoved(s.clients, Do(s, a).clients, c, f);
    } else {
      assert Do(s, a).clients == s.clients;
    }
  }

  lemma ClientStays(s: State, a: Action, d: nat)
    requires Enabled(s, a) && d < |s.clients| && d != MovedC(a)
    ensures ClientAfter(s, a, d) == s.clients[d]
  {
  }

  // -------------------------------------------------------------- Invariant

  function InRegion(w: Worker): bool { w.Check? || w.Ready? || w.Drowsy? }

  /** The mutex is held by exactly the thread inside a critical region. */
  predicate LockInv(s: State) {
    && (forall w :: 0 <= w < |s.workers| ==> (InRegion(s.workers[w]) <==> s.owner == ByWorker(w)))
    && (forall c :: 0 <= c < |s.clients| ==> (s.clients[c].Locked? <==> s.owner == ByClient(c)))
    && (s.owner.ByWorker? ==> s.owner.w < |s.workers|)
    && (s.owner.ByClient? ==> s.owner.c < |s.clients|)
  }

  /** What a worker that evaluated the predicate still knows, the mutex being held. */
  predicate Knows(s: State, w: Worker) {
    (w.Ready? ==> s.stop || |s.queue| > 0) && (w.Drowsy? ==> |s.queue| == 0)
  }

  predicate KnowsInv(s: State) {
    forall w :: 0 <= w < |s.workers| ==> Knows(s, s.workers[w])
  }

  predicate JoinOk(s: State, w: nat)
    requires w < |s.workers|
  {
    && (s.workers[w].Returned? ==> s.stop && (s.late == 0 ==> |s.queue| == 0))
    && (s.dtor.Gone? || (s.dtor.Joining? && w < s.dtor.next) ==> s.workers[w].Returned?)
  }

  predicate StopInv(s: State) {
    && (s.stop <==> !s.dtor.Alive?)
    && (s.late > 0 ==> s.stop)
    && (s.dtor.Joining? ==> s.dtor.next <= |s.workers|)
    && (forall w :: 0 <= w < |s.workers| ==> JoinOk(s, w))
  }

  /** Every task pushed is queued, carried by a worker, or executed: as often as it was pushed. */
  ghost predicate Conserved(s: State, t: Task) {
    Sum(s.pushed, IsTask(t)) == s.queue[t] + Sum(s.workers, Carries(t)) + Sum(s.executed, Ran(t))
  }

  ghost predicate ConservedInv(s: State) { forall t: Task :: Conserved(s, t) }

  /** A sleeping worker leaves no more queued tasks than threads on their way to them. */
  predicate WakeInv(s: State) {
    (exists w :: 0 <= w < |s.workers| && Sleeping(s, w)) ==>
      |s.queue| <= Sum(s.clients, OwesNotify) + Sum(s.workers, Awake)
  }

  predicate Due(r: Run, now: int) { r.task.startTime <= r.at <= now }

  predicate TimeInv(s: State) {
    && (forall w :: 0 <= w < |s.workers| && s.workers[w].Running? ==> s.workers[w].task.startTime <= s.clock)
    && (forall i :: 0 <= i < |s.executed| ==> Due(s.executed[i], s.clock))
  }

  ghost predicate Inv(s: State) {
    LockInv(s) && KnowsInv(s) && StopInv(s) && ConservedInv(s) && WakeInv(s) && TimeInv(s)
  }

  lemma InitInv(workers: nat, clients: nat, now: int)
    ensures Inv(Init(workers, clients, now))
  {
    var s := Init(workers, clients, now);
    forall t: Task
      ensures Conserved(s, t)
    {
      SumZero(s.workers, Carries(t));
    }
  }

  /** Whoever acts inside a region is the holder; so no other thread is inside. */
  lemma RegionOwner(s: State, a: Action)
    requires Enabled(s, a) && LockInv(s)
    ensures a.Evaluate? || a.Block? || a.Take? || a.Leave? ==> s.owner == ByWorker(a.w)
    ensures a.Push? ==> s.owner == ByClient(a.c)
  {
  }

  lemma StepLockW(s: State, a: Action, w: nat)
    requires Enabled(s, a) && LockInv(s) && w < |s.workers|
    ensures InRegion(WorkerAfter(s, a, w)) <==> OwnerAfter(s, a) == ByWorker(w)
  {
    RegionOwner(s, a);
    assert InRegion(s.workers[w]) <==> s.owner == ByWorker(w);
  }

  lemma StepLockC(s: State, a: Action, c: nat)
    requires Enabled(s, a) && LockInv(s) && c < |s.clients|
    ensures ClientAfter(s, a, c).Locked? <==> OwnerAfter(s, a) == ByClient(c)
  {
    RegionOwner(s, a);
    assert s.clients[c].Locked? <==> s.owner == ByClient(c);
  }

  lemma StepLock(s: State, a: Action)
    requires Enabled(s, a) && LockInv(s)
    ensures LockInv(Do(s, a))
  {
    var s' := Do(s, a);
    forall w | 0 <= w < |s'.workers|
      ensures InRegion(s'.workers[w]) <==> s'.owner == ByWorker(w)
    {
      StepLockW(s, a, w);
    }
    forall c | 0 <= c < |s'.clients|
      ensures s'.clients[c].Locked? <==> s'.owner == ByClient(c)
    {
      StepLockC(s, a, c);
    }
  }

  lemma StepKnows(s: State, a: Action)
    requires Enabled(s, a) && LockInv(s) && KnowsInv(s)
    ensures KnowsInv(Do(s, a))
  {
    var s' := Do(s, a);
    forall w | 0 <= w < |s'.workers|
      ensures Knows(s', s'.workers[w])
    {
      StepKnowsAt(s, a, w);
    }
  }

  lemma StepKnowsAt(s: State, a: Action, w: nat)
    requires Enabled(s, a) && LockInv(s) && KnowsInv(s) && w < |s.workers|
    ensures WorkerAfter(s, a, w).Ready? ==> s.stop || |QueueAfter(s, a)| > 0
    ensures WorkerAfter(s, a, w).Drowsy? ==> |QueueAfter(s, a)| == 0
  {
    if a.Push? || a.Take? {
      QueueMoverAlone(s, a, w);
    } else {
      assert QueueAfter(s, a) == s.queue;
      assert Knows(s, s.workers[w]);
    }
  }

  /** Who changes the queue leaves the region, and no worker else is inside. */
  lemma QueueMoverAlone(s: State, a: Action, w: nat)
    requires Enabled(s, a) && LockInv(s) && (a.Push? || a.Take?) && w < |s.workers|
    ensures !InRegion(WorkerAfter(s, a, w))
  {
    RegionOwner(s, a);
    assert InRegion(s.workers[w]) <==> s.owner == ByWorker(w);
  }

  lemma StepReturned(s: State, a: Action, w: nat)
    requires Enabled(s, a) && StopInv(s) && w < |s.workers| && WorkerAfter(s, a, w).Returned?
    ensures s.stop && ((a.Push? || s.late > 0) || |QueueAfter(s, a)| == 0)
  {
    assert JoinOk(s, w);
  }

  lemma StepJoined(s: State, a: Action, w: nat)
    requires Enabled(s, a) && StopInv(s) && w < |s.workers|
    requires var d := DestructorAfter(s, a); d.Gone? || (d.Joining? && w < d.next)
    ensures WorkerAfter(s, a, w).Returned?
  {
    assert JoinOk(s, w);
  }

  lemma StepJoinOk(s: State, a: Action, w: nat)
    requires Enabled(s, a) && StopInv(s) && w < |s.workers|
    ensures |Do(s, a).workers| == |s.workers| && JoinOk(Do(s, a), w)
  {
    var d := DestructorAfter(s, a);
    assert Do(s, a).workers[w] == WorkerAfter(s, a, w) && Do(s, a).dtor == d && Do(s, a).queue == QueueAfter(s, a);
    if WorkerAfter(s, a, w).Returned? {
      StepReturned(s, a, w);
    }
    if d.Gone? || (d.Joining? && w < d.next) {
      StepJoined(s, a, w);
    }
  }

  lemma StepStop(s: State, a: Action)
    requires Enabled(s, a) && StopInv(s)
    ensures StopInv(Do(s, a))
  {
    var s' := Do(s, a);
    forall w | 0 <= w < |s'.workers|
      ensures JoinOk(s', w)
    {
      StepJoinOk(s, a, w);
    }
  }

  lemma StepTimeWorker(s: State, a: Action, w: nat)
    requires Enabled(s, a) && TimeInv(s) && w < |s.workers| && WorkerAfter(s, a, w).Running?
    ensures WorkerAfter(s, a, w).task.startTime <= ClockAfter(s, a)
  {
  }

  lemma StepTime(s: State, a: Action)
    requires Enabled(s, a) && TimeInv(s)
    ensures TimeInv(Do(s, a))
  {
    var s' := Do(s, a);
    forall w | 0 <= w < |s'.workers| && s'.workers[w].Running?
      ensures s'.workers[w].task.startTime <= s'.clock
    {
      StepTimeWorker(s, a, w);
    }
    StepTimeExecuted(s.executed, s'.executed, s.clock, s'.clock);
  }

  lemma StepTimeExecuted(e: seq<Run>, e': seq<Run>, now: int, now': int)
    requires forall i :: 0 <= i < |e| ==> Due(e[i], now)
    requires now <= now'
    requires e' == e || (exists r :: Due(r, now') && e' == e + [r])
    ensures forall i :: 0 <= i < |e'| ==> Due(e'[i], now')
  {
    forall i | 0 <= i < |e'|
      ensures Due(e'[i], now')
    {
      assert i < |e| ==> Due(e[i], now);
    }
  }

  lemma StepWake(s: State, a: Action)
    requires Enabled(s, a) && KnowsInv(s) && WakeInv(s)
    ensures WakeInv(Do(s, a))
  {
    var s' := Do(s, a);
    if w :| 0 <= w < |s'.workers| && Sleeping(s', w) {
      StepSleeper(s, a, w);
      if |s'.queue| > 0 {
        StepComing(s, a, w);
      }
    }
  }

  /** A worker only goes to sleep on an empty queue, and sleeps through no `notify_all`. */
  lemma StepSleeper(s: State, a: Action, w: nat)
    requires Enabled(s, a) && KnowsInv(s) && w < |s.workers| && WorkerAfter(s, a, w).Asleep?
    ensures Sleeping(s, w) || |QueueAfter(s, a)| == 0
    ensures !a.NotifyAll?
  {
    assert Knows(s, s.workers[w]);
  }

  /** While one sleeps, the threads on their way grow with the queue and drop no faster. */
  lemma StepComing(s: State, a: Action, w: nat)
    requires Enabled(s, a) && KnowsInv(s) && Sleeping(s, w) && !a.NotifyAll? && |QueueAfter(s, a)| > 0
    ensures |QueueAfter(s, a)| + Sum(s.clients, OwesNotify) + Sum(s.workers, Awake)
         <= |s.queue| + Sum(Do(s, a).clients, OwesNotify) + Sum(Do(s, a).workers, Awake)
  {
    SumStepW(s, a, Awake);
    SumStepC(s, a, OwesNotify);
    QueueStep(s, a, Task(0, 0, 0, 0));
    if a.Evaluate? {
      assert Enabled(s, a) && |s.queue| > 0;
    }
  }

  function Pushes(s: State, a: Action, t: Task): nat
    requires Enabled(s, a)
  {
    if a.Push? && s.clients[a.c].task == t then 1 else 0
  }

  function Takes(a: Action, t: Task): nat { if a.Take? && a.task == t then 1 else 0 }

  function Executes(s: State, a: Action, t: Task): nat
    requires Enabled(s, a)
  {
    if a.Execute? && s.workers[a.w].task == t then 1 else 0
  }

  lemma HistoryStep(s: State, a: Action, t: Task)
    requires Enabled(s, a)
    ensures Sum(Do(s, a).pushed, IsTask(t)) == Sum(s.pushed, IsTask(t)) + Pushes(s, a, t)
    ensures Sum(Do(s, a).executed, Ran(t)) == Sum(s.executed, Ran(t)) + Executes(s, a, t)
  {
    if a.Push? {
      SumAppend(s.pushed, s.clients[a.c].task, IsTask(t));
    } else if a.Execute? {
      SumAppend(s.executed, Run(s.workers[a.w].task, s.clock), Ran(t));
    }
  }

  lemma QueueStep(s: State, a: Action, t: Task)
    requires Enabled(s, a)
    ensures QueueAfter(s, a)[t] + Takes(a, t) == s.queue[t] + Pushes(s, a, t)
    ensures |QueueAfter(s, a)| + (if a.Take? then 1 else 0) == |s.queue| + (if a.Push? then 1 else 0)
  {
  }

  lemma CarryStep(s: State, a: Action, t: Task)
    requires Enabled(s, a)
    ensures Sum(Do(s, a).workers, Carries(t)) + Executes(s, a, t) == Sum(s.workers, Carries(t)) + Takes(a, t)
  {
    if a.NotifyAll? {
      SumSame(s.workers, Do(s, a).workers, Carries(t), Carries(t));
    } else {
      SumStepW(s, a, Carries(t));
      CarryMoved(s, a, t);
    }
  }

  lemma CarryMoved(s: State, a: Action, t: Task)
    requires Enabled(s, a)
    ensures MovedW(s, a) < 0 ==> Takes(a, t) == Executes(s, a, t) == 0
    ensures var w := MovedW(s, a); 0 <= w ==>
              w < |s.workers| &&
              Carries(t)(WorkerAfter(s, a, w)) + Executes(s, a, t) == Carries(t)(s.workers[w]) + Takes(a, t)
  {
  }

  lemma StepConserved(s: State, a: Action, t: Task)
    requires Enabled(s, a) && Conserved(s, t)
    ensures Conserved(Do(s, a), t)
  {
    HistoryStep(s, a, t);
    QueueStep(s, a, t);
    CarryStep(s, a, t);
  }

  lemma StepKeepsInv(s: State, a: Action)
    requires Inv(s) && Enabled(s, a)
    ensures Inv(Do(s, a)) && |Do(s, a).workers| == |s.workers|
  {
    StepLock(s, a);
    StepKnows(s, a);
    StepStop(s, a);
    StepTime(s, a);
    StepWake(s, a);
    forall t: Task
      ensures Conserved(Do(s, a), t)
    {
      assert Conserved(s, t);
      StepConserved(s, a, t);
    }
  }

  lemma {:induction false} RunKeepsInv(s: State, acts: seq<Action>, s': State)
    requires Inv(s) && Reaches(s, acts, s')
    ensures Inv(s') && |s'.workers| == |s.workers|
    decreases |acts|
  {
    if acts != [] {
      StepKeepsInv(s, acts[0]);
      RunKeepsInv(Do(s, acts[0]), acts[1..], s');
    }
  }

  // ------------------------------------------------------------ Main results

  /** Executed exactly once for every time it was pushed, whatever the task. */
  ghost predicate AllExecutedOnce(s: State) {
    forall t: Task :: Sum(s.pushed, IsTask(t)) == Sum(s.executed, Ran(t))
  }

  /** In every reachable state a sleeping worker leaves no more queued tasks than there are threads on
      their way to them, and every task pushed is queued, carried or executed as often as it was pushed. */
  lemma ReachableInv(workers: nat, clients: nat, now: int, acts: seq<Action>, s: State)
    requires Reaches(Init(workers, clients, now), acts, s)
    ensures WakeInv(s)
    ensures forall t: Task :: Conserved(s, t)
    ensures Inv(s) && |s.workers| == workers
  {
    InitInv(workers, clients, now);
    RunKeepsInv(Init(workers, clients, now), acts, s);
  }

  /** A quiescent pool: the mutex is free, clients are idle, workers sleep or have returned. */
  lemma QuiescentThreads(s: State)
    requires Inv(s) && Quiescent(s)
    ensures s.owner.Free?
    ensures forall c :: 0 <= c < |s.clients| ==> s.clients[c].Idle?
    ensures forall w :: 0 <= w < |s.workers| ==> s.workers[w].Asleep? || s.workers[w].Returned?
    ensures s.dtor.Alive? || s.dtor.Joining? || s.dtor.Gone?
    ensures s.dtor.Joining? ==> s.dtor.next < |s.workers| && s.workers[s.dtor.next].Asleep?
  {
    if s.owner.ByWorker? {
      RegionCanMove(s, s.owner.w);
    }
    assert s.owner.ByClient? ==> Enabled(s, Push(s.owner.c));
    forall c | 0 <= c < |s.clients|
      ensures s.clients[c].Idle?
    {
      var t := if w :| 0 <= w < |s.workers| && Sleeping(s, w) then w else 0;
      assert !Enabled(s, LockC(c)) && !Enabled(s, Push(c)) && !Enabled(s, NotifyOne(c, t));
    }
    forall w | 0 <= w < |s.workers|
      ensures s.workers[w].Asleep? || s.workers[w].Returned?
    {
      if !s.workers[w].Asleep? && !s.workers[w].Returned? {
        OutsideCanMove(s, w);
      }
    }
    assert !Enabled(s, NotifyAll) && !Enabled(s, Join);
  }

  lemma RegionCanMove(s: State, w: nat)
    requires KnowsInv(s) && w < |s.workers| && InRegion(s.workers[w])
    ensures exists a: Action :: Enabled(s, a) && !External(a)
  {
    assert Knows(s, s.workers[w]);
    match s.workers[w]
    case Check => assert Enabled(s, Evaluate(w));
    case Drowsy => assert Enabled(s, Block(w));
    case Ready =>
      if |s.queue| > 0 {
        var t := FirstExists(s.queue);
        assert Enabled(s, Take(w, t));
      } else {
        assert Enabled(s, Leave(w));
      }
  }

  lemma OutsideCanMove(s: State, w: nat)
    requires s.owner.Free? && w < |s.workers|
    requires !InRegion(s.workers[w]) && !s.workers[w].Asleep? && !s.workers[w].Returned?
    ensures exists a: Action :: Enabled(s, a) && !External(a)
  {
    match s.workers[w]
    case Want => assert Enabled(s, LockW(w));
    case Hold(_) => assert Enabled(s, ReadClock(w));
    case Timed(t) => assert Enabled(s, WakeAt(w, if t.startTime > s.clock then t.startTime else s.clock));
    case Running(_) => assert Enabled(s, Execute(w));
    case _ =>
  }

  predicate AllReturned(s: State) { forall w :: 0 <= w < |s.workers| ==> s.workers[w].Returned? }

  /** The pushes of a run that find every worker returned. */
  ghost function Unserved(s: State, acts: seq<Action>): nat
    decreases |acts|
  {
    if acts == [] || !Enabled(s, acts[0]) then 0
    else (if acts[0].Push? && AllReturned(s) then 1 else 0) + Unserved(Do(s, acts[0]), acts[1..])
  }

  lemma ReturnedForGood(s: State, a: Action)
    requires Enabled(s, a) && AllReturned(s)
    ensures AllReturned(Do(s, a))
    ensures |QueueAfter(s, a)| == |s.queue| + (if a.Push? then 1 else 0)
  {
    QueueStep(s, a, Task(0, 0, 0, 0));
  }

  /** The last worker returns on an empty queue. */
  lemma LastLeaves(s: State, a: Action)
    requires Enabled(s, a) && !AllReturned(s) && AllReturned(Do(s, a))
    ensures |QueueAfter(s, a)| == 0 && !a.Push?
  {
    var w :| 0 <= w < |s.workers| && !s.workers[w].Returned?;
    assert Do(s, a).workers[w] == WorkerAfter(s, a, w);
    assert a == Leave(w);
  }

  /** Once all workers are gone the queue holds what was left then and what was pushed since. */
  lemma {:induction false} UnservedLeft(s: State, acts: seq<Action>, s': State)
    requires Reaches(s, acts, s')
    ensures AllReturned(s') ==> |s'.queue| == (if AllReturned(s) then |s.queue| else 0) + Unserved(s, acts)
    ensures !AllReturned(s') ==> !AllReturned(s) && Unserved(s, acts) == 0
    decreases |acts|
  {
    if acts != [] {
      UnservedLeft(Do(s, acts[0]), acts[1..], s');
      if AllReturned(s) {
        ReturnedForGood(s, acts[0]);
      } else if AllReturned(Do(s, acts[0])) {
        LastLeaves(s, acts[0]);
      }
    }
  }

  lemma UnservedFromStart(workers: nat, clients: nat, now: int, acts: seq<Action>, s: State)
    requires Reaches(Init(workers, clients, now), acts, s)
    ensures AllReturned(s) ==> |s.queue| == Unserved(Init(workers, clients, now), acts)
    ensures !AllReturned(s) ==> Unserved(Init(workers, clients, now), acts) == 0
  {
    UnservedLeft(Init(workers, clients, now), acts, s);
  }

  /** No task is stranded: a pool that can do nothing more, spurious wake-ups aside, has in its queue
      exactly as many tasks as were pushed when every worker had returned.  So the queue is empty, and
      every task has run exactly once, iff no push found all workers gone. */
  lemma NoTaskStranded(workers: nat, clients: nat, now: int, acts: seq<Action>, s: State)
    requires Reaches(Init(workers, clients, now), acts, s) && Quiescent(s)
    ensures |s.queue| == Unserved(Init(workers, clients, now), acts)
    ensures AllExecutedOnce(s) <==> Unserved(Init(workers, clients, now), acts) == 0
    ensures (workers >= 1 && s.late == 0) || (exists w :: 0 <= w < |s.workers| && Sleeping(s, w)) ==> |s.queue| == 0
    ensures |s.queue| == 0 <==> AllExecutedOnce(s)
    ensures forall w :: 0 <= w < |s.workers| ==> s.workers[w].Asleep? || (s.workers[w].Returned? && s.stop)
  {
    ReachableInv(workers, clients, now, acts, s);
    RestByWorkers(s);
    UnservedFromStart(workers, clients, now, acts, s);
    if !AllReturned(s) {
      var w :| 0 <= w < |s.workers| && !s.workers[w].Returned?;
      assert Sleeping(s, w);
    }
    EmptyIffExecuted(s);
  }

  lemma RestByWorkers(s: State)
    requires Inv(s) && Quiescent(s)
    ensures (|s.workers| >= 1 && s.late == 0) || (exists w :: 0 <= w < |s.workers| && Sleeping(s, w)) ==> |s.queue| == 0
    ensures forall w :: 0 <= w < |s.workers| ==> s.workers[w].Asleep? || (s.workers[w].Returned? && s.stop)
  {
    QuiescentThreads(s);
    SumZero(s.clients, OwesNotify);
    SumZero(s.workers, Awake);
    if |s.workers| >= 1 {
      assert JoinOk(s, 0);
      assert Sleeping(s, 0) || s.workers[0].Returned?;
    }
    forall w | 0 <= w < |s.workers|
      ensures s.workers[w].Asleep? || (s.workers[w].Returned? && s.stop)
    {
      assert JoinOk(s, w);
    }
  }

  lemma EmptyIffExecuted(s: State)
    requires ConservedInv(s)
    requires forall w :: 0 <= w < |s.workers| ==> s.workers[w].Asleep? || s.workers[w].Returned?
    ensures |s.queue| == 0 <==> AllExecutedOnce(s)
  {
    forall t: Task
      ensures Sum(s.pushed, IsTask(t)) == s.queue[t] + Sum(s.executed, Ran(t))
    {
      assert Conserved(s, t);
      SumZero(s.workers, Carries(t));
    }
    if AllExecutedOnce(s) {
      assert forall t: Task :: s.queue[t] == 0;
      assert s.queue == multiset{};
    }
  }

  /** Draining shutdown: when `~ThreadPool` has returned, the tasks left are as many as were pushed when
      every worker had returned; so all have run, exactly once, iff there was no such push. */
  lemma DrainingShutdown(workers: nat, clients: nat, now: int, acts: seq<Action>, s: State)
    requires Reaches(Init(workers, clients, now), acts, s) && s.dtor.Gone?
    ensures |s.queue| == Unserved(Init(workers, clients, now), acts)
    ensures AllExecutedOnce(s) <==> Unserved(Init(workers, clients, now), acts) == 0
    ensures workers >= 1 && s.late == 0 ==> AllExecutedOnce(s) && |s.queue| == 0
    ensures forall w :: 0 <= w < |s.workers| ==> s.workers[w].Returned?
  {
    ReachableInv(workers, clients, now, acts, s);
    forall w | 0 <= w < |s.workers|
      ensures s.workers[w].Returned?
    {
      assert JoinOk(s, w);
    }
    assert workers >= 1 ==> JoinOk(s, 0);
    UnservedFromStart(workers, clients, now, acts, s);
    EmptyIffExecuted(s);
  }

  /** Under a clock that never goes back no task starts before its start time. */
  lemma NeverEarly(workers: nat, clients: nat, now: int, acts: seq<Action>, s: State)
    requires Reaches(Init(workers, clients, now), acts, s)
    ensures forall i :: 0 <= i < |s.executed| ==> s.executed[i].task.startTime <= s.executed[i].at
  {
    InitInv(workers, clients, now);
    RunKeepsInv(Init(workers, clients, now), acts, s);
    assert forall i :: 0 <= i < |s.executed| ==> Due(s.executed[i], s.clock);
  }

  lemma TakenNotLater(s: State, a: Action, t: Task)
    requires Enabled(s, a) && a.Take? && t in s.queue
    ensures !Later(a.task, t)
  {
  }

  lemma StillQueued(s: State, a: Action, t: Task)
    requires Enabled(s, a) && t in s.queue && (a.Take? ==> a.task != t)
    ensures t in Do(s, a).queue
  {
    QueueStep(s, a, t);
  }

  /** Dispatch order across pushes: as long as a queued task `t` has not been taken, no worker takes a
      task with a later start, or with the same and a greater priority number. */
  lemma {:induction false} EarlierTakenFirst(s: State, acts: seq<Action>, s': State, t: Task, i: nat)
    requires Reaches(s, acts, s') && t in s.queue
    requires forall j :: 0 <= j < |acts| && acts[j].Take? ==> acts[j].task != t
    requires i < |acts| && acts[i].Take?
    ensures acts[i].task.startTime < t.startTime ||
            (acts[i].task.startTime == t.startTime && acts[i].task.priority <= t.priority)
    decreases |acts|
  {
    if i == 0 {
      TakenNotLater(s, acts[0], t);
    } else {
      assert acts[i] == acts[1..][i - 1];
      StillQueued(s, acts[0], t);
      EarlierTakenFirst(Do(s, acts[0]), acts[1..], s', t, i - 1);
    }
  }

  // ---------------------------------------------------------------- Progress

  function WorkW(w: Worker): nat {
    match w
    case Want => 3
    case Check => 2
    case Ready => 1
    case Drowsy => 1
    case Asleep => 0
    case Hold(_) => 6
    case Timed(_) => 5
    case Running(_) => 4
    case Returned => 0
  }

  function WorkC(c: Client): nat {
    match c
    case Idle => 0
    case Asks(_) => 12
    case Locked(_) => 11
    case Owes => 4
  }

  function WorkD(d: Destructor, workers: nat): nat {
    match d
    case Alive => 4 * workers + 4
    case Stopped => 4 * workers + 3
    case Joining(k) => if k <= workers then workers - k + 1 else 0
    case Gone => 0
  }

  /** Queued tasks, carried tasks, live threads and the destructor's remaining steps, weighted. */
  function Work(s: State): nat {
    Sum(s.workers, WorkW) + Sum(s.clients, WorkC) + 6 * |s.queue| + WorkD(s.dtor, |s.workers|)
  }

  function SpentW(s: State, a: Action): int {
    match a
    case Take(_, _) => -5
    case NotifyOne(_, _) => -3
    case Spurious(_) => -3
    case _ => if MovedW(s, a) >= 0 then 1 else 0
  }

  lemma MoveCost(s: State, a: Action)
    requires Enabled(s, a) && MovedW(s, a) >= 0
    ensures MovedW(s, a) < |s.workers|
    ensures WorkW(WorkerAfter(s, a, MovedW(s, a))) + SpentW(s, a) <= WorkW(s.workers[MovedW(s, a)])
  {
  }

  lemma WorkStepW(s: State, a: Action)
    requires Enabled(s, a)
    ensures Sum(Do(s, a).workers, WorkW) + SpentW(s, a)
         <= Sum(s.workers, WorkW) + (if a.NotifyAll? then 3 * |s.workers| else 0)
  {
    if a.NotifyAll? {
      SumRaised(s.workers, Do(s, a).workers, WorkW, 3);
    } else {
      SumStepW(s, a, WorkW);
      if MovedW(s, a) >= 0 {
        MoveCost(s, a);
      }
    }
  }

  function SpentC(a: Action): int {
    if a.Push? then 7 else if a.NotifyOne? then 4 else if a.LockC? then 1 else 0
  }

  lemma WorkStepC(s: State, a: Action)
    requires Enabled(s, a) && !a.Begin?
    ensures Sum(Do(s, a).clients, WorkC) + SpentC(a) <= Sum(s.clients, WorkC)
  {
    SumStepC(s, a, WorkC);
  }

  lemma WorkStepD(s: State, a: Action)
    requires Enabled(s, a) && (s.dtor.Joining? ==> s.dtor.next <= |s.workers|)
    ensures WorkD(DestructorAfter(s, a), |s.workers|)
          + (if a.NotifyAll? then 3 * |s.workers| + 1 else if a.Join? then 1 else 0)
         <= WorkD(s.dtor, |s.workers|)
  {
  }

  /** Every step the pool takes by itself uses up work, before and after `stop_` is set. */
  lemma StepUsesWork(s: State, a: Action)
    requires Enabled(s, a) && StopInv(s) && !External(a)
    ensures Work(Do(s, a)) < Work(s)
  {
    WorkStepC(s, a);
    WorkStepW(s, a);
    WorkStepD(s, a);
    QueueStep(s, a, Task(0, 0, 0, 0));
  }

  /** Left to itself the pool always comes to rest; `WakeAt` stands for the time that passes. */
  lemma {:induction false} RunsToQuiescence(s: State) returns (acts: seq<Action>, s': State)
    requires Inv(s)
    ensures Reaches(s, acts, s') && Quiescent(s') && Inv(s')
    ensures forall i :: 0 <= i < |acts| ==> !External(acts[i])
    decreases Work(s)
  {
    if Quiescent(s) {
      acts, s' := [], s;
    } else {
      var a: Action :| Enabled(s, a) && !External(a);
      StepUsesWork(s, a);
      StepKeepsInv(s, a);
      var rest;
      rest, s' := RunsToQuiescence(Do(s, a));
      acts := [a] + rest;
      assert acts[1..] == rest;
    }
  }

  // ---------------------------------------------------------------- Shutdown

  /** A worker that evaluated the predicate too early to see `stop_`, and will not be notified. */
  predicate Missed(s: State) {
    exists w :: 0 <= w < |s.workers| && (s.workers[w].Drowsy? || s.workers[w].Asleep?)
  }

  predicate ClientsIdle(s: State) { forall c :: 0 <= c < |s.clients| ==> s.clients[c].Idle? }

  /** Once `stop_` is set no worker falls asleep that had not already evaluated the predicate. */
  lemma NoNewSleeper(s: State, a: Action, w: nat)
    requires Enabled(s, a) && s.stop && w < |s.workers|
    requires WorkerAfter(s, a, w).Drowsy? || WorkerAfter(s, a, w).Asleep?
    ensures s.workers[w].Drowsy? || s.workers[w].Asleep?
  {
  }

  /** Steps of a pool that is shutting down: no call from outside and no spurious wake-up. */
  predicate Undisturbed(acts: seq<Action>) {
    forall i :: 0 <= i < |acts| ==> !acts[i].Begin? && !acts[i].Spurious?
  }

  lemma {:induction false} MissedStays(s: State, acts: seq<Action>, s': State)
    requires Inv(s) && Reaches(s, acts, s') && Undisturbed(acts)
    requires (s.dtor.Joining? || s.dtor.Gone?) && ClientsIdle(s)
    ensures Missed(s') <==> Missed(s)
    ensures s'.dtor.Joining? || s'.dtor.Gone?
    decreases |acts|
  {
    if acts != [] {
      var a := acts[0];
      assert !a.Begin? && !a.Spurious?;
      MissedStep(s, a);
      StepKeepsInv(s, a);
      assert Undisturbed(acts[1..]);
      MissedStays(Do(s, a), acts[1..], s');
    }
  }

  lemma SleeperStays(s: State, a: Action, w: nat)
    requires Enabled(s, a) && !a.Spurious? && !a.NotifyOne? && !a.NotifyAll? && w < |s.workers|
    requires s.workers[w].Drowsy? || s.workers[w].Asleep?
    ensures WorkerAfter(s, a, w).Drowsy? || WorkerAfter(s, a, w).Asleep?
  {
  }

  lemma MissedStepBack(s: State, a: Action)
    requires Enabled(s, a) && s.stop && Missed(Do(s, a))
    ensures Missed(s)
  {
    var t := Do(s, a);
    var w :| 0 <= w < |t.workers| && (t.workers[w].Drowsy? || t.workers[w].Asleep?);
    NoNewSleeper(s, a, w);
  }

  lemma MissedStepOn(s: State, a: Action)
    requires Enabled(s, a) && !a.Spurious? && !a.NotifyOne? && !a.NotifyAll? && Missed(s)
    ensures Missed(Do(s, a))
  {
    var w :| 0 <= w < |s.workers| && (s.workers[w].Drowsy? || s.workers[w].Asleep?);
    SleeperStays(s, a, w);
    assert Do(s, a).workers[w] == WorkerAfter(s, a, w);
  }

  lemma IdleStep(s: State, a: Action)
    requires Enabled(s, a) && !a.Begin? && ClientsIdle(s)
    ensures !a.NotifyOne? && !a.Push? && !a.LockC?
    ensures ClientsIdle(Do(s, a))
  {
    forall c | 0 <= c < |s.clients|
      ensures ClientAfter(s, a, c).Idle?
    {
      assert s.clients[c].Idle?;
      ClientStays(s, a, c);
    }
  }

  lemma MissedStep(s: State, a: Action)
    requires StopInv(s) && Enabled(s, a) && !a.Begin? && !a.Spurious?
    requires (s.dtor.Joining? || s.dtor.Gone?) && ClientsIdle(s)
    ensures Missed(Do(s, a)) <==> Missed(s)
    ensures Do(s, a).dtor.Joining? || Do(s, a).dtor.Gone?
    ensures ClientsIdle(Do(s, a))
  {
    IdleStep(s, a);
    assert !a.NotifyAll?;
    if Missed(s) {
      MissedStepOn(s, a);
    }
    if Missed(Do(s, a)) {
      MissedStepBack(s, a);
    }
  }

  lemma NotifyMissed(s: State)
    requires Enabled(s, NotifyAll)
    ensures Missed(Do(s, NotifyAll)) <==> exists w :: 0 <= w < |s.workers| && s.workers[w].Drowsy?
  {
    var t := Do(s, NotifyAll);
    assert forall w :: 0 <= w < |s.workers| ==>
        !t.workers[w].Asleep? && (t.workers[w].Drowsy? <==> s.workers[w].Drowsy?);
  }

  lemma RestIsGoneIff(s: State)
    requires Inv(s) && Quiescent(s) && (s.dtor.Joining? || s.dtor.Gone?)
    ensures s.dtor.Gone? <==> !Missed(s)
  {
    QuiescentThreads(s);
    if w :| 0 <= w < |s.workers| && (s.workers[w].Drowsy? || s.workers[w].Asleep?) {
      assert JoinOk(s, w);
    }
  }

  lemma NotifyKeeps(s: State)
    requires Enabled(s, NotifyAll)
    ensures var t := Do(s, NotifyAll); t.clients == s.clients && t.dtor == Joining(0)
  {
  }

  lemma RestAfterNotify(s: State, acts: seq<Action>, s': State)
    requires Inv(s) && s.dtor.Stopped? && ClientsIdle(s)
    requires Reaches(Do(s, NotifyAll), acts, s') && Undisturbed(acts) && Quiescent(s')
    ensures s'.dtor.Gone? <==> !Missed(Do(s, NotifyAll))
  {
    var t := Do(s, NotifyAll);
    NotifyKeeps(s);
    StepKeepsInv(s, NotifyAll);
    RunKeepsInv(t, acts, s');
    MissedStays(t, acts, s');
    RestIsGoneIff(s');
  }

  /** Whether shutdown completes is decided at the moment of `notify_all` when no call and no spurious
      wake-up comes in: run from there to rest, the destructor has returned iff no worker stood between a
      false predicate and blocking.  Setting `stop_` inside the mutex would rule that state out; the
      code sets it outside. */
  lemma UndisturbedShutdownIff(workers: nat, clients: nat, now: int, before: seq<Action>, s: State,
                               acts: seq<Action>, s': State)
    requires Reaches(Init(workers, clients, now), before, s)
    requires s.dtor.Stopped? && ClientsIdle(s)
    requires Reaches(Do(s, NotifyAll), acts, s') && Undisturbed(acts) && Quiescent(s')
    ensures s'.dtor.Gone? <==> forall w :: 0 <= w < |s.workers| ==> !s.workers[w].Drowsy?
  {
    ReachableInv(workers, clients, now, before, s);
    NotifyMissed(s);
    RestAfterNotify(s, acts, s');
  }

  /** A step that wakes worker `w`. */
  predicate Wakes(s: State, a: Action, w: nat) {
    Sleeping(s, w) && (a == Spurious(w) || (a.NotifyOne? && a.target == w))
  }

  /** Worker `w` is woken in the course of the run. */
  ghost predicate WokenIn(s: State, acts: seq<Action>, w: nat)
    decreases |acts|
  {
    acts != [] && Enabled(s, acts[0]) && (Wakes(s, acts[0], w) || WokenIn(Do(s, acts[0]), acts[1..], w))
  }

  lemma MissedStepIff(s: State, a: Action, w: nat)
    requires Enabled(s, a) && s.stop && !a.NotifyAll? && w < |s.workers|
    ensures MissedAt(Do(s, a), w) <==> MissedAt(s, w) && !Wakes(s, a, w)
  {
    assert Do(s, a).workers[w] == WorkerAfter(s, a, w);
    if MissedAt(Do(s, a), w) {
      NoNewSleeper(s, a, w);
    }
  }

  /** After `notify_all` a worker has missed `stop_` for good unless it is woken. */
  lemma {:induction false} MissedUnlessWoken(s: State, acts: seq<Action>, s': State, w: nat)
    requires Inv(s) && (s.dtor.Joining? || s.dtor.Gone?) && w < |s.workers| && Reaches(s, acts, s')
    ensures MissedAt(s', w) <==> MissedAt(s, w) && !WokenIn(s, acts, w)
    decreases |acts|
  {
    if acts != [] {
      MissedStepIff(s, acts[0], w);
      StepKeepsInv(s, acts[0]);
      MissedUnlessWoken(Do(s, acts[0]), acts[1..], s', w);
    }
  }

  /** Every shutdown, run by run: at rest the destructor has returned iff the worker that stood between a
      false predicate and blocking at `notify_all`, if any, was woken after all. */
  lemma ShutdownCompletesIff(workers: nat, clients: nat, now: int, before: seq<Action>, s: State,
                             acts: seq<Action>, s': State)
    requires Reaches(Init(workers, clients, now), before, s) && s.dtor.Stopped?
    requires Reaches(Do(s, NotifyAll), acts, s') && Quiescent(s')
    ensures s'.dtor.Gone? <==>
              forall w :: 0 <= w < |s.workers| && s.workers[w].Drowsy? ==> WokenIn(Do(s, NotifyAll), acts, w)
  {
    ReachableInv(workers, clients, now, before, s);
    RestAfterMissed(s, acts, s');
  }

  lemma RestAfterMissed(s: State, acts: seq<Action>, s': State)
    requires Inv(s) && s.dtor.Stopped? && Reaches(Do(s, NotifyAll), acts, s') && Quiescent(s')
    ensures s'.dtor.Gone? <==>
              forall w :: 0 <= w < |s.workers| && s.workers[w].Drowsy? ==> WokenIn(Do(s, NotifyAll), acts, w)
  {
    var t := Do(s, NotifyAll);
    StepKeepsInv(s, NotifyAll);
    RunKeepsInv(t, acts, s');
    SameDestructor(t, acts, s');
    RestIsGoneIff(s');
    forall w: nat | w < |s.workers|
      ensures MissedAt(s', w) <==> s.workers[w].Drowsy? && !WokenIn(t, acts, w)
    {
      DrowsyUnlessWoken(s, acts, s', w);
    }
    assert Missed(s') <==> exists w: nat :: w < |s'.workers| && MissedAt(s', w);
  }

  lemma DrowsyUnlessWoken(s: State, acts: seq<Action>, s': State, w: nat)
    requires Inv(s) && s.dtor.Stopped? && Reaches(Do(s, NotifyAll), acts, s') && w < |s.workers|
    ensures MissedAt(s', w) <==> s.workers[w].Drowsy? && !WokenIn(Do(s, NotifyAll), acts, w)
  {
    var t := Do(s, NotifyAll);
    StepKeepsInv(s, NotifyAll);
    assert t.workers[w] == WorkerAfter(s, NotifyAll, w);
    MissedUnlessWoken(t, acts, s', w);
  }

  lemma {:induction false} SameDestructor(s: State, acts: seq<Action>, s': State)
    requires Reaches(s, acts, s') && (s.dtor.Joining? || s.dtor.Gone?)
    ensures s'.dtor.Joining? || s'.dtor.Gone?
    decreases |acts|
  {
    if acts != [] {
      SameDestructor(Do(s, acts[0]), acts[1..], s');
    }
  }

  predicate NoneDrowsy(s: State) { forall w :: 0 <= w < |s.workers| ==> !s.workers[w].Drowsy? }

  /** Some call of `enqueue` waits for the mutex. */
  predicate SomeAsks(s: State) { exists c :: 0 <= c < |s.clients| && s.clients[c].Asks? }

  /** Some call of `enqueue` has still to take the mutex, or holds it, or has its notify to come with no
      worker about to block: its notify will reach a worker that missed `stop_`. */
  predicate Rescue(s: State) {
    exists c :: 0 <= c < |s.clients| && Rescues(s, s.clients[c])
  }

  predicate Rescues(s: State, c: Client) { c.Asks? || c.Locked? || (c.Owes? && NoneDrowsy(s)) }

  predicate MissedAt(s: State, w: nat) {
    w < |s.workers| && (s.workers[w].Drowsy? || s.workers[w].Asleep?)
  }

  /** With `stop_` set, at most one worker has missed it, and that one will be reached. */
  predicate Informed(s: State) {
    && s.stop
    && (forall v, w :: 0 <= v < w < |s.workers| ==> !(MissedAt(s, v) && MissedAt(s, w)))
    && (Missed(s) ==> Rescue(s))
  }

  lemma RescueStep(s: State, a: Action, c: nat)
    requires Enabled(s, a) && LockInv(s) && Informed(s)
    requires c < |s.clients| && Rescues(s, s.clients[c]) && Missed(Do(s, a))
    ensures |Do(s, a).clients| == |s.clients| && Rescues(Do(s, a), ClientAfter(s, a, c))
  {
    var t := Do(s, a);
    RegionOwner(s, a);
    var w :| 0 <= w < |t.workers| && (t.workers[w].Drowsy? || t.workers[w].Asleep?);
    NoNewSleeper(s, a, w);
    assert MissedAt(s, w);
    forall v | 0 <= v < |t.workers| && t.workers[v].Drowsy?
      ensures s.workers[v].Drowsy?
    {
      assert t.workers[v] == WorkerAfter(s, a, v);
    }
    if s.clients[c].Locked? {
      assert NoneDrowsy(s);
    }
    if s.clients[c].Owes? && a.NotifyOne? && a.c == c {
      assert Sleeping(s, w);
      assert MissedAt(s, a.target);
      assert false;
    }
  }

  lemma InformedStep(s: State, a: Action)
    requires Enabled(s, a) && LockInv(s) && Informed(s)
    ensures Informed(Do(s, a))
  {
    var t := Do(s, a);
    forall w: nat | MissedAt(t, w)
      ensures MissedAt(s, w)
    {
      NoNewSleeper(s, a, w);
    }
    InformedRescue(s, a);
  }

  lemma InformedRescue(s: State, a: Action)
    requires Enabled(s, a) && LockInv(s) && Informed(s)
    ensures Missed(Do(s, a)) ==> Rescue(Do(s, a))
  {
    var t := Do(s, a);
    if Missed(t) {
      MissedStepBack(s, a);
      var c :| 0 <= c < |s.clients| && Rescues(s, s.clients[c]);
      RescueStep(s, a, c);
      assert Rescues(t, t.clients[c]);
    }
  }

  lemma {:induction false} InformedStays(s: State, acts: seq<Action>, s': State)
    requires Inv(s) && Informed(s) && Reaches(s, acts, s')
    ensures Inv(s') && Informed(s')
    decreases |acts|
  {
    if acts != [] {
      InformedStep(s, acts[0]);
      StepKeepsInv(s, acts[0]);
      InformedStays(Do(s, acts[0]), acts[1..], s');
    }
  }

  lemma InformedByNotify(s: State)
    requires Inv(s) && Enabled(s, NotifyAll)
    requires NoneDrowsy(s) || SomeAsks(s)
    ensures Informed(Do(s, NotifyAll))
  {
    var t := Do(s, NotifyAll);
    forall v: nat | MissedAt(t, v)
      ensures s.owner == ByWorker(v) && s.workers[v].Drowsy?
    {
      assert t.workers[v] == WorkerAfter(s, NotifyAll, v);
      assert InRegion(s.workers[v]);
    }
    if Missed(t) {
      var w :| 0 <= w < |t.workers| && (t.workers[w].Drowsy? || t.workers[w].Asleep?);
      assert MissedAt(t, w);
      var c :| 0 <= c < |s.clients| && s.clients[c].Asks?;
      assert Rescues(t, t.clients[c]);
    }
  }

  /** The destructor is not left behind at rest by workers that are informed. */
  lemma InformedRest(s: State)
    requires Inv(s) && Informed(s) && Quiescent(s)
    ensures s.dtor.Gone?
  {
    QuiescentThreads(s);
    assert !Rescue(s);
    RestIsGoneIff(s);
  }

  /** Shutdown completes, whoever enqueues meanwhile and whatever wake-ups are spurious, when at
      `notify_all` no worker stands between a false predicate and blocking, or some call of `enqueue` is
      still waiting for the mutex. */
  lemma ShutdownCompletes(workers: nat, clients: nat, now: int, before: seq<Action>, s: State,
                          acts: seq<Action>, s': State)
    requires Reaches(Init(workers, clients, now), before, s) && s.dtor.Stopped?
    requires NoneDrowsy(s) || SomeAsks(s)
    requires Reaches(Do(s, NotifyAll), acts, s') && Quiescent(s')
    ensures s'.dtor.Gone?
  {
    ReachableInv(workers, clients, now, before, s);
    StepKeepsInv(s, NotifyAll);
    InformedByNotify(s);
    InformedStays(Do(s, NotifyAll), acts, s');
    InformedRest(s');
  }

  /** From `stop_ = true` on: what makes shutdown complete, before and after `notify_all`. */
  predicate Sure(s: State) {
    s.stop && if s.dtor.Stopped? then NoneDrowsy(s) || SomeAsks(s) else Informed(s)
  }

  /** Before `notify_all` a worker about to block keeps the mutex from the calls that wait for it. */
  lemma StoppedStep(s: State, a: Action)
    requires Enabled(s, a) && LockInv(s) && s.stop && (NoneDrowsy(s) || SomeAsks(s))
    ensures NoneDrowsy(Do(s, a)) || SomeAsks(Do(s, a))
  {
    var t := Do(s, a);
    if w :| 0 <= w < |t.workers| && t.workers[w].Drowsy? {
      assert t.workers[w] == WorkerAfter(s, a, w);
      assert s.workers[w].Drowsy? && InRegion(s.workers[w]);
      var c :| 0 <= c < |s.clients| && s.clients[c].Asks?;
      assert t.clients[c] == ClientAfter(s, a, c);
    }
  }

  lemma SureStep(s: State, a: Action)
    requires Inv(s) && Enabled(s, a) && Sure(s)
    ensures Sure(Do(s, a))
  {
    if s.dtor.Stopped? {
      if a.NotifyAll? {
        InformedByNotify(s);
      } else {
        StoppedStep(s, a);
      }
    } else {
      InformedStep(s, a);
    }
  }

  lemma {:induction false} SureStays(s: State, acts: seq<Action>, s': State)
    requires Inv(s) && Sure(s) && Reaches(s, acts, s')
    ensures Inv(s') && Sure(s')
    decreases |acts|
  {
    if acts != [] {
      SureStep(s, acts[0]);
      StepKeepsInv(s, acts[0]);
      SureStays(Do(s, acts[0]), acts[1..], s');
    }
  }

  /** What the caller of the destructor can see before the call: if no worker then stands between a false
      predicate and blocking, or some call of `enqueue` waits for the mutex, shutdown completes, whatever
      happens in between. */
  lemma ShutdownCompletesFromStop(workers: nat, clients: nat, now: int, before: seq<Action>, s: State,
                                  acts: seq<Action>, s': State)
    requires Reaches(Init(workers, clients, now), before, s) && s.dtor.Alive?
    requires NoneDrowsy(s) || SomeAsks(s)
    requires Reaches(Do(s, SetStop), acts, s') && Quiescent(s')
    ensures s'.dtor.Gone?
  {
    ReachableInv(workers, clients, now, before, s);
    StopKeeps(s);
    SureStays(Do(s, SetStop), acts, s');
    QuiescentThreads(s');
    InformedRest(s');
  }

  lemma StopKeeps(s: State)
    requires Inv(s) && Enabled(s, SetStop)
    ensures var t := Do(s, SetStop);
            && Inv(t) && t.stop && t.dtor.Stopped?
            && (NoneDrowsy(t) <==> NoneDrowsy(s)) && (SomeAsks(t) <==> SomeAsks(s))
  {
    StepKeepsInv(s, SetStop);
    var t := Do(s, SetStop);
    assert t.workers == s.workers && t.clients == s.clients;
  }

  lemma NotifyLost(s: State, a: Action)
    requires Enabled(s, a) && a.NotifyOne? && forall w :: 0 <= w < |s.workers| ==> !Sleeping(s, w)
    ensures var t := Do(s, a);
            && t.workers == s.workers && t.dtor == s.dtor && Sum(t.clients, OwesNotify) < Sum(s.clients, OwesNotify)
            && |t.clients| == |s.clients|
            && forall c :: 0 <= c < |s.clients| ==> t.clients[c] == if c == a.c then Idle else s.clients[c]
  {
    SumStepC(s, a, OwesNotify);
    SumStepW(s, a, Awake);
  }

  /** Calls that only owe their notify may give it before the worker that missed `stop_` blocks. */
  lemma {:induction false} HangRun(s: State) returns (acts: seq<Action>, s': State)
    requires Inv(s) && s.dtor.Joining? && Missed(s)
    requires forall w :: 0 <= w < |s.workers| ==> !s.workers[w].Asleep?
    requires forall c :: 0 <= c < |s.clients| ==> s.clients[c].Idle? || s.clients[c].Owes?
    ensures Reaches(s, acts, s') && Quiescent(s') && !s'.dtor.Gone?
    decreases Sum(s.clients, OwesNotify)
  {
    if c :| 0 <= c < |s.clients| && s.clients[c].Owes? {
      var a := NotifyOne(c, 0);
      NotifyLost(s, a);
      StepKeepsInv(s, a);
      var rest;
      rest, s' := HangRun(Do(s, a));
      acts := [a] + rest;
      assert acts[1..] == rest;
    } else {
      acts, s' := RunsToQuiescence(s);
      assert Undisturbed(acts) by {
        assert forall i :: 0 <= i < |acts| ==> !External(acts[i]);
      }
      MissedStays(s, acts, s');
      RestIsGoneIff(s');
    }
  }

  /** Some run from `notify_all` comes to rest with the destructor still waiting. */
  ghost predicate CanHang(s: State)
    requires Enabled(s, NotifyAll)
  {
    exists acts, s' :: Reaches(Do(s, NotifyAll), acts, s') && Quiescent(s') && !s'.dtor.Gone?
  }

  /** The exact condition, for any calls under way: shutdown can hang iff at `notify_all` some worker
      stands between a false predicate and blocking, and no call of `enqueue` waits for the mutex. */
  lemma ShutdownCanHangIff(workers: nat, clients: nat, now: int, before: seq<Action>, s: State)
    requires Reaches(Init(workers, clients, now), before, s) && s.dtor.Stopped?
    ensures CanHang(s) <==> !NoneDrowsy(s) && !SomeAsks(s)
  {
    if CanHang(s) {
      var acts, s' :| Reaches(Do(s, NotifyAll), acts, s') && Quiescent(s') && !s'.dtor.Gone?;
      if NoneDrowsy(s) || SomeAsks(s) {
        ShutdownCompletes(workers, clients, now, before, s, acts, s');
        assert false;
      }
    }
    if !NoneDrowsy(s) && !SomeAsks(s) {
      ReachableInv(workers, clients, now, before, s);
      HangFrom(s);
    }
  }

  lemma HangFrom(s: State)
    requires Inv(s) && s.dtor.Stopped? && !NoneDrowsy(s) && !SomeAsks(s)
    ensures CanHang(s)
  {
    var t := Do(s, NotifyAll);
    var w :| 0 <= w < |s.workers| && s.workers[w].Drowsy?;
    assert InRegion(s.workers[w]) && s.owner == ByWorker(w);
    NotifyMissed(s);
    StepKeepsInv(s, NotifyAll);
    assert t.clients == s.clients;
    var acts, s' := HangRun(t);
  }

  /** Some run from `stop_ = true` comes to rest with the destructor still waiting. */
  ghost predicate CanHangFromStop(s: State)
    requires Enabled(s, SetStop)
  {
    exists acts, s' :: Reaches(Do(s, SetStop), acts, s') && Quiescent(s') && !s'.dtor.Gone?
  }

  /** The exact condition at the call of the destructor, for any calls under way: shutdown can hang iff, as
      `stop_` is stored, some worker stands between a false predicate and blocking, and no call of
      `enqueue` waits for the mutex. */
  lemma ShutdownCanHangFromStopIff(workers: nat, clients: nat, now: int, before: seq<Action>, s: State)
    requires Reaches(Init(workers, clients, now), before, s) && s.dtor.Alive?
    ensures CanHangFromStop(s) <==> !NoneDrowsy(s) && !SomeAsks(s)
  {
    if CanHangFromStop(s) {
      var acts, s' :| Reaches(Do(s, SetStop), acts, s') && Quiescent(s') && !s'.dtor.Gone?;
      if NoneDrowsy(s) || SomeAsks(s) {
        ShutdownCompletesFromStop(workers, clients, now, before, s, acts, s');
        assert false;
      }
    }
    if !NoneDrowsy(s) && !SomeAsks(s) {
      ReachableInv(workers, clients, now, before, s);
      StopKeeps(s);
      HangFrom(Do(s, SetStop));
      HangEarlier(s);
    }
  }

  lemma HangEarlier(s: State)
    requires Enabled(s, SetStop) && Enabled(Do(s, SetStop), NotifyAll) && CanHang(Do(s, SetStop))
    ensures CanHangFromStop(s)
  {
    var t := Do(s, SetStop);
    var acts, s' :| Reaches(Do(t, NotifyAll), acts, s') && Quiescent(s') && !s'.dtor.Gone?;
    assert ([NotifyAll] + acts)[1..] == acts;
    assert Reaches(t, [NotifyAll] + acts, s');
  }

  // ------------------------------------------------- What the conditions rule out

  lemma {:induction false} ReachesSnoc(s: State, acts: seq<Action>, t: State, a: Action)
    requires Reaches(s, acts, t) && Enabled(t, a)
    ensures Reaches(s, acts + [a], Do(t, a))
    decreases |acts|
  {
    if acts == [] {
      assert ([] + [a])[1..] == [];
      assert Reaches(Do(s, a), [], Do(t, a));
    } else {
      assert (acts + [a])[1..] == acts[1..] + [a];
      ReachesSnoc(Do(s, acts[0]), acts[1..], t, a);
    }
  }

  /** One more step of a run, with the state it leads to. */
  lemma Extend(s0: State, acts: seq<Action>, s: State, a: Action, t: State)
    requires Reaches(s0, acts, s) && Enabled(s, a)
    requires t.(workers := s.workers, clients := s.clients) == Do(s, a).(workers := s.workers, clients := s.clients)
    requires |t.workers| == |s.workers| && forall w :: 0 <= w < |s.workers| ==> t.workers[w] == WorkerAfter(s, a, w)
    requires |t.clients| == |s.clients| && forall c :: 0 <= c < |s.clients| ==> t.clients[c] == ClientAfter(s, a, c)
    ensures Reaches(s0, acts + [a], t)
  {
    OneStep(s, a, t);
    ReachesSnoc(s0, acts, s, a);
  }

  lemma OneStep(s: State, a: Action, t: State)
    requires Enabled(s, a)
    requires t.(workers := s.workers, clients := s.clients) == Do(s, a).(workers := s.workers, clients := s.clients)
    requires |t.workers| == |s.workers| && forall w :: 0 <= w < |s.workers| ==> t.workers[w] == WorkerAfter(s, a, w)
    requires |t.clients| == |s.clients| && forall c :: 0 <= c < |s.clients| ==> t.clients[c] == ClientAfter(s, a, c)
    ensures t == Do(s, a)
  {
    assert t.workers == Do(s, a).workers && t.clients == Do(s, a).clients;
  }

  /** One worker, holding the mutex. */
  function OneLocked(clients: nat, now: int): State {
    Init(1, clients, now).(workers := [Check], owner := ByWorker(0))
  }

  /** Its predicate was false, then `stop_` was stored. */
  function StopMissed(now: int): State {
    OneLocked(0, now).(workers := [Drowsy], stop := true, dtor := Stopped)
  }

  /** `stop_` was stored first, the worker saw it and returned. */
  function StopSeen(now: int): State {
    OneLocked(1, now).(workers := [Returned], owner := Free, stop := true, dtor := Stopped)
  }

  lemma ReachLocked(clients: nat, now: int)
    ensures Reaches(Init(1, clients, now), [LockW(0)], OneLocked(clients, now))
  {
    var s0 := Init(1, clients, now);
    assert [] + [LockW(0)] == [LockW(0)];
    Extend(s0, [], s0, LockW(0), OneLocked(clients, now));
  }

  lemma ReachMissed(now: int) returns (acts: seq<Action>)
    ensures Reaches(Init(1, 0, now), acts, StopMissed(now))
  {
    ReachLocked(0, now);
    var s1 := OneLocked(0, now);
    var s2 := s1.(workers := [Drowsy]);
    Extend(Init(1, 0, now), [LockW(0)], s1, Evaluate(0), s2);
    Extend(Init(1, 0, now), [LockW(0)] + [Evaluate(0)], s2, SetStop, StopMissed(now));
    acts := [LockW(0)] + [Evaluate(0)] + [SetStop];
  }

  lemma ReachSeen(now: int) returns (acts: seq<Action>)
    ensures Reaches(Init(1, 1, now), acts, StopSeen(now))
  {
    ReachLocked(1, now);
    var s1 := OneLocked(1, now);
    var s2 := s1.(stop := true, dtor := Stopped);
    var s3 := s2.(workers := [Ready]);
    Extend(Init(1, 1, now), [LockW(0)], s1, SetStop, s2);
    Extend(Init(1, 1, now), [LockW(0)] + [SetStop], s2, Evaluate(0), s3);
    Extend(Init(1, 1, now), [LockW(0)] + [SetStop] + [Evaluate(0)], s3, Leave(0), StopSeen(now));
    acts := [LockW(0)] + [SetStop] + [Evaluate(0)] + [Leave(0)];
  }

  /** One worker, `stop_` stored between its predicate and its block: the destructor waits for ever. */
  lemma ShutdownCanHang(now: int) returns (acts: seq<Action>, s: State)
    ensures Reaches(Init(1, 0, now), acts, s) && Quiescent(s)
    ensures s.dtor == Joining(0) && s.workers == [Asleep]
  {
    var before := ReachMissed(now);
    s := StopMissed(now).(dtor := Joining(0), workers := [Asleep], owner := Free);
    MissedBlocks(now, before);
    HungAtRest(s);
    acts := before + [NotifyAll] + [Block(0)];
  }

  lemma MissedBlocks(now: int, before: seq<Action>)
    requires Reaches(Init(1, 0, now), before, StopMissed(now))
    ensures Reaches(Init(1, 0, now), before + [NotifyAll] + [Block(0)],
                    StopMissed(now).(dtor := Joining(0), workers := [Asleep], owner := Free))
  {
    var told := StopMissed(now).(dtor := Joining(0));
    Extend(Init(1, 0, now), before, StopMissed(now), NotifyAll, told);
    Extend(Init(1, 0, now), before + [NotifyAll], told, Block(0), told.(workers := [Asleep], owner := Free));
  }

  lemma HungAtRest(s: State)
    requires s.workers == [Asleep] && s.clients == [] && s.dtor == Joining(0)
    ensures Quiescent(s)
  {
  }

  /** One worker that has returned, then an enqueue, and the destructor: the task stays in the queue, and
      nothing can move any more. */
  lemma LateTaskStranded(now: int, task: Task) returns (acts: seq<Action>, s: State)
    ensures Reaches(Init(1, 1, now), acts, s) && Quiescent(s)
    ensures s.dtor.Gone? && s.workers == [Returned] && s.clients == [Idle] && s.late == 1
    ensures s.queue == multiset{task} && !AllExecutedOnce(s)
  {
    var before := ReachSeen(now);
    var called, left := LateEnqueue(Init(1, 1, now), before, StopSeen(now), task);
    acts, s := LateShutdown(Init(1, 1, now), called, left, task);
    assert [task] == [] + [task];
    SumAppend([], task, IsTask(task));
  }

  lemma LateShutdown(s0: State, before: seq<Action>, r: State, task: Task) returns (acts: seq<Action>, s: State)
    requires Reaches(s0, before, r)
    requires r.workers == [Returned] && r.clients == [Idle] && r.dtor.Stopped? && r.late == 1
    requires r.queue == multiset{task} && r.pushed == [task] && r.executed == []
    ensures Reaches(s0, acts, s) && Quiescent(s)
    ensures s == r.(dtor := Gone)
  {
    s := r.(dtor := Gone);
    LateJoin(s0, before, r);
    GoneAtRest(s);
    acts := before + [NotifyAll] + [Join] + [Join];
  }

  lemma LateJoin(s0: State, before: seq<Action>, r: State)
    requires Reaches(s0, before, r) && r.workers == [Returned] && r.dtor.Stopped?
    ensures Reaches(s0, before + [NotifyAll] + [Join] + [Join], r.(dtor := Gone))
  {
    var told, joined := r.(dtor := Joining(0)), r.(dtor := Joining(1));
    Extend(s0, before, r, NotifyAll, told);
    Extend(s0, before + [NotifyAll], told, Join, joined);
    Extend(s0, before + [NotifyAll] + [Join], joined, Join, r.(dtor := Gone));
  }

  lemma GoneAtRest(s: State)
    requires s.workers == [Returned] && s.clients == [Idle] && s.dtor.Gone?
    ensures Quiescent(s)
  {
  }

  lemma LateEnqueue(s0: State, before: seq<Action>, r: State, task: Task) returns (acts: seq<Action>, s: State)
    requires Reaches(s0, before, r)
    requires r.workers == [Returned] && r.clients == [Idle] && r.owner.Free? && r.stop && r.dtor.Stopped?
    requires r.queue == multiset{} && r.pushed == [] && r.executed == [] && r.late == 0
    ensures Reaches(s0, acts, s)
    ensures s.workers == [Returned] && s.clients == [Idle] && s.dtor.Stopped? && s.late == 1
    ensures s.queue == multiset{task} && s.pushed == [task] && s.executed == []
  {
    var locked := LateCall(s0, before, r, task);
    var pushed := LatePush(s0, before + [Begin(0, task)] + [LockC(0)], locked, task);
    s := pushed.(clients := [Idle]);
    Extend(s0, before + [Begin(0, task)] + [LockC(0)] + [Push(0)], pushed, NotifyOne(0, 0), s);
    acts := before + [Begin(0, task)] + [LockC(0)] + [Push(0)] + [NotifyOne(0, 0)];
  }

  lemma LateCall(s0: State, before: seq<Action>, r: State, task: Task) returns (locked: State)
    requires Reaches(s0, before, r)
    requires r.workers == [Returned] && r.clients == [Idle] && r.owner.Free? && r.dtor.Stopped?
    ensures locked == r.(clients := [Locked(task)], owner := ByClient(0))
    ensures Reaches(s0, before + [Begin(0, task)] + [LockC(0)], locked)
  {
    var asks := r.(clients := [Asks(task)]);
    locked := r.(clients := [Locked(task)], owner := ByClient(0));
    Extend(s0, before, r, Begin(0, task), asks);
    Extend(s0, before + [Begin(0, task)], asks, LockC(0), locked);
  }

  lemma LatePush(s0: State, before: seq<Action>, r: State, task: Task) returns (s: State)
    requires Reaches(s0, before, r)
    requires r.workers == [Returned] && r.clients == [Locked(task)] && r.owner == ByClient(0) && r.stop
    requires r.queue == multiset{} && r.pushed == [] && r.executed == [] && r.late == 0
    ensures Reaches(s0, before + [Push(0)], s)
    ensures s == r.(clients := [Owes], owner := Free, queue := multiset{task}, pushed := [task], late := 1)
  {
    s := r.(clients := [Owes], owner := Free, queue := multiset{task}, pushed := [task], late := 1);
    assert multiset{} + multiset{task} == multiset{task} && [] + [task] == [task];
    Extend(s0, before, r, Push(0), s);
  }
}
