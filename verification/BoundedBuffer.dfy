/** The bounded buffer with two condition variables and a ticket counter
    (threads/multiple_cons_work.cpp), for any number of producers and consumers,
    any capacity and any number of items.

    A step is one atomic region of one thread: an operation on the atomic counter,
    taking the mutex, the region under the mutex up to where it is released, or a
    `notify_one`.  A `notify_one` with no sleeper is lost. */
module BoundedBuffer {
  import opened Summation

  datatype ProducerPc =
    | Top                 // about to test the loop condition
    | Undo                // overran the counter, owes the fetch_sub
    | Want(item: int)     // wants the mutex: first entry, or woken
    | Check(item: int)    // holds the mutex, evaluates the predicate
    | Asleep(item: int)   // blocked on cv_producer
    | Notify              // pushed, owes cv_consumer.notify_one
    | Finished

  datatype Producer = Producer(quota: nat, made: nat, pc: ProducerPc)

  datatype Consumer = Wants | Checks | Sleeps | Owes | Returned

  datatype Mutex = Free | ByProducer(p: nat) | ByConsumer(c: nat)

  datatype Config = Config(total: nat, capacity: nat, producers: nat, consumers: nat)

  /** `tickets`, `pushed` and `consumed` are histories: tickets granted, items pushed, items popped. */
  datatype State = State(
    producers: seq<Producer>, consumers: seq<Consumer>, owner: Mutex, buffer: seq<int>,
    counter: int, finished: bool, tickets: seq<int>, pushed: seq<int>, consumed: seq<int>)

  datatype Action =
    | TakeTicket(p: nat)
    | UndoTicket(p: nat)
    | LeaveLoop(p: nat)
    | LockP(p: nat)
    | RegionP(p: nat)
    | SignalConsumer(p: nat, target: nat)
    | LockC(c: nat)
    | RegionC(c: nat)
    | SignalProducer(c: nat, target: nat)
    | SpuriousP(p: nat)
    | SpuriousC(c: nat)

  /** Items of the producer with index `p`; the source numbers producers from 1. */
  function Quota(total: nat, p: nat): nat {
    if p == 0 then total - total / 2 else total / 2
  }

  function Init(k: Config): State {
    State(seq(k.producers, (p: nat) => Producer(Quota(k.total, p), 0, Top)), seq(k.consumers, _ => Wants),
          Free, [], 0, false, [], [], [])
  }

  predicate IsSpurious(a: Action) { a.SpuriousP? || a.SpuriousC? }

  predicate SleepingP(s: State, p: nat) { p < |s.producers| && s.producers[p].pc.Asleep? }

  predicate SleepingC(s: State, c: nat) { c < |s.consumers| && s.consumers[c].Sleeps? }

  predicate Enabled(s: State, a: Action) {
    match a
    case TakeTicket(p) => p < |s.producers| && s.producers[p].pc.Top? && s.producers[p].made < s.producers[p].quota
    case UndoTicket(p) => p < |s.producers| && s.producers[p].pc.Undo?
    case LeaveLoop(p) => p < |s.producers| && s.producers[p].pc.Top? && s.producers[p].made >= s.producers[p].quota
    case LockP(p) => p < |s.producers| && s.producers[p].pc.Want? && s.owner.Free?
    case RegionP(p) => p < |s.producers| && s.producers[p].pc.Check?
    case SignalConsumer(p, t) =>
      p < |s.producers| && s.producers[p].pc.Notify? &&
      (SleepingC(s, t) || forall c :: 0 <= c < |s.consumers| ==> !SleepingC(s, c))
    case LockC(c) => c < |s.consumers| && s.consumers[c].Wants? && s.owner.Free?
    case RegionC(c) => c < |s.consumers| && s.consumers[c].Checks?
    case SignalProducer(c, t) =>
      c < |s.consumers| && s.consumers[c].Owes? &&
      (SleepingP(s, t) || forall p :: 0 <= p < |s.producers| ==> !SleepingP(s, p))
    case SpuriousP(p) => SleepingP(s, p)
    case SpuriousC(c) => SleepingC(s, c)
  }

  function GoP(s: State, p: nat, pc: ProducerPc): State
    requires p < |s.producers|
  {
    s.(producers := s.producers[p := s.producers[p].(pc := pc)])
  }

  function GoC(s: State, c: nat, pc: Consumer): State
    requires c < |s.consumers|
  {
    s.(consumers := s.consumers[c := pc])
  }

  function Do(k: Config, s: State, a: Action): State
    requires Enabled(s, a)
  {
    match a
    case TakeTicket(p) =>
      var t := s.counter;
      var s' := s.(counter := s.counter + 1);
      if t >= k.total then GoP(s', p, Undo)
      else GoP(s'.(tickets := s.tickets + [t]), p, Want(t))
    case UndoTicket(p) => GoP(s.(counter := s.counter - 1), p, Finished)
    case LeaveLoop(p) => GoP(s, p, Finished)
    case LockP(p) => GoP(s.(owner := ByProducer(p)), p, Check(s.producers[p].pc.item))
    case RegionP(p) =>
      var item := s.producers[p].pc.item;
      if |s.buffer| < k.capacity then
        GoP(s.(owner := Free, buffer := s.buffer + [item], pushed := s.pushed + [item]), p, Notify)
      else
        GoP(s.(owner := Free), p, Asleep(item))
    case SignalConsumer(p, t) =>
      var r := s.producers[p];
      var s' := s.(producers := s.producers[p := Producer(r.quota, r.made + 1, Top)]);
      if SleepingC(s, t) then GoC(s', t, Wants) else s'
    case LockC(c) => GoC(s.(owner := ByConsumer(c)), c, Checks)
    case RegionC(c) =>
      if s.buffer != [] then
        GoC(s.(owner := Free, buffer := s.buffer[1..], consumed := s.consumed + [s.buffer[0]]), c, Owes)
      else if s.finished then GoC(s.(owner := Free), c, Returned)
      else GoC(s.(owner := Free), c, Sleeps)
    case SignalProducer(c, t) =>
      var s' := GoC(s, c, Wants);
      if SleepingP(s, t) then GoP(s', t, Want(s.producers[t].pc.item)) else s'
    case SpuriousP(p) => GoP(s, p, Want(s.producers[p].pc.item))
    case SpuriousC(c) => GoC(s, c, Wants)
  }

  /** `s'` is reached from `s` by the steps `acts`, in that order. */
  ghost predicate Reaches(k: Config, s: State, acts: seq<Action>, s': State)
    decreases |acts|
  {
    if acts == [] then s == s'
    else Enabled(s, acts[0]) && Reaches(k, Do(k, s, acts[0]), acts[1..], s')
  }

  /** No thread can move, spurious wake-ups aside. */
  ghost predicate Quiescent(s: State) {
    forall a: Action :: Enabled(s, a) ==> IsSpurious(a)
  }

  /** Any sleeper may wake by itself, and be the one that an owed notify wakes. */
  lemma AnySleeperMayWake(k: Config, s: State, p: nat, c: nat)
    requires p < |s.producers| && c < |s.consumers|
    ensures SleepingP(s, p) ==> Enabled(s, SpuriousP(p)) && Do(k, s, SpuriousP(p)).producers[p].pc.Want?
    ensures SleepingC(s, c) ==> Enabled(s, SpuriousC(c)) && Do(k, s, SpuriousC(c)).consumers[c].Wants?
    ensures SleepingC(s, c) && s.producers[p].pc.Notify? ==>
              Enabled(s, SignalConsumer(p, c)) && Do(k, s, SignalConsumer(p, c)).consumers[c].Wants?
    ensures SleepingP(s, p) && s.consumers[c].Owes? ==>
              Enabled(s, SignalProducer(c, p)) && Do(k, s, SignalProducer(c, p)).producers[p].pc.Want?
  {
  }

  // ---------------------------------------------------------------- Weights

  function Undoing(p: Producer): nat { if p.pc.Undo? then 1 else 0 }

  function AwakeP(p: Producer): nat { if p.pc.Want? || p.pc.Check? then 1 else 0 }

  function OwesConsumer(p: Producer): nat { if p.pc.Notify? then 1 else 0 }

  function AwakeC(c: Consumer): nat { if c.Wants? || c.Checks? then 1 else 0 }

  function OwesProducer(c: Consumer): nat { if c.Owes? then 1 else 0 }

  /** Tickets this producer was granted. */
  function Taken(p: Producer): nat {
    p.made + (if p.pc.Want? || p.pc.Check? || p.pc.Asleep? || p.pc.Notify? then 1 else 0)
  }

  function QuotaOf(p: Producer): nat { p.quota }

  /** Whether a producer holds ticket `t` and has not pushed it yet. */
  function Holds(t: int): Producer -> nat {
    (p: Producer) => if (p.pc.Want? || p.pc.Check? || p.pc.Asleep?) && p.pc.item == t then 1 else 0
  }

  // -------------------------------------------------------------- Invariant

  predicate Shape(k: Config, s: State) {
    && |s.producers| == k.producers && |s.consumers| == k.consumers
    && |s.buffer| <= k.capacity
    && (forall p :: 0 <= p < |s.producers| ==> s.producers[p].quota == Quota(k.total, p))
    && !s.finished
    && (forall c :: 0 <= c < |s.consumers| ==> !s.consumers[c].Returned?)
  }

  /** The mutex is held by exactly the thread inside a critical region. */
  predicate LockInv(s: State) {
    && (forall p :: 0 <= p < |s.producers| ==> (s.producers[p].pc.Check? <==> s.owner == ByProducer(p)))
    && (forall c :: 0 <= c < |s.consumers| ==> (s.consumers[c].Checks? <==> s.owner == ByConsumer(c)))
    && (s.owner.ByProducer? ==> s.owner.p < |s.producers|)
    && (s.owner.ByConsumer? ==> s.owner.c < |s.consumers|)
  }

  predicate PcOk(total: nat, granted: nat, p: Producer) {
    && p.made <= p.quota
    && (p.pc.Undo? || p.pc.Want? || p.pc.Check? || p.pc.Asleep? || p.pc.Notify? ==> p.made < p.quota)
    && (p.pc.Finished? && p.made < p.quota ==> granted == total)
  }

  predicate TicketInv(k: Config, s: State) {
    && (forall j :: 0 <= j < |s.tickets| ==> s.tickets[j] == j)
    && |s.tickets| <= k.total
    && s.counter == |s.tickets| + Sum(s.producers, Undoing)
    && (Sum(s.producers, Undoing) > 0 ==> |s.tickets| == k.total)
    && Sum(s.producers, Taken) == |s.tickets|
    && (forall p :: 0 <= p < |s.producers| ==> PcOk(k.total, |s.tickets|, s.producers[p]))
  }

  ghost predicate StreamInv(s: State) {
    && s.pushed == s.consumed + s.buffer
    && (forall t: int :: multiset(s.tickets)[t] == multiset(s.pushed)[t] + Sum(s.producers, Holds(t)))
  }

  /** A sleeping consumer leaves no more items than there are threads on their way to them. */
  predicate WakeC(s: State) {
    (exists c :: 0 <= c < |s.consumers| && SleepingC(s, c)) ==>
      |s.buffer| <= Sum(s.producers, OwesConsumer) + Sum(s.consumers, AwakeC)
  }

  /** Dually, a sleeping producer leaves no more free slots than threads on their way to them. */
  predicate WakeP(k: Config, s: State) {
    (exists p :: 0 <= p < |s.producers| && SleepingP(s, p)) ==>
      k.capacity - |s.buffer| <= Sum(s.consumers, OwesProducer) + Sum(s.producers, AwakeP)
  }

  ghost predicate Inv(k: Config, s: State) {
    Shape(k, s) && LockInv(s) && TicketInv(k, s) && StreamInv(s) && WakeC(s) && WakeP(k, s)
  }

  lemma {:induction false} InitInv(k: Config)
    ensures Inv(k, Init(k))
  {
    var s := Init(k);
    SumZero(s.producers, Undoing);
    SumZero(s.producers, Taken);
    forall t: int
      ensures Sum(s.producers, Holds(t)) == 0
    {
      SumZero(s.producers, Holds(t));
    }
  }

  lemma StepShape(k: Config, s: State, a: Action)
    requires Enabled(s, a) && Shape(k, s)
    ensures Shape(k, Do(k, s, a))
  {
  }

  /** Whoever acts inside a region is the holder; so no other thread is inside. */
  lemma RegionOwner(s: State, a: Action)
    requires Enabled(s, a) && LockInv(s)
    ensures a.RegionP? ==> s.owner == ByProducer(a.p)
    ensures a.RegionC? ==> s.owner == ByConsumer(a.c)
  {
  }

  lemma StepLockP(k: Config, s: State, a: Action, p: nat)
    requires Enabled(s, a) && LockInv(s) && p < |s.producers|
    ensures var t := Do(k, s, a);
            |t.producers| == |s.producers| && (t.producers[p].pc.Check? <==> t.owner == ByProducer(p))
  {
    RegionOwner(s, a);
  }

  lemma StepLockC(k: Config, s: State, a: Action, c: nat)
    requires Enabled(s, a) && LockInv(s) && c < |s.consumers|
    ensures var t := Do(k, s, a);
            |t.consumers| == |s.consumers| && (t.consumers[c].Checks? <==> t.owner == ByConsumer(c))
  {
    RegionOwner(s, a);
  }

  lemma StepLock(k: Config, s: State, a: Action)
    requires Enabled(s, a) && LockInv(s)
    ensures LockInv(Do(k, s, a))
  {
    var t := Do(k, s, a);
    forall p | 0 <= p < |t.producers|
      ensures t.producers[p].pc.Check? <==> t.owner == ByProducer(p)
    {
      StepLockP(k, s, a, p);
    }
    forall c | 0 <= c < |t.consumers|
      ensures t.consumers[c].Checks? <==> t.owner == ByConsumer(c)
    {
      StepLockC(k, s, a, c);
    }
  }

  /** Which producer a step moves, if any. */
  function MovedP(s: State, a: Action): int {
    match a
    case TakeTicket(p) => p
    case UndoTicket(p) => p
    case LeaveLoop(p) => p
    case LockP(p) => p
    case RegionP(p) => p
    case SignalConsumer(p, _) => p
    case SignalProducer(_, t) => if SleepingP(s, t) then t else -1
    case SpuriousP(p) => p
    case _ => -1
  }

  function MovedC(s: State, a: Action): int {
    match a
    case LockC(c) => c
    case RegionC(c) => c
    case SignalProducer(c, _) => c
    case SignalConsumer(_, t) => if SleepingC(s, t) then t else -1
    case SpuriousC(c) => c
    case _ => -1
  }

  /** A step moves at most one producer and at most one consumer. */
  lemma StepMovesOne(k: Config, s: State, a: Action)
    requires Enabled(s, a)
    ensures var s' := Do(k, s, a); var p := MovedP(s, a);
            if p < 0 then s'.producers == s.producers
            else p < |s.producers| && |s'.producers| == |s.producers|
                 && s'.producers == s.producers[p := s'.producers[p]]
    ensures var s' := Do(k, s, a); var c := MovedC(s, a);
            if c < 0 then s'.consumers == s.consumers
            else c < |s.consumers| && |s'.consumers| == |s.consumers|
                 && s'.consumers == s.consumers[c := s'.consumers[c]]
  {
  }

  lemma SumStepP(k: Config, s: State, a: Action, w: Producer -> nat)
    requires Enabled(s, a)
    ensures var s' := Do(k, s, a); var p := MovedP(s, a);
            |s'.producers| == |s.producers| && p < |s.producers| &&
            Sum(s'.producers, w) + (if p < 0 then 0 else w(s.producers[p]))
            == Sum(s.producers, w) + (if p < 0 then 0 else w(s'.producers[p]))
  {
    StepMovesOne(k, s, a);
    var p := MovedP(s, a);
    if p >= 0 {
      SumUpdate(s.producers, p, Do(k, s, a).producers[p], w);
    }
  }

  lemma SumStepC(k: Config, s: State, a: Action, w: Consumer -> nat)
    requires Enabled(s, a)
    ensures var s' := Do(k, s, a); var c := MovedC(s, a);
            |s'.consumers| == |s.consumers| && c < |s.consumers| &&
            Sum(s'.consumers, w) + (if c < 0 then 0 else w(s.consumers[c]))
            == Sum(s.consumers, w) + (if c < 0 then 0 else w(s'.consumers[c]))
  {
    StepMovesOne(k, s, a);
    var c := MovedC(s, a);
    if c >= 0 {
      SumUpdate(s.consumers, c, Do(k, s, a).consumers[c], w);
    }
  }

  lemma UndoingStep(k: Config, s: State, a: Action)
    requires Enabled(s, a)
    ensures Sum(Do(k, s, a).producers, Undoing) + (if a.UndoTicket? then 1 else 0)
         == Sum(s.producers, Undoing) + (if a.TakeTicket? && s.counter >= k.total then 1 else 0)
  {
    SumStepP(k, s, a, Undoing);
  }

  lemma TakenStep(k: Config, s: State, a: Action)
    requires Enabled(s, a)
    ensures Sum(Do(k, s, a).producers, Taken)
         == Sum(s.producers, Taken) + (if a.TakeTicket? && s.counter < k.total then 1 else 0)
  {
    SumStepP(k, s, a, Taken);
  }

  lemma StepPcOk(k: Config, s: State, a: Action)
    requires Enabled(s, a) && TicketInv(k, s)
    ensures var s' := Do(k, s, a); forall p :: 0 <= p < |s'.producers| ==> PcOk(k.total, |s'.tickets|, s'.producers[p])
  {
    if a.UndoTicket? {
      SumMember(s.producers, a.p, Undoing);
    }
  }

  lemma StepTickets(k: Config, s: State, a: Action)
    requires Enabled(s, a) && TicketInv(k, s)
    ensures TicketInv(k, Do(k, s, a))
  {
    UndoingStep(k, s, a);
    TakenStep(k, s, a);
    StepPcOk(k, s, a);
  }

  lemma StepFifo(k: Config, s: State, a: Action)
    requires Enabled(s, a) && s.pushed == s.consumed + s.buffer
    ensures var s' := Do(k, s, a); s'.pushed == s'.consumed + s'.buffer
  {
    if a.RegionC? && s.buffer != [] {
      assert s.buffer == [s.buffer[0]] + s.buffer[1..];
    }
  }

  lemma CountAppend(s: seq<int>, x: int, t: int)
    ensures multiset(s + [x])[t] == multiset(s)[t] + (if x == t then 1 else 0)
  {
  }

  function TakesTicket(k: Config, s: State, a: Action, t: int): nat {
    if a.TakeTicket? && s.counter < k.total && s.counter == t then 1 else 0
  }

  function PushesItem(k: Config, s: State, a: Action, t: int): nat
    requires Enabled(s, a)
  {
    if a.RegionP? && |s.buffer| < k.capacity && s.producers[a.p].pc.item == t then 1 else 0
  }

  lemma HistoryStep(k: Config, s: State, a: Action, t: int)
    requires Enabled(s, a)
    ensures multiset(Do(k, s, a).tickets)[t] == multiset(s.tickets)[t] + TakesTicket(k, s, a, t)
    ensures multiset(Do(k, s, a).pushed)[t] == multiset(s.pushed)[t] + PushesItem(k, s, a, t)
  {
    CountAppend(s.tickets, s.counter, t);
    if a.RegionP? {
      CountAppend(s.pushed, s.producers[a.p].pc.item, t);
    }
  }

  lemma HandStep(k: Config, s: State, a: Action, t: int)
    requires Enabled(s, a)
    ensures Sum(Do(k, s, a).producers, Holds(t)) + PushesItem(k, s, a, t)
         == Sum(s.producers, Holds(t)) + TakesTicket(k, s, a, t)
  {
    SumStepP(k, s, a, Holds(t));
  }

  /** Each ticket granted is in some producer's hand or has been pushed, as often as it was granted. */
  lemma StepTicketAt(k: Config, s: State, a: Action, t: int)
    requires Enabled(s, a)
    requires multiset(s.tickets)[t] == multiset(s.pushed)[t] + Sum(s.producers, Holds(t))
    ensures var s' := Do(k, s, a);
            multiset(s'.tickets)[t] == multiset(s'.pushed)[t] + Sum(s'.producers, Holds(t))
  {
    HistoryStep(k, s, a, t);
    HandStep(k, s, a, t);
  }

  lemma StepStream(k: Config, s: State, a: Action)
    requires Enabled(s, a) && StreamInv(s)
    ensures StreamInv(Do(k, s, a))
  {
    var s' := Do(k, s, a);
    StepFifo(k, s, a);
    forall t: int
      ensures multiset(s'.tickets)[t] == multiset(s'.pushed)[t] + Sum(s'.producers, Holds(t))
    {
      StepTicketAt(k, s, a, t);
    }
  }

  lemma StepWake(k: Config, s: State, a: Action)
    requires Enabled(s, a) && Shape(k, s) && WakeC(s) && WakeP(k, s)
    ensures WakeC(Do(k, s, a)) && WakeP(k, Do(k, s, a))
  {
    StepWakeC(k, s, a);
    StepWakeP(k, s, a);
  }

  lemma StepWakeC(k: Config, s: State, a: Action)
    requires Enabled(s, a) && WakeC(s)
    ensures WakeC(Do(k, s, a))
  {
    var s' := Do(k, s, a);
    if c :| 0 <= c < |s'.consumers| && SleepingC(s', c) {
      ConsumerFellAsleep(k, s, a, c);
      ComingC(k, s, a);
    }
  }

  lemma ConsumerFellAsleep(k: Config, s: State, a: Action, c: nat)
    requires Enabled(s, a) && SleepingC(Do(k, s, a), c)
    ensures SleepingC(s, c) || Do(k, s, a).buffer == []
  {
  }

  /** While a consumer sleeps and items are left, threads on their way are lost no faster than items. */
  lemma ComingC(k: Config, s: State, a: Action)
    requires Enabled(s, a)
    ensures var t := Do(k, s, a);
            |t.buffer| + Sum(s.producers, OwesConsumer) + Sum(s.consumers, AwakeC)
            <= |s.buffer| + Sum(t.producers, OwesConsumer) + Sum(t.consumers, AwakeC)
            || t.buffer == [] || forall c :: 0 <= c < |s.consumers| ==> !SleepingC(s, c)
  {
    SumStepP(k, s, a, OwesConsumer);
    SumStepC(k, s, a, AwakeC);
  }

  lemma StepWakeP(k: Config, s: State, a: Action)
    requires Enabled(s, a) && WakeP(k, s)
    ensures WakeP(k, Do(k, s, a))
  {
    var s' := Do(k, s, a);
    if p :| 0 <= p < |s'.producers| && SleepingP(s', p) {
      ProducerFellAsleep(k, s, a, p);
      ComingP(k, s, a);
    }
  }

  lemma ProducerFellAsleep(k: Config, s: State, a: Action, p: nat)
    requires Enabled(s, a) && SleepingP(Do(k, s, a), p)
    ensures SleepingP(s, p) || |Do(k, s, a).buffer| >= k.capacity
  {
  }

  lemma ComingP(k: Config, s: State, a: Action)
    requires Enabled(s, a)
    ensures var t := Do(k, s, a);
            |s.buffer| + Sum(s.consumers, OwesProducer) + Sum(s.producers, AwakeP)
            <= |t.buffer| + Sum(t.consumers, OwesProducer) + Sum(t.producers, AwakeP)
            || |t.buffer| >= k.capacity || forall p :: 0 <= p < |s.producers| ==> !SleepingP(s, p)
  {
    SumStepC(k, s, a, OwesProducer);
    SumStepP(k, s, a, AwakeP);
  }

  lemma {:induction false} RunKeepsInv(k: Config, s: State, acts: seq<Action>, s': State)
    requires Inv(k, s) && Reaches(k, s, acts, s')
    ensures Inv(k, s')
    decreases |acts|
  {
    if acts != [] {
      StepShape(k, s, acts[0]);
      StepLock(k, s, acts[0]);
      StepTickets(k, s, acts[0]);
      StepStream(k, s, acts[0]);
      StepWake(k, s, acts[0]);
      RunKeepsInv(k, Do(k, s, acts[0]), acts[1..], s');
    }
  }

  // ------------------------------------------------------------ Main results

  /** The invariant holds after every run: capacity, FIFO order, tickets 0..g-1 granted once each
      with g <= total, and neither side asleep on work nobody is coming for. */
  lemma ReachableInv(k: Config, acts: seq<Action>, s: State)
    requires Reaches(k, Init(k), acts, s)
    ensures |s.buffer| <= k.capacity
    ensures s.pushed == s.consumed + s.buffer
    ensures s.tickets == Iota(|s.tickets|) && |s.tickets| <= k.total
    ensures s.counter == |s.tickets| + Sum(s.producers, Undoing)
    ensures Sum(s.producers, Undoing) > 0 ==> |s.tickets| == k.total
    ensures WakeC(s) && WakeP(k, s)
    ensures forall c :: 0 <= c < |s.consumers| ==> !s.consumers[c].Returned?
    ensures Inv(k, s)
  {
    InitInv(k);
    RunKeepsInv(k, Init(k), acts, s);
  }

  function Iota(n: nat): seq<int> { seq(n, i => i) }

  function Min(a: int, b: int): int { if a < b then a else b }

  /** What all producers together may make. */
  function Offered(k: Config): nat { Sum(Init(k).producers, QuotaOf) }

  lemma OfferedKept(k: Config, s: State)
    requires Shape(k, s)
    ensures Sum(s.producers, QuotaOf) == Offered(k)
  {
    SumSame(s.producers, Init(k).producers, QuotaOf, QuotaOf);
  }

  /** Two producers with the quotas of the source offer exactly `total` items, each further one half of it. */
  lemma OfferedByQuotas(k: Config)
    ensures k.producers == 0 ==> Offered(k) == 0
    ensures k.producers == 1 ==> Offered(k) == k.total - k.total / 2
    ensures k.producers >= 2 ==> Offered(k) == k.total + (k.producers - 2) * (k.total / 2)
  {
    var ps := Init(k).producers;
    if k.producers >= 1 {
      assert Sum(ps, QuotaOf) == ps[0].quota + Sum(ps[1..], QuotaOf);
      EqualQuotas(ps[1..], k.total / 2);
    }
  }

  lemma {:induction false} EqualQuotas(ps: seq<Producer>, quota: nat)
    requires forall p :: 0 <= p < |ps| ==> ps[p].quota == quota
    ensures Sum(ps, QuotaOf) == |ps| * quota
  {
    if ps != [] {
      EqualQuotas(ps[1..], quota);
    }
  }

  /** In a quiescent state the mutex is free and every thread is asleep or done. */
  lemma QuiescentThreads(k: Config, s: State)
    requires Inv(k, s) && Quiescent(s)
    ensures forall p :: 0 <= p < |s.producers| ==> s.producers[p].pc.Asleep? || s.producers[p].pc.Finished?
    ensures forall c :: 0 <= c < |s.consumers| ==> s.consumers[c].Sleeps?
  {
    assert s.owner.ByProducer? ==> Enabled(s, RegionP(s.owner.p));
    assert s.owner.ByConsumer? ==> Enabled(s, RegionC(s.owner.c));
    forall p | 0 <= p < |s.producers|
      ensures s.producers[p].pc.Asleep? || s.producers[p].pc.Finished?
    {
      QuiescentProducer(s, p);
    }
    forall c | 0 <= c < |s.consumers|
      ensures s.consumers[c].Sleeps?
    {
      QuiescentConsumer(s, c);
    }
  }

  lemma QuiescentProducer(s: State, p: nat)
    requires Quiescent(s) && s.owner.Free? && p < |s.producers|
    ensures s.producers[p].pc.Asleep? || s.producers[p].pc.Finished?
  {
    var t := if c :| 0 <= c < |s.consumers| && SleepingC(s, c) then c else 0;
    assert !Enabled(s, TakeTicket(p)) && !Enabled(s, UndoTicket(p)) && !Enabled(s, LeaveLoop(p));
    assert !Enabled(s, LockP(p)) && !Enabled(s, RegionP(p)) && !Enabled(s, SignalConsumer(p, t));
  }

  lemma QuiescentConsumer(s: State, c: nat)
    requires Quiescent(s) && s.owner.Free? && c < |s.consumers|
    ensures s.consumers[c].Sleeps? || s.consumers[c].Returned?
  {
    var t := if p :| 0 <= p < |s.producers| && SleepingP(s, p) then p else 0;
    assert !Enabled(s, LockC(c)) && !Enabled(s, RegionC(c)) && !Enabled(s, SignalProducer(c, t));
  }

  lemma QuiescentEmpty(k: Config, s: State)
    requires k.consumers >= 1 && k.capacity >= 1
    requires Inv(k, s) && Quiescent(s)
    ensures s.buffer == []
    ensures forall p :: 0 <= p < |s.producers| ==> s.producers[p].pc.Finished?
  {
    QuiescentThreads(k, s);
    assert SleepingC(s, 0);
    SumZero(s.producers, OwesConsumer);
    SumZero(s.consumers, AwakeC);
    forall p | 0 <= p < |s.producers|
      ensures s.producers[p].pc.Finished?
    {
      if SleepingP(s, p) {
        SumZero(s.consumers, OwesProducer);
        SumZero(s.producers, AwakeP);
        assert false;
      }
    }
  }

  lemma FinishedTickets(k: Config, s: State)
    requires Inv(k, s)
    requires forall p :: 0 <= p < |s.producers| ==> s.producers[p].pc.Finished?
    ensures |s.tickets| == s.counter == Min(k.total, Offered(k))
    ensures (exists p :: 0 <= p < |s.producers| && s.producers[p].made < s.producers[p].quota) <==> Offered(k) > k.total
  {
    SumZero(s.producers, Undoing);
    OfferedKept(k, s);
    SumSame(s.producers, s.producers, Taken, QuotaOf);
    if p :| 0 <= p < |s.producers| && s.producers[p].made < s.producers[p].quota {
      TakenBelowOffered(k, s, p);
    }
  }

  /** No lost wake-up: when nothing can move any more, every producer has finished, the consumers are
      all asleep on an empty buffer, and exactly the items 0 .. min(total, offered) - 1 were consumed,
      each once.  A producer was cut short by the ticket limit iff more was offered than allowed. */
  lemma NoLostWakeup(k: Config, acts: seq<Action>, s: State)
    requires k.consumers >= 1 && k.capacity >= 1
    requires Reaches(k, Init(k), acts, s) && Quiescent(s)
    ensures forall p :: 0 <= p < |s.producers| ==> s.producers[p].pc.Finished?
    ensures forall c :: 0 <= c < |s.consumers| ==> s.consumers[c].Sleeps?
    ensures s.buffer == [] && s.consumed == s.pushed
    ensures multiset(s.consumed) == multiset(Iota(Min(k.total, Offered(k))))
    ensures s.counter == Min(k.total, Offered(k))
    ensures (exists p :: 0 <= p < |s.producers| && s.producers[p].made < s.producers[p].quota) <==> Offered(k) > k.total
  {
    ReachableInv(k, acts, s);
    QuiescentThreads(k, s);
    QuiescentEmpty(k, s);
    FinishedTickets(k, s);
    assert s.consumed == s.pushed;
    forall t: int
      ensures multiset(s.tickets)[t] == multiset(s.pushed)[t]
    {
      SumZero(s.producers, Holds(t));
    }
  }

  lemma TakenBelowOffered(k: Config, s: State, p: nat)
    requires Shape(k, s) && TicketInv(k, s)
    requires p < |s.producers| && Taken(s.producers[p]) < s.producers[p].quota
    ensures |s.tickets| < Offered(k)
  {
    OfferedKept(k, s);
    var r := s.producers[p];
    var ps := s.producers[p := r.(made := r.made + 1)];
    SumUpdate(s.producers, p, r.(made := r.made + 1), Taken);
    SumSame(ps, s.producers, Taken, QuotaOf);
  }

  /** With the two producers of the source (or fewer) the add-then-undo branch is never taken. */
  lemma {:induction false} NoOverrun(k: Config, acts: seq<Action>, s: State)
    requires Offered(k) <= k.total
    requires Reaches(k, Init(k), acts, s)
    ensures forall p :: 0 <= p < |s.producers| ==> !s.producers[p].pc.Undo?
    ensures s.counter == |s.tickets|
  {
    InitInv(k);
    SumZero(Init(k).producers, Undoing);
    NoOverrunFrom(k, Init(k), acts, s);
    forall p | 0 <= p < |s.producers|
      ensures !s.producers[p].pc.Undo?
    {
      SumMember(s.producers, p, Undoing);
    }
    ReachableInv(k, acts, s);
  }

  lemma {:induction false} NoOverrunFrom(k: Config, s: State, acts: seq<Action>, s': State)
    requires Offered(k) <= k.total
    requires Inv(k, s) && Reaches(k, s, acts, s') && Sum(s.producers, Undoing) == 0
    ensures Sum(s'.producers, Undoing) == 0
    decreases |acts|
  {
    if acts != [] {
      var a := acts[0];
      if a.TakeTicket? {
        TakenBelowOffered(k, s, a.p);
      }
      SumStepP(k, s, a, Undoing);
      RunKeepsInv(k, s, [a], Do(k, s, a));
      NoOverrunFrom(k, Do(k, s, a), acts[1..], s');
    }
  }

  // ---------------------------------------------------------------- Progress

  /** Steps a producer may still take or cause. */
  function WorkP(p: Producer): nat {
    var left := if p.made < p.quota then p.quota - p.made else 0;
    var later := if p.made + 1 < p.quota then p.quota - p.made - 1 else 0;
    match p.pc
    case Top => 11 * left + 1
    case Undo => 1
    case Want(_) => 11 * later + 11
    case Check(_) => 11 * later + 10
    case Asleep(_) => 11 * later + 9
    case Notify => 11 * later + 4
    case Finished => 0
  }

  function WorkC(c: Consumer): nat {
    match c
    case Wants => 2
    case Checks => 1
    case Sleeps => 0
    case Owes => 5
    case Returned => 0
  }

  function Work(s: State): nat {
    Sum(s.producers, WorkP) + Sum(s.consumers, WorkC) + 5 * |s.buffer|
  }

  /** Producer work a step uses up; waking a producer adds two steps. */
  function SpentP(k: Config, s: State, a: Action): int {
    match a
    case RegionP(_) => if |s.buffer| < k.capacity then 6 else 1
    case SignalConsumer(_, _) => 3
    case SignalProducer(_, _) => -2
    case SpuriousP(_) => -2
    case _ => if MovedP(s, a) >= 0 then 1 else 0
  }

  function SpentC(s: State, a: Action): int {
    match a
    case RegionC(_) => if s.buffer != [] then -4 else 1
    case SignalProducer(_, _) => 3
    case SignalConsumer(_, _) => -2
    case SpuriousC(_) => -2
    case _ => if MovedC(s, a) >= 0 then 1 else 0
  }

  lemma WorkStepP(k: Config, s: State, a: Action)
    requires Enabled(s, a)
    ensures Sum(Do(k, s, a).producers, WorkP) + SpentP(k, s, a) <= Sum(s.producers, WorkP)
  {
    SumStepP(k, s, a, WorkP);
    if MovedP(s, a) >= 0 {
      MoveCost(k, s, a);
    }
  }

  lemma MoveCost(k: Config, s: State, a: Action)
    requires Enabled(s, a) && MovedP(s, a) >= 0
    ensures var p := MovedP(s, a); var s' := Do(k, s, a);
            p < |s.producers| == |s'.producers| &&
            WorkP(s'.producers[p]) + SpentP(k, s, a) <= WorkP(s.producers[p])
  {
  }

  lemma WorkStepC(k: Config, s: State, a: Action)
    requires Enabled(s, a)
    ensures Sum(Do(k, s, a).consumers, WorkC) + SpentC(s, a) <= Sum(s.consumers, WorkC)
  {
    SumStepC(k, s, a, WorkC);
  }

  /** Every step that is not a spurious wake-up uses up work. */
  lemma StepUsesWork(k: Config, s: State, a: Action)
    requires Enabled(s, a)
    ensures Work(Do(k, s, a)) + 1 <= Work(s) + (if IsSpurious(a) then 3 else 0)
  {
    WorkStepP(k, s, a);
    WorkStepC(k, s, a);
  }

  function Spurious(acts: seq<Action>): nat {
    if acts == [] then 0 else (if IsSpurious(acts[0]) then 1 else 0) + Spurious(acts[1..])
  }

  /** Every run is as short as its spurious wake-ups allow; without them it ends. */
  lemma {:induction false} RunBound(k: Config, s: State, acts: seq<Action>, s': State)
    requires Reaches(k, s, acts, s')
    ensures Work(s') + |acts| <= Work(s) + 3 * Spurious(acts)
    decreases |acts|
  {
    if acts != [] {
      StepUsesWork(k, s, acts[0]);
      RunBound(k, Do(k, s, acts[0]), acts[1..], s');
    }
  }

  /** From every state the program runs on, without spurious wake-ups, until nothing can move. */
  lemma {:induction false} RunsToQuiescence(k: Config, s: State) returns (acts: seq<Action>, s': State)
    ensures Reaches(k, s, acts, s') && Quiescent(s') && Spurious(acts) == 0
    decreases Work(s)
  {
    if Quiescent(s) {
      acts, s' := [], s;
    } else {
      var a: Action :| Enabled(s, a) && !IsSpurious(a);
      StepUsesWork(k, s, a);
      var rest;
      rest, s' := RunsToQuiescence(k, Do(k, s, a));
      acts := [a] + rest;
      assert acts[1..] == rest;
    }
  }

  // ------------------------------------------------------------- In the code

  /** The globals of the program and where its threads are, one method for each atomic region. */
  class Program {
    const k: Config
    var buffer: seq<int>
    var itemsProducedCount: int
    var producerFinished: bool
    var owner: Mutex
    var producers: seq<Producer>
    var consumers: seq<Consumer>
    ghost var tickets: seq<int>
    ghost var pushed: seq<int>
    var consumed: seq<int>

    ghost function View(): State
      reads this
    {
      State(producers, consumers, owner, buffer, itemsProducedCount, producerFinished, tickets, pushed, consumed)
    }

    constructor (k: Config)
      ensures this.k == k && View() == Init(k)
    {
      this.k := k;
      buffer, itemsProducedCount, producerFinished, owner := [], 0, false, Free;
      producers := seq(k.producers, (p: nat) => Producer(Quota(k.total, p), 0, Top));
      consumers := seq(k.consumers, _ => Wants);
      tickets, pushed, consumed := [], [], [];
    }

    /** fetch_add and the test of its result: lines 26-28. */
    method FetchAdd(p: nat)
      requires Enabled(View(), TakeTicket(p))
      modifies this
      ensures View() == Do(k, old(View()), TakeTicket(p))
    {
      var item := itemsProducedCount;
      itemsProducedCount := itemsProducedCount + 1;
      if item >= k.total {
        producers := producers[p := producers[p].(pc := Undo)];
      } else {
        tickets := tickets + [item];
        producers := producers[p := producers[p].(pc := Want(item))];
      }
    }

    /** Lines 29-30. */
    method FetchSub(p: nat)
      requires Enabled(View(), UndoTicket(p))
      modifies this
      ensures View() == Do(k, old(View()), UndoTicket(p))
    {
      itemsProducedCount := itemsProducedCount - 1;
      producers := producers[p := producers[p].(pc := Finished)];
    }

    /** The loop condition, when the quota is made: line 25. */
    method EndLoop(p: nat)
      requires Enabled(View(), LeaveLoop(p))
      modifies this
      ensures View() == Do(k, old(View()), LeaveLoop(p))
    {
      producers := producers[p := producers[p].(pc := Finished)];
    }

    /** The mutex, on entry and after a wake-up: lines 34-35. */
    method AcquireForProducer(p: nat)
      requires Enabled(View(), LockP(p))
      modifies this
      ensures View() == Do(k, old(View()), LockP(p))
    {
      owner := ByProducer(p);
      producers := producers[p := producers[p].(pc := Check(producers[p].pc.item))];
    }

    /** The mutex, on entry and after a wake-up: lines 50-51. */
    method AcquireForConsumer(c: nat)
      requires Enabled(View(), LockC(c))
      modifies this
      ensures View() == Do(k, old(View()), LockC(c))
    {
      owner := ByConsumer(c);
      consumers := consumers[c := Checks];
    }

    method WakeProducer(p: nat)
      requires Enabled(View(), SpuriousP(p))
      modifies this
      ensures View() == Do(k, old(View()), SpuriousP(p))
    {
      producers := producers[p := producers[p].(pc := Want(producers[p].pc.item))];
    }

    method WakeConsumer(c: nat)
      requires Enabled(View(), SpuriousC(c))
      modifies this
      ensures View() == Do(k, old(View()), SpuriousC(c))
    {
      consumers := consumers[c := Wants];
    }

    /** Lines 35-40: push, or block on cv_producer. */
    method Produce(p: nat)
      requires Enabled(View(), RegionP(p))
      modifies this
      ensures View() == Do(k, old(View()), RegionP(p))
    {
      var item := producers[p].pc.item;
      owner := Free;
      if |buffer| < k.capacity {
        buffer := buffer + [item];
        pushed := pushed + [item];
        producers := producers[p := producers[p].(pc := Notify)];
      } else {
        producers := producers[p := producers[p].(pc := Asleep(item))];
      }
    }

    /** Line 41, and on to the next turn. */
    method NotifyConsumer(p: nat, target: nat)
      requires Enabled(View(), SignalConsumer(p, target))
      modifies this
      ensures View() == Do(k, old(View()), SignalConsumer(p, target))
    {
      if target < |consumers| && consumers[target].Sleeps? {
        consumers := consumers[target := Wants];
      }
      producers := producers[p := Producer(producers[p].quota, producers[p].made + 1, Top)];
    }

    /** Lines 51-66: pop, block on cv_consumer, or leave. */
    method Consume(c: nat)
      requires Enabled(View(), RegionC(c))
      modifies this
      ensures View() == Do(k, old(View()), RegionC(c))
    {
      owner := Free;
      if !(|buffer| > 0 || producerFinished) {
        consumers := consumers[c := Sleeps];
      } else if |buffer| == 0 && producerFinished {
        consumers := consumers[c := Returned];
      } else {
        var data := buffer[0];
        buffer := buffer[1..];
        consumed := consumed + [data];
        consumers := consumers[c := Owes];
      }
    }

    /** Line 68, and on to the next turn. */
    method NotifyProducer(c: nat, target: nat)
      requires Enabled(View(), SignalProducer(c, target))
      modifies this
      ensures View() == Do(k, old(View()), SignalProducer(c, target))
    {
      if target < |producers| && producers[target].pc.Asleep? {
        producers := producers[target := producers[target].(pc := Want(producers[target].pc.item))];
      }
      consumers := consumers[c := Wants];
    }

    method Perform(a: Action)
      requires Enabled(View(), a)
      modifies this
      ensures View() == Do(k, old(View()), a)
    {
      match a
      case TakeTicket(p) => FetchAdd(p);
      case UndoTicket(p) => FetchSub(p);
      case LeaveLoop(p) => EndLoop(p);
      case LockP(p) => AcquireForProducer(p);
      case RegionP(p) => Produce(p);
      case SignalConsumer(p, target) => NotifyConsumer(p, target);
      case LockC(c) => AcquireForConsumer(c);
      case RegionC(c) => Consume(c);
      case SignalProducer(c, target) => NotifyProducer(c, target);
      case SpuriousP(p) => WakeProducer(p);
      case SpuriousC(c) => WakeConsumer(c);
    }

    /** What decides whose step is possible. */
    function Threads(): State
      reads this
    {
      State(producers, consumers, owner, buffer, itemsProducedCount, producerFinished, [], [], consumed)
    }

    /** Runs the program under a scheduler, as `Follow` does on states: whatever the schedule, items leave the
        buffer in the order they were pushed, no ticket is granted twice, and when nothing can move any more
        each of the items has been consumed once. */
    method RunSchedule(schedule: seq<Action>)
      requires View() == Init(k)
      modifies this
      ensures View() == Follow(k, Init(k), schedule)
      ensures |buffer| <= k.capacity && pushed == consumed + buffer
      ensures tickets == Iota(|tickets|) && |tickets| <= k.total
      ensures k.consumers >= 1 && k.capacity >= 1 && Quiescent(View()) ==>
                buffer == [] && multiset(consumed) == multiset(Iota(Min(k.total, Offered(k))))
    {
      ghost var taken: seq<Action> := [];
      var i := 0;
      while i < |schedule|
        invariant 0 <= i <= |schedule| && Reaches(k, Init(k), taken, View())
        invariant Follow(k, View(), schedule[i..]) == Follow(k, Init(k), schedule)
      {
        var a := schedule[i];
        SamePlace(View(), Threads(), a);
        if Enabled(Threads(), a) {
          ReachesSnoc(k, Init(k), taken, View(), a);
          taken := taken + [a];
          Perform(a);
        }
        i := i + 1;
      }
      ReachableInv(k, taken, View());
      if k.consumers >= 1 && k.capacity >= 1 && Quiescent(View()) {
        NoLostWakeup(k, taken, View());
      }
    }
  }

  /** The state that a schedule leads to, a step that is not possible being skipped. */
  function Follow(k: Config, s: State, schedule: seq<Action>): State
    decreases |schedule|
  {
    if schedule == [] then s
    else Follow(k, if Enabled(s, schedule[0]) then Do(k, s, schedule[0]) else s, schedule[1..])
  }

  lemma SamePlace(s: State, t: State, a: Action)
    requires (s.producers, s.consumers, s.owner) == (t.producers, t.consumers, t.owner)
    ensures Enabled(s, a) == Enabled(t, a)
  {
    assert forall p: nat :: SleepingP(s, p) == SleepingP(t, p);
    assert forall c: nat :: SleepingC(s, c) == SleepingC(t, c);
  }

  lemma {:induction false} ReachesSnoc(k: Config, s: State, acts: seq<Action>, t: State, a: Action)
    requires Reaches(k, s, acts, t) && Enabled(t, a)
    ensures Reaches(k, s, acts + [a], Do(k, t, a))
    decreases |acts|
  {
    if acts == [] {
      assert ([] + [a])[1..] == [];
      assert Reaches(k, Do(k, s, a), [], Do(k, t, a));
    } else {
      assert (acts + [a])[1..] == acts[1..] + [a];
      ReachesSnoc(k, Do(k, s, acts[0]), acts[1..], t, a);
    }
  }
}
