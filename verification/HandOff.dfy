/** One producer and one consumer sharing a single condition variable (threads/cond.cpp), for any
    number of items and any capacity. */
module HandOff {

  datatype Side = Producer | Consumer

  datatype Pc =
    | Top      // about to test the loop condition
    | Want     // wants the mutex: first entry, or woken
    | Check    // holds the mutex, evaluates the predicate
    | Asleep   // blocked on cv
    | Owes     // moved an item, owes cv.notify_one
    | Finished

  datatype Mutex = Free | HeldBy(who: Side)

  /** `i` is the loop variable. */
  datatype Thread = Thread(i: nat, pc: Pc)

  datatype Config = Config(items: nat, capacity: nat)

  /** `consumed` is the history of items taken from the buffer. */
  datatype State = State(producer: Thread, consumer: Thread, owner: Mutex, buffer: seq<int>, consumed: seq<int>)

  datatype Action = Test(who: Side) | Lock(who: Side) | Region(who: Side) | Notify(who: Side) | Spurious(who: Side)

  const START: State := State(Thread(0, Top), Thread(0, Top), Free, [], [])

  function Get(s: State, who: Side): Thread {
    if who.Producer? then s.producer else s.consumer
  }

  function Other(who: Side): Side {
    if who.Producer? then Consumer else Producer
  }

  function Go(s: State, who: Side, t: Thread): State {
    if who.Producer? then s.(producer := t) else s.(consumer := t)
  }

  predicate Enabled(s: State, a: Action) {
    var pc := Get(s, a.who).pc;
    match a
    case Test(_) => pc.Top?
    case Lock(_) => pc.Want? && s.owner.Free?
    case Region(_) => pc.Check?
    case Notify(_) => pc.Owes?
    case Spurious(_) => pc.Asleep?
  }

  function Do(k: Config, s: State, a: Action): State
    requires Enabled(s, a)
  {
    var t := Get(s, a.who);
    match a
    case Test(who) => Go(s, who, t.(pc := if t.i < k.items then Want else Finished))
    case Lock(who) => Go(s.(owner := HeldBy(who)), who, t.(pc := Check))
    case Region(who) =>
      if who.Producer? then
        if |s.buffer| < k.capacity then Go(s.(owner := Free, buffer := s.buffer + [t.i]), who, t.(pc := Owes))
        else Go(s.(owner := Free), who, t.(pc := Asleep))
      else
        if s.buffer != [] then
          Go(s.(owner := Free, buffer := s.buffer[1..], consumed := s.consumed + [s.buffer[0]]), who, t.(pc := Owes))
        else Go(s.(owner := Free), who, t.(pc := Asleep))
    case Notify(who) =>
      var o := Get(s, Other(who));
      var s' := Go(s, who, Thread(t.i + 1, Top));
      if o.pc.Asleep? then Go(s', Other(who), o.(pc := Want)) else s'
    case Spurious(who) => Go(s, who, t.(pc := Want))
  }

  ghost predicate Reaches(k: Config, s: State, acts: seq<Action>, s': State)
    decreases |acts|
  {
    if acts == [] then s == s'
    else Enabled(s, acts[0]) && Reaches(k, Do(k, s, acts[0]), acts[1..], s')
  }

  ghost predicate Quiescent(s: State) {
    forall a: Action :: Enabled(s, a) ==> a.Spurious?
  }

  // -------------------------------------------------------------- Invariant

  /** Items this thread has moved. */
  function Moved(t: Thread): nat { t.i + if t.pc.Owes? then 1 else 0 }

  function Upto(a: int, b: int): seq<int>
    requires a <= b
  {
    seq(b - a, i requires 0 <= i < b - a => a + i)
  }

  predicate ThreadOk(k: Config, s: State, who: Side) {
    var t := Get(s, who);
    && t.i <= k.items
    && (t.pc.Finished? ==> t.i == k.items)
    && (!t.pc.Top? && !t.pc.Finished? ==> t.i < k.items)
    && (t.pc.Check? <==> s.owner == HeldBy(who))
  }

  /** Consumed, then buffered, are the items in order, with none missing. */
  predicate InOrder(k: Config, s: State) {
    && Moved(s.consumer) <= Moved(s.producer)
    && s.buffer == Upto(Moved(s.consumer), Moved(s.producer))
    && s.consumed == Upto(0, Moved(s.consumer))
    && |s.buffer| <= k.capacity
  }

  /** A thread asleep although it could go on has a notify on its way. */
  predicate Notified(k: Config, s: State) {
    && (s.producer.pc.Asleep? && |s.buffer| < k.capacity ==> s.consumer.pc.Owes?)
    && (s.consumer.pc.Asleep? && s.buffer != [] ==> s.producer.pc.Owes?)
  }

  predicate Inv(k: Config, s: State) {
    ThreadOk(k, s, Producer) && ThreadOk(k, s, Consumer) && InOrder(k, s) && Notified(k, s)
  }

  lemma StepThreadOk(k: Config, s: State, a: Action, who: Side)
    requires Inv(k, s) && Enabled(s, a)
    ensures ThreadOk(k, Do(k, s, a), who)
  {
  }

  lemma StepInOrder(k: Config, s: State, a: Action)
    requires Inv(k, s) && Enabled(s, a)
    ensures InOrder(k, Do(k, s, a))
  {
  }

  lemma StepNotified(k: Config, s: State, a: Action)
    requires Inv(k, s) && Enabled(s, a)
    ensures Notified(k, Do(k, s, a))
  {
  }

  lemma {:induction false} RunKeepsInv(k: Config, s: State, acts: seq<Action>, s': State)
    requires Inv(k, s) && Reaches(k, s, acts, s')
    ensures Inv(k, s')
    decreases |acts|
  {
    if acts != [] {
      StepThreadOk(k, s, acts[0], Producer);
      StepThreadOk(k, s, acts[0], Consumer);
      StepInOrder(k, s, acts[0]);
      StepNotified(k, s, acts[0]);
      RunKeepsInv(k, Do(k, s, acts[0]), acts[1..], s');
    }
  }

  // ------------------------------------------------------------ Main results

  /** At every moment what was consumed, followed by the buffer, is 0, 1, 2, ... up to the last item
      pushed; and the two threads are never both asleep. */
  lemma AlwaysInOrder(k: Config, acts: seq<Action>, s: State)
    requires k.capacity >= 1 && Reaches(k, START, acts, s)
    ensures s.consumed + s.buffer == Upto(0, Moved(s.producer))
    ensures Moved(s.producer) <= k.items && |s.buffer| <= k.capacity
    ensures !(s.producer.pc.Asleep? && s.consumer.pc.Asleep?)
  {
    RunKeepsInv(k, START, acts, s);
  }

  /** One condition variable suffices: a program that can do nothing more, spurious wake-ups aside, has
      finished both loops and consumed exactly 0 .. items - 1 in order. */
  lemma NeverStuck(k: Config, acts: seq<Action>, s: State)
    requires k.capacity >= 1 && Reaches(k, START, acts, s) && Quiescent(s)
    ensures s.producer.pc.Finished? && s.consumer.pc.Finished?
    ensures s.buffer == [] && s.consumed == Upto(0, k.items)
  {
    RunKeepsInv(k, START, acts, s);
    NothingEnabled(s, Producer);
    NothingEnabled(s, Consumer);
  }

  /** And it gets there: from every state of every run, without spurious wake-ups. */
  lemma {:induction false} RunsToCompletion(k: Config, acts: seq<Action>, s: State)
    returns (more: seq<Action>, s': State)
    requires k.capacity >= 1 && Reaches(k, START, acts, s)
    ensures Reaches(k, s, more, s') && SpuriousCount(more) == 0
    ensures s'.producer.pc.Finished? && s'.consumer.pc.Finished? && s'.consumed == Upto(0, k.items)
    decreases Work(k, s)
  {
    if Quiescent(s) {
      NeverStuck(k, acts, s);
      more, s' := [], s;
    } else {
      var a: Action :| Enabled(s, a) && !a.Spurious?;
      StepUsesWork(k, s, a);
      ReachesSnoc(k, START, acts, s, a);
      var rest;
      rest, s' := RunsToCompletion(k, acts + [a], Do(k, s, a));
      more := [a] + rest;
      assert more[1..] == rest;
    }
  }

  /** A sleeper may wake by itself at any time, and a notify of the other thread wakes it. */
  lemma SleeperMayWake(k: Config, s: State, who: Side)
    requires Get(s, who).pc.Asleep?
    ensures Enabled(s, Spurious(who)) && Get(Do(k, s, Spurious(who)), who).pc.Want?
    ensures Get(s, Other(who)).pc.Owes? ==>
              Enabled(s, Notify(Other(who))) && Get(Do(k, s, Notify(Other(who))), who).pc.Want?
  {
  }

  lemma NothingEnabled(s: State, who: Side)
    requires Quiescent(s)
    ensures var pc := Get(s, who).pc; !pc.Top? && !pc.Check? && !pc.Owes? && (pc.Want? ==> !s.owner.Free?)
  {
    assert !Enabled(s, Test(who)) && !Enabled(s, Lock(who)) && !Enabled(s, Region(who)) && !Enabled(s, Notify(who));
  }

  // ---------------------------------------------------------------- Progress

  function WorkOf(k: Config, t: Thread): nat {
    var later := if t.i + 1 < k.items then k.items - t.i - 1 else 0;
    match t.pc
    case Top => if t.i < k.items then 6 * (k.items - t.i) + 1 else 1
    case Want => 6 * later + 6
    case Check => 6 * later + 5
    case Asleep => 6 * later + 4
    case Owes => 6 * later + 4
    case Finished => 0
  }

  function Work(k: Config, s: State): nat { WorkOf(k, s.producer) + WorkOf(k, s.consumer) }

  lemma StepUsesWork(k: Config, s: State, a: Action)
    requires Enabled(s, a)
    ensures Work(k, Do(k, s, a)) + 1 <= Work(k, s) + (if a.Spurious? then 3 else 0)
  {
  }

  function SpuriousCount(acts: seq<Action>): nat {
    if acts == [] then 0 else (if acts[0].Spurious? then 1 else 0) + SpuriousCount(acts[1..])
  }

  /** Without spurious wake-ups a run takes at most 12 * items + 2 steps; each one adds at most three. */
  lemma RunBound(k: Config, acts: seq<Action>, s: State)
    requires Reaches(k, START, acts, s)
    ensures |acts| <= 12 * k.items + 2 + 3 * SpuriousCount(acts)
  {
    RunUsesWork(k, START, acts, s);
  }

  lemma {:induction false} RunUsesWork(k: Config, s: State, acts: seq<Action>, s': State)
    requires Reaches(k, s, acts, s')
    ensures Work(k, s') + |acts| <= Work(k, s) + 3 * SpuriousCount(acts)
    decreases |acts|
  {
    if acts != [] {
      StepUsesWork(k, s, acts[0]);
      RunUsesWork(k, Do(k, s, acts[0]), acts[1..], s');
    }
  }

  // ------------------------------------------------------------- In the code

  /** The two loops over the shared deque, one method for each atomic region. */
  class Exchange {
    const k: Config
    var buffer: seq<int>
    var owner: Mutex
    var producer: Thread
    var consumer: Thread
    var consumed: seq<int>

    ghost function View(): State
      reads this
    {
      State(producer, consumer, owner, buffer, consumed)
    }

    constructor (k: Config)
      ensures this.k == k && View() == START
    {
      this.k := k;
      buffer, consumed, owner := [], [], Free;
      producer, consumer := Thread(0, Top), Thread(0, Top);
    }

    /** The loop conditions: lines 14 and 29. */
    method TestLoop(who: Side)
      requires Enabled(View(), Test(who))
      modifies this
      ensures View() == Do(k, old(View()), Test(who))
    {
      if who.Producer? {
        producer := Thread(producer.i, if producer.i < k.items then Want else Finished);
      } else {
        consumer := Thread(consumer.i, if consumer.i < k.items then Want else Finished);
      }
    }

    method Acquire(who: Side)
      requires Enabled(View(), Lock(who))
      modifies this
      ensures View() == Do(k, old(View()), Lock(who))
    {
      owner := HeldBy(who);
      if who.Producer? {
        producer := Thread(producer.i, Check);
      } else {
        consumer := Thread(consumer.i, Check);
      }
    }

    /** Lines 17-22. */
    method Produce()
      requires Enabled(View(), Region(Producer))
      modifies this
      ensures View() == Do(k, old(View()), Region(Producer))
    {
      owner := Free;
      if |buffer| < k.capacity {
        buffer := buffer + [producer.i];
        producer := Thread(producer.i, Owes);
      } else {
        producer := Thread(producer.i, Asleep);
      }
    }

    /** Lines 32-38. */
    method Consume()
      requires Enabled(View(), Region(Consumer))
      modifies this
      ensures View() == Do(k, old(View()), Region(Consumer))
    {
      owner := Free;
      if |buffer| > 0 {
        var data := buffer[0];
        buffer := buffer[1..];
        consumed := consumed + [data];
        consumer := Thread(consumer.i, Owes);
      } else {
        consumer := Thread(consumer.i, Asleep);
      }
    }

    /** cv.notify_one and the end of the turn: lines 23 and 39. */
    method NotifyOne(who: Side)
      requires Enabled(View(), Notify(who))
      modifies this
      ensures View() == Do(k, old(View()), Notify(who))
    {
      if who.Producer? {
        producer := Thread(producer.i + 1, Top);
        if consumer.pc.Asleep? {
          consumer := Thread(consumer.i, Want);
        }
      } else {
        consumer := Thread(consumer.i + 1, Top);
        if producer.pc.Asleep? {
          producer := Thread(producer.i, Want);
        }
      }
    }

    method WakeSpuriously(who: Side)
      requires Enabled(View(), Spurious(who))
      modifies this
      ensures View() == Do(k, old(View()), Spurious(who))
    {
      if who.Producer? {
        producer := Thread(producer.i, Want);
      } else {
        consumer := Thread(consumer.i, Want);
      }
    }

    /** Runs the program under a scheduler, as `Follow` does on states: whatever the schedule, the object
        stays in order. */
    method RunSchedule(schedule: seq<Action>)
      requires View() == START && k.capacity >= 1
      modifies this
      ensures View() == Follow(k, START, schedule)
      ensures consumed + buffer == Upto(0, Moved(producer)) && |buffer| <= k.capacity
      ensures !(producer.pc.Asleep? && consumer.pc.Asleep?)
      ensures Quiescent(View()) ==> buffer == [] && consumed == Upto(0, k.items)
    {
      ghost var taken: seq<Action> := [];
      var i := 0;
      while i < |schedule|
        invariant 0 <= i <= |schedule| && Reaches(k, START, taken, View())
        invariant Follow(k, View(), schedule[i..]) == Follow(k, START, schedule)
      {
        var a := schedule[i];
        if Enabled(State(producer, consumer, owner, buffer, consumed), a) {
          ReachesSnoc(k, START, taken, View(), a);
          taken := taken + [a];
          Perform(a);
        }
        i := i + 1;
      }
      AlwaysInOrder(k, taken, View());
      if Quiescent(View()) {
        NeverStuck(k, taken, View());
      }
    }

    method Perform(a: Action)
      requires Enabled(View(), a)
      modifies this
      ensures View() == Do(k, old(View()), a)
    {
      match a
      case Test(who) => TestLoop(who);
      case Lock(who) => Acquire(who);
      case Region(who) =>
        if who.Producer? {
          Produce();
        } else {
          Consume();
        }
      case Notify(who) => NotifyOne(who);
      case Spurious(who) => WakeSpuriously(who);
    }
  }

  /** The state that a schedule leads to, a step that is not possible being skipped. */
  function Follow(k: Config, s: State, schedule: seq<Action>): State
    decreases |schedule|
  {
    if schedule == [] then s
    else Follow(k, if Enabled(s, schedule[0]) then Do(k, s, schedule[0]) else s, schedule[1..])
  }

  lemma {:induction false} ReachesSnoc(k: Config, s: State, acts: seq<Action>, t: State, a: Action)
    requires Reaches(k, s, acts, t) && Enabled(t, a)
    ensures Reaches(k, s, acts + [a], Do(k, t, a))
    decreases |acts|
  {
    if acts == [] {
      assert ([] + [a])[1..] == [];
      assert Reaches(k, Do(k, s, a), [], Do(k, t, a));
    } else {
      assert (acts + [a])[1..] == acts[1..] + [a];
      ReachesSnoc(k, Do(k, s, acts[0]), acts[1..], t, a);
    }
  }
}
