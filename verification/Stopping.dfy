/** What becomes of the stoppable buffer once `done` is set (threads/elements.cpp:69-77).  The flag is stored
    without the mutex, so a thread may have found it unset and block after its `notify_all`. */
module Stopping {
  import opened Summation
  import opened StoppableBuffer

  predicate DrowsyC(s: State) { exists c :: 0 <= c < |s.consumers| && s.consumers[c].CDrowsy? }

  predicate DrowsyP(s: State) { exists p :: 0 <= p < |s.producers| && s.producers[p].PDrowsy? }

  predicate MissedAtC(s: State, c: nat) {
    c < |s.consumers| && (s.consumers[c].CDrowsy? || s.consumers[c].CSleeps?)
  }

  predicate MissedAtP(s: State, p: nat) {
    p < |s.producers| && (s.producers[p].PDrowsy? || s.producers[p].PSleeps?)
  }

  predicate MissedC(s: State) { exists c :: 0 <= c < |s.consumers| && MissedAtC(s, c) }

  predicate MissedP(s: State) { exists p :: 0 <= p < |s.producers| && MissedAtP(s, p) }

  /** Some producer has an element in hand. */
  predicate SomeHolder(s: State) { exists p :: 0 <= p < |s.producers| && InHandP(s.producers[p]) == 1 }

  /** Some consumer will go for an element once the first `notify_all` has been called. */
  predicate SomeTaker(s: State) {
    exists c :: 0 <= c < |s.consumers| && TakerAt(s, c)
  }

  predicate TakerAt(s: State, c: nat)
    requires c < |s.consumers|
  {
    s.consumers[c].CWants? || (s.main.Stored? && s.consumers[c].CSleeps?)
  }

  // ---------------------------------------------------------------- Ending

  function RankP(p: Producer): nat {
    match p
    case PDrowsy => 7
    case PSleeps => 6
    case PHas => 5
    case PChecks => 4
    case PFull => 3
    case POwes => 2
    case PTop => 1
    case PLeft => 0
    case PGaveUp => 0
  }

  function RankC(c: Consumer): nat {
    match c
    case CDrowsy => 8
    case CSleeps => 7
    case CWants => 6
    case CChecks => 5
    case CEmpty => 4
    case COwes => 3
    case CHas => 2
    case CTop => 1
    case CLeft => 0
    case CGaveUp => 0
  }

  function RankM(m: Main): nat {
    match m
    case Waiting => 3
    case Stored => 2
    case ToldConsumers => 1
    case ToldProducers => 0
  }

  function Rank(s: State): nat { Sum(s.producers, RankP) + Sum(s.consumers, RankC) + RankM(s.main) }

  lemma ProducersFall(max: nat, s: State, a: Action)
    requires Enabled(s, a) && Done(s)
    ensures Sum(Do(max, s, a).producers, RankP) + (if a.StepP? || a.SignalConsumer? || a.WakeP? then 1 else 0)
         <= Sum(s.producers, RankP)
  {
    if MovedP(s, a) >= 0 {
      SumStepP(max, s, a, RankP);
    } else {
      SumRaised(s.producers, Do(max, s, a).producers, RankP, 0);
    }
  }

  lemma ConsumersFall(max: nat, s: State, a: Action)
    requires Enabled(s, a) && Done(s)
    ensures Sum(Do(max, s, a).consumers, RankC) + (if a.StepC? || a.SignalProducer? || a.WakeC? then 1 else 0)
         <= Sum(s.consumers, RankC)
  {
    if MovedC(s, a) >= 0 {
      SumStepC(max, s, a, RankC);
    } else {
      SumRaised(s.consumers, Do(max, s, a).consumers, RankC, 0);
    }
  }

  /** Once `done` is set every step brings the program nearer to its end, spurious wake-ups included. */
  lemma StepFalls(max: nat, s: State, a: Action)
    requires Enabled(s, a) && Done(s)
    ensures Done(Do(max, s, a)) && Rank(Do(max, s, a)) < Rank(s)
  {
    ProducersFall(max, s, a);
    ConsumersFall(max, s, a);
  }

  /** So every run after `done = true` ends, within a bound that the number of threads gives. */
  lemma StopEnds(max: nat, s: State, acts: seq<Action>, s': State)
    requires Done(s) && Reaches(max, s, acts, s')
    ensures |acts| <= 7 * |s.producers| + 8 * |s.consumers| + 2
  {
    RunFalls(max, s, acts, s');
    RanksBounded(s.producers, s.consumers);
  }

  lemma {:induction false} RunFalls(max: nat, s: State, acts: seq<Action>, s': State)
    requires Done(s) && Reaches(max, s, acts, s')
    ensures Done(s') && Rank(s') + |acts| <= Rank(s)
    decreases |acts|
  {
    if acts != [] {
      StepFalls(max, s, acts[0]);
      RunFalls(max, Do(max, s, acts[0]), acts[1..], s');
    }
  }

  lemma {:induction false} RanksBounded(ps: seq<Producer>, cs: seq<Consumer>)
    ensures Sum(ps, RankP) <= 7 * |ps| && Sum(cs, RankC) <= 8 * |cs|
    decreases |ps| + |cs|
  {
    if ps != [] {
      RanksBounded(ps[1..], cs);
    } else if cs != [] {
      RanksBounded(ps, cs[1..]);
    }
  }

  predicate Spurious(a: Action) { a.WakeP? || a.WakeC? }

  /** A run to rest without spurious wake-ups. */
  lemma {:induction false} RunsToRest(max: nat, s: State) returns (acts: seq<Action>, s': State)
    requires Done(s)
    ensures Reaches(max, s, acts, s') && Quiescent(s') && Done(s')
    ensures forall i :: 0 <= i < |acts| ==> !Spurious(acts[i])
    decreases Rank(s)
  {
    if Quiescent(s) {
      acts, s' := [], s;
    } else {
      var a: Action :| Enabled(s, a) && !Spurious(a) && !a.Store?;
      StepFalls(max, s, a);
      var rest;
      rest, s' := RunsToRest(max, Do(max, s, a));
      acts := [a] + rest;
      assert acts[1..] == rest;
    }
  }

  // ---------------------------------------------------------- When it is safe

  predicate LoneMissedC(s: State) {
    forall b, c :: 0 <= b < c < |s.consumers| ==> !(MissedAtC(s, b) && MissedAtC(s, c))
  }

  predicate LoneMissedP(s: State) {
    forall p, q :: 0 <= p < q < |s.producers| ==> !(MissedAtP(s, p) && MissedAtP(s, q))
  }

  /** A notify will reach the consumer that missed `done`: it is owed with nobody about to block, or a
      producer with an element in hand will find the buffer empty and owe it. */
  predicate RescueC(s: State) {
    || (!DrowsyC(s) && exists p :: 0 <= p < |s.producers| && s.producers[p].POwes?)
    || (s.size == 0 && SomeHolder(s))
  }

  /** Dually, a notify is owed, or a consumer will find the buffer full and owe it. */
  predicate RescueP(max: nat, s: State) {
    || (!DrowsyP(s) && exists c :: 0 <= c < |s.consumers| && s.consumers[c].COwes?)
    || (s.size == max && exists c :: 0 <= c < |s.consumers| && (s.consumers[c].CWants? || s.consumers[c].CChecks?))
  }

  /** `done` is set, and every consumer that misses it will be reached. */
  predicate SavedC(s: State) {
    Done(s) &&
    if s.main.Stored? then DrowsyC(s) ==> SomeHolder(s)
    else LoneMissedC(s) && (MissedC(s) ==> RescueC(s))
  }

  predicate SavedP(max: nat, s: State) {
    Done(s) &&
    if s.main.ToldProducers? then LoneMissedP(s) && (MissedP(s) ==> RescueP(max, s))
    else DrowsyP(s) ==> SomeTaker(s)
  }

  /** With `done` set nobody falls asleep who had not already found it unset. */
  lemma NoNewSleeper(max: nat, s: State, a: Action, i: nat)
    requires Enabled(s, a) && Done(s)
    ensures MissedAtC(Do(max, s, a), i) ==> MissedAtC(s, i)
    ensures MissedAtP(Do(max, s, a), i) ==> MissedAtP(s, i)
    ensures i < |s.consumers| && Do(max, s, a).consumers[i].CDrowsy? ==> s.consumers[i].CDrowsy?
    ensures i < |s.producers| && Do(max, s, a).producers[i].PDrowsy? ==> s.producers[i].PDrowsy?
  {
  }

  /** Who is about to block has the mutex, and the buffer is as it was found. */
  lemma DrowsyHasMutex(max: nat, s: State, i: nat)
    requires ThreadsOk(max, s)
    ensures i < |s.consumers| && s.consumers[i].CDrowsy? ==> s.owner == ByConsumer(i) && s.size == 0
    ensures i < |s.producers| && s.producers[i].PDrowsy? ==> s.owner == ByProducer(i) && s.size == max
  {
    assert i < |s.consumers| ==> ConsumerOk(s, i);
    assert i < |s.producers| ==> ProducerOk(max, s, i);
  }

  lemma LoneStep(max: nat, s: State, a: Action)
    requires Enabled(s, a) && Done(s)
    ensures LoneMissedC(s) ==> LoneMissedC(Do(max, s, a))
    ensures LoneMissedP(s) ==> LoneMissedP(Do(max, s, a))
  {
    forall i: nat
      ensures MissedAtC(Do(max, s, a), i) ==> MissedAtC(s, i)
      ensures MissedAtP(Do(max, s, a), i) ==> MissedAtP(s, i)
    {
      NoNewSleeper(max, s, a, i);
    }
  }

  // ................................................................. Consumers

  /** Before its `notify_all` a consumer about to block keeps the mutex from whoever holds an element. */
  lemma StoredStepC(max: nat, s: State, a: Action)
    requires Enabled(s, a) && ThreadsOk(max, s) && s.main.Stored? && (DrowsyC(s) ==> SomeHolder(s))
    ensures DrowsyC(Do(max, s, a)) ==> SomeHolder(Do(max, s, a))
  {
    var t := Do(max, s, a);
    if c :| 0 <= c < |t.consumers| && t.consumers[c].CDrowsy? {
      NoNewSleeper(max, s, a, c);
      DrowsyHasMutex(max, s, c);
      var p :| 0 <= p < |s.producers| && InHandP(s.producers[p]) == 1;
      assert ProducerOk(max, s, p);
      assert t.producers[p] == ProducerAfter(max, s, a, p) && InHandP(t.producers[p]) == 1;
    }
  }

  lemma TellStepC(max: nat, s: State)
    requires Enabled(s, TellConsumers) && ThreadsOk(max, s) && (DrowsyC(s) ==> SomeHolder(s))
    ensures SavedC(Do(max, s, TellConsumers))
  {
    var t := Do(max, s, TellConsumers);
    assert t.producers == s.producers;
    forall c: nat | MissedAtC(t, c)
      ensures s.consumers[c].CDrowsy? && s.owner == ByConsumer(c) && s.size == 0
    {
      assert t.consumers[c] == ConsumerAfter(s, TellConsumers, c);
      DrowsyHasMutex(max, s, c);
    }
  }

  /** A producer with an element in hand that comes to an empty buffer will owe a notify. */
  lemma HolderStep(max: nat, s: State, a: Action)
    requires max >= 1 && Enabled(s, a) && ThreadsOk(max, s) && Done(s) && s.size == 0 && SomeHolder(s)
    ensures RescueC(Do(max, s, a))
  {
    var t := Do(max, s, a);
    var p :| 0 <= p < |s.producers| && InHandP(s.producers[p]) == 1;
    assert ProducerOk(max, s, p) && t.producers[p] == ProducerAfter(max, s, a, p);
    if Stores(max, s, a) {
      StoreWakes(max, s, a);
    } else {
      assert InHandP(t.producers[p]) == 1;
    }
  }

  lemma StoreWakes(max: nat, s: State, a: Action)
    requires Enabled(s, a) && ThreadsOk(max, s) && Done(s) && Stores(max, s, a)
    ensures RescueC(Do(max, s, a))
  {
    var t := Do(max, s, a);
    assert ProducerOk(max, s, a.p);
    assert t.producers[a.p] == ProducerAfter(max, s, a, a.p) && t.producers[a.p].POwes?;
    forall c | 0 <= c < |t.consumers|
      ensures !t.consumers[c].CDrowsy?
    {
      NoNewSleeper(max, s, a, c);
      DrowsyHasMutex(max, s, c);
    }
  }

  /** A notify that is owed while the one consumer that missed `done` sleeps will reach it. */
  lemma OwedStepC(max: nat, s: State, a: Action, p: nat)
    requires Enabled(s, a) && Done(s) && LoneMissedC(s) && !DrowsyC(s)
    requires p < |s.producers| && s.producers[p].POwes? && MissedC(Do(max, s, a))
    ensures RescueC(Do(max, s, a))
  {
    var t := Do(max, s, a);
    var c :| 0 <= c < |t.consumers| && MissedAtC(t, c);
    NoNewSleeper(max, s, a, c);
    assert t.producers[p] == ProducerAfter(max, s, a, p) && t.consumers[c] == ConsumerAfter(s, a, c);
    assert MissedAtC(s, c) && SleepingC(s, c);
    assert a.SignalConsumer? ==> MissedAtC(s, a.target);
    forall b | 0 <= b < |t.consumers|
      ensures !t.consumers[b].CDrowsy?
    {
      NoNewSleeper(max, s, a, b);
    }
  }

  lemma SavedStepC(max: nat, s: State, a: Action)
    requires max >= 1 && Enabled(s, a) && ThreadsOk(max, s) && SavedC(s)
    ensures SavedC(Do(max, s, a))
  {
    if a.TellConsumers? {
      TellStepC(max, s);
    } else if s.main.Stored? {
      StoredStepC(max, s, a);
    } else {
      LoneStep(max, s, a);
      if MissedC(Do(max, s, a)) {
        MissedBackC(max, s, a);
        if s.size == 0 && SomeHolder(s) {
          HolderStep(max, s, a);
        } else {
          var p :| 0 <= p < |s.producers| && s.producers[p].POwes?;
          OwedStepC(max, s, a, p);
        }
      }
    }
  }

  lemma MissedBackC(max: nat, s: State, a: Action)
    requires Enabled(s, a) && Done(s) && MissedC(Do(max, s, a))
    ensures MissedC(s)
  {
    var c :| 0 <= c < |Do(max, s, a).consumers| && MissedAtC(Do(max, s, a), c);
    NoNewSleeper(max, s, a, c);
  }

  // ................................................................. Producers

  lemma EarlyStepP(max: nat, s: State, a: Action)
    requires Enabled(s, a) && ThreadsOk(max, s) && Done(s) && (DrowsyP(s) ==> SomeTaker(s))
    ensures DrowsyP(Do(max, s, a)) ==> SomeTaker(Do(max, s, a))
  {
    var t := Do(max, s, a);
    if p :| 0 <= p < |t.producers| && t.producers[p].PDrowsy? {
      NoNewSleeper(max, s, a, p);
      DrowsyHasMutex(max, s, p);
      var c :| 0 <= c < |s.consumers| && TakerAt(s, c);
      assert ConsumerOk(s, c);
      assert t.consumers[c] == ConsumerAfter(s, a, c) && TakerAt(t, c);
    }
  }

  lemma TellStepP(max: nat, s: State)
    requires Enabled(s, TellProducers) && ThreadsOk(max, s) && (DrowsyP(s) ==> SomeTaker(s))
    ensures SavedP(max, Do(max, s, TellProducers))
  {
    var t := Do(max, s, TellProducers);
    assert t.consumers == s.consumers;
    forall p: nat | MissedAtP(t, p)
      ensures s.producers[p].PDrowsy? && s.owner == ByProducer(p) && s.size == max
    {
      assert t.producers[p] == ProducerAfter(max, s, TellProducers, p);
      DrowsyHasMutex(max, s, p);
    }
    if MissedP(t) {
      var c :| 0 <= c < |s.consumers| && TakerAt(s, c);
      assert t.consumers[c].CWants?;
    }
  }

  /** A consumer that comes to a full buffer will owe a notify. */
  lemma TakerStep(max: nat, s: State, a: Action, c: nat)
    requires max >= 1 && Enabled(s, a) && ThreadsOk(max, s) && Done(s) && s.size == max
    requires c < |s.consumers| && (s.consumers[c].CWants? || s.consumers[c].CChecks?)
    ensures RescueP(max, Do(max, s, a))
  {
    var t := Do(max, s, a);
    assert ConsumerOk(s, c) && t.consumers[c] == ConsumerAfter(s, a, c);
    if Takes(s, a) {
      TakeWakes(max, s, a);
    } else {
      assert t.consumers[c].CWants? || t.consumers[c].CChecks?;
    }
  }

  lemma TakeWakes(max: nat, s: State, a: Action)
    requires Enabled(s, a) && ThreadsOk(max, s) && Done(s) && Takes(s, a)
    ensures RescueP(max, Do(max, s, a))
  {
    var t := Do(max, s, a);
    assert ConsumerOk(s, a.c);
    assert t.consumers[a.c] == ConsumerAfter(s, a, a.c) && t.consumers[a.c].COwes?;
    forall p | 0 <= p < |t.producers|
      ensures !t.producers[p].PDrowsy?
    {
      NoNewSleeper(max, s, a, p);
      DrowsyHasMutex(max, s, p);
    }
  }

  lemma OwedStepP(max: nat, s: State, a: Action, c: nat)
    requires Enabled(s, a) && Done(s) && LoneMissedP(s) && !DrowsyP(s)
    requires c < |s.consumers| && s.consumers[c].COwes? && MissedP(Do(max, s, a))
    ensures RescueP(max, Do(max, s, a))
  {
    var t := Do(max, s, a);
    var p :| 0 <= p < |t.producers| && MissedAtP(t, p);
    NoNewSleeper(max, s, a, p);
    assert t.consumers[c] == ConsumerAfter(s, a, c) && t.producers[p] == ProducerAfter(max, s, a, p);
    assert MissedAtP(s, p) && SleepingP(s, p);
    assert a.SignalProducer? ==> MissedAtP(s, a.target);
    forall q | 0 <= q < |t.producers|
      ensures !t.producers[q].PDrowsy?
    {
      NoNewSleeper(max, s, a, q);
    }
  }

  lemma SavedStepP(max: nat, s: State, a: Action)
    requires max >= 1 && Enabled(s, a) && ThreadsOk(max, s) && SavedP(max, s)
    ensures SavedP(max, Do(max, s, a))
  {
    if a.TellProducers? {
      TellStepP(max, s);
    } else if !s.main.ToldProducers? {
      EarlyStepP(max, s, a);
    } else {
      LoneStep(max, s, a);
      if MissedP(Do(max, s, a)) {
        MissedBackP(max, s, a);
        if c :| 0 <= c < |s.consumers| && (s.consumers[c].CWants? || s.consumers[c].CChecks?) && s.size == max {
          TakerStep(max, s, a, c);
        } else {
          var c :| 0 <= c < |s.consumers| && s.consumers[c].COwes?;
          OwedStepP(max, s, a, c);
        }
      }
    }
  }

  lemma MissedBackP(max: nat, s: State, a: Action)
    requires Enabled(s, a) && Done(s) && MissedP(Do(max, s, a))
    ensures MissedP(s)
  {
    var p :| 0 <= p < |Do(max, s, a).producers| && MissedAtP(Do(max, s, a), p);
    NoNewSleeper(max, s, a, p);
  }

  // ................................................................ Whole runs

  lemma {:induction false} SavedStays(max: nat, s: State, acts: seq<Action>, s': State)
    requires max >= 1 && Inv(max, s) && Reaches(max, s, acts, s')
    ensures Inv(max, s')
    ensures SavedC(s) ==> SavedC(s')
    ensures SavedP(max, s) ==> SavedP(max, s')
    decreases |acts|
  {
    if acts != [] {
      var t := Do(max, s, acts[0]);
      if SavedC(s) {
        SavedStepC(max, s, acts[0]);
      }
      if SavedP(max, s) {
        SavedStepP(max, s, acts[0]);
      }
      RunKeepsInv(max, s, [acts[0]], t);
      SavedStays(max, t, acts[1..], s');
    }
  }

  /** At rest a thread that missed its notify has nobody left to wake it; so there is none. */
  lemma SavedRest(max: nat, s: State)
    requires Inv(max, s) && SavedC(s) && SavedP(max, s) && Quiescent(s)
    ensures Returned(s)
    ensures s.produced - s.consumed - s.size == Sum(s.producers, Lost) <= |s.producers|
  {
    QuiescentThreads(max, s);
    assert !Enabled(s, TellConsumers) && !Enabled(s, TellProducers);
    assert !MissedP(s);
    forall p | 0 <= p < |s.producers|
      ensures !s.producers[p].PSleeps?
    {
      assert !MissedAtP(s, p);
    }
    assert !MissedC(s);
    forall c | 0 <= c < |s.consumers|
      ensures !s.consumers[c].CSleeps?
    {
      assert !MissedAtC(s, c);
    }
    ReturnedCounters(max, s);
  }

  /** Stopping completes, whatever the threads do meanwhile, when a consumer about to block at the first
      `notify_all` leaves some producer with an element in hand, and a producer about to block at the
      second leaves some consumer that wants one.  The printed numbers then differ by the producers that
      gave up. */
  lemma StopCompletes(max: nat, producers: nat, consumers: nat, before: seq<Action>, s: State,
                      between: seq<Action>, t: State, after: seq<Action>, s': State)
    requires max >= 1
    requires Reaches(max, Init(producers, consumers), before, s)
    requires s.main.Stored? && (DrowsyC(s) ==> SomeHolder(s))
    requires Reaches(max, s, between, t) && t.main.ToldConsumers? && (DrowsyP(t) ==> SomeTaker(t))
    requires Reaches(max, t, after, s') && Quiescent(s')
    ensures Returned(s')
    ensures s'.produced - s'.consumed - s'.size == Sum(s'.producers, Lost) <= producers
  {
    InitInv(max, producers, consumers);
    RunKeepsInv(max, Init(producers, consumers), before, s);
    SavedStays(max, s, between, t);
    RunKeepsInv(max, s, between, t);
    SavedStays(max, t, after, s');
    RunKeepsInv(max, t, after, s');
    SavedRest(max, s');
  }

  // ---------------------------------------------------------- When it is not

  /** A consumer missed `done`, and no producer will ever owe a notify again. */
  predicate HungC(s: State) {
    && Done(s) && !s.main.Stored? && MissedC(s)
    && forall p :: 0 <= p < |s.producers| ==> s.producers[p].PTop? || s.producers[p].PLeft? || s.producers[p].PGaveUp?
  }

  predicate Spent(c: Consumer) { c.CTop? || c.CHas? || c.CLeft? || c.CGaveUp? }

  /** A producer missed `done`, and no consumer will ever owe a notify again. */
  predicate HungP(s: State) {
    && s.main.ToldProducers? && MissedP(s)
    && forall c :: 0 <= c < |s.consumers| ==> Spent(s.consumers[c])
  }

  lemma HungStepC(max: nat, s: State, a: Action)
    requires Enabled(s, a) && !Spurious(a) && HungC(s)
    ensures HungC(Do(max, s, a))
  {
    var t := Do(max, s, a);
    var c :| 0 <= c < |s.consumers| && MissedAtC(s, c);
    assert t.consumers[c] == ConsumerAfter(s, a, c) && MissedAtC(t, c);
    forall p | 0 <= p < |t.producers|
      ensures t.producers[p].PTop? || t.producers[p].PLeft? || t.producers[p].PGaveUp?
    {
      assert t.producers[p] == ProducerAfter(max, s, a, p);
    }
  }

  lemma HungStepP(max: nat, s: State, a: Action)
    requires Enabled(s, a) && !Spurious(a) && HungP(s)
    ensures HungP(Do(max, s, a))
  {
    var t := Do(max, s, a);
    var p :| 0 <= p < |s.producers| && MissedAtP(s, p);
    assert t.producers[p] == ProducerAfter(max, s, a, p) && MissedAtP(t, p);
    forall c | 0 <= c < |t.consumers|
      ensures Spent(t.consumers[c])
    {
      assert t.consumers[c] == ConsumerAfter(s, a, c) && Spent(s.consumers[c]);
    }
  }

  lemma {:induction false} HungStays(max: nat, s: State, acts: seq<Action>, s': State)
    requires Reaches(max, s, acts, s') && forall i :: 0 <= i < |acts| ==> !Spurious(acts[i])
    ensures HungC(s) ==> HungC(s')
    ensures HungP(s) ==> HungP(s')
    decreases |acts|
  {
    if acts != [] {
      if HungC(s) {
        HungStepC(max, s, acts[0]);
      }
      if HungP(s) {
        HungStepP(max, s, acts[0]);
      }
      HungStays(max, Do(max, s, acts[0]), acts[1..], s');
    }
  }

  /** Some run comes to rest with a thread that has not returned. */
  ghost predicate CanHang(max: nat, s: State) {
    exists acts, s' :: Reaches(max, s, acts, s') && Quiescent(s') && !Returned(s')
  }

  lemma HungHangs(max: nat, s: State)
    requires Done(s) && (HungC(s) || HungP(s))
    ensures CanHang(max, s)
  {
    var acts, s' := RunsToRest(max, s);
    HungStays(max, s, acts, s');
  }

  lemma HangsEarlier(max: nat, s: State, a: Action)
    requires Enabled(s, a) && CanHang(max, Do(max, s, a))
    ensures CanHang(max, s)
  {
    var acts, s' :| Reaches(max, Do(max, s, a), acts, s') && Quiescent(s') && !Returned(s');
    assert ([a] + acts)[1..] == acts;
    assert Reaches(max, s, [a] + acts, s');
  }

  /** A consumer is about to block and no element is in hand: the notifies still owed may all come before
      it blocks, and so may its `notify_all`. */
  lemma {:induction false} HangC(max: nat, s: State)
    requires s.main.Stored? && DrowsyC(s) && !SomeHolder(s)
    ensures CanHang(max, s)
    decreases Rank(s)
  {
    if p :| 0 <= p < |s.producers| && s.producers[p].POwes? {
      var a := SignalConsumer(p, if c :| 0 <= c < |s.consumers| && SleepingC(s, c) then c else 0);
      StepFalls(max, s, a);
      DrainStepC(max, s, a);
      HangC(max, Do(max, s, a));
      HangsEarlier(max, s, a);
    } else {
      ToldHungC(max, s);
      HungHangs(max, Do(max, s, TellConsumers));
      HangsEarlier(max, s, TellConsumers);
    }
  }

  lemma DrainStepC(max: nat, s: State, a: Action)
    requires Enabled(s, a) && a.SignalConsumer? && DrowsyC(s) && !SomeHolder(s)
    ensures var t := Do(max, s, a); t.main == s.main && DrowsyC(t) && !SomeHolder(t)
  {
    var t := Do(max, s, a);
    var c :| 0 <= c < |s.consumers| && s.consumers[c].CDrowsy?;
    assert t.consumers[c] == ConsumerAfter(s, a, c);
    forall p | 0 <= p < |t.producers|
      ensures InHandP(t.producers[p]) == 0
    {
      assert t.producers[p] == ProducerAfter(max, s, a, p);
    }
  }

  lemma ToldHungC(max: nat, s: State)
    requires s.main.Stored? && DrowsyC(s) && !SomeHolder(s)
    requires forall p :: 0 <= p < |s.producers| ==> !s.producers[p].POwes?
    ensures HungC(Do(max, s, TellConsumers))
  {
    var t := Do(max, s, TellConsumers);
    var c :| 0 <= c < |s.consumers| && s.consumers[c].CDrowsy?;
    assert t.consumers[c] == ConsumerAfter(s, TellConsumers, c) && MissedAtC(t, c);
    assert t.producers == s.producers;
  }

  lemma {:induction false} HangP(max: nat, s: State)
    requires ThreadsOk(max, s) && s.main.Stored? && DrowsyP(s) && !SomeTaker(s)
    ensures CanHang(max, s)
    decreases Rank(s)
  {
    if c :| 0 <= c < |s.consumers| && s.consumers[c].COwes? {
      var a := SignalProducer(c, if p :| 0 <= p < |s.producers| && SleepingP(s, p) then p else 0);
      StepFalls(max, s, a);
      DrainStepP(max, s, a);
      StepThreadsOk(max, s, a);
      HangP(max, Do(max, s, a));
      HangsEarlier(max, s, a);
    } else {
      ToldHungP(max, s);
      HungHangs(max, Do(max, Do(max, s, TellConsumers), TellProducers));
      HangsEarlier(max, Do(max, s, TellConsumers), TellProducers);
      HangsEarlier(max, s, TellConsumers);
    }
  }

  lemma DrainStepP(max: nat, s: State, a: Action)
    requires Enabled(s, a) && a.SignalProducer? && s.main.Stored? && DrowsyP(s) && !SomeTaker(s)
    ensures var t := Do(max, s, a); t.main == s.main && DrowsyP(t) && !SomeTaker(t)
  {
    var t := Do(max, s, a);
    var p :| 0 <= p < |s.producers| && s.producers[p].PDrowsy?;
    assert t.producers[p] == ProducerAfter(max, s, a, p);
    forall c | 0 <= c < |t.consumers|
      ensures !TakerAt(t, c)
    {
      assert t.consumers[c] == ConsumerAfter(s, a, c) && !TakerAt(s, c);
    }
  }

  lemma ToldHungP(max: nat, s: State)
    requires ThreadsOk(max, s) && s.main.Stored? && DrowsyP(s) && !SomeTaker(s)
    requires forall c :: 0 <= c < |s.consumers| ==> !s.consumers[c].COwes?
    ensures var u := Do(max, s, TellConsumers); Enabled(u, TellProducers) && HungP(Do(max, u, TellProducers))
  {
    var u := Do(max, s, TellConsumers);
    var t := Do(max, u, TellProducers);
    var p :| 0 <= p < |s.producers| && s.producers[p].PDrowsy?;
    DrowsyHasMutex(max, s, p);
    assert u.producers == s.producers;
    assert t.producers[p] == ProducerAfter(max, u, TellProducers, p) && MissedAtP(t, p);
    forall c | 0 <= c < |t.consumers|
      ensures Spent(t.consumers[c])
    {
      assert ConsumerOk(s, c) && !TakerAt(s, c);
      assert u.consumers[c] == ConsumerAfter(s, TellConsumers, c);
      assert t.consumers[c] == ConsumerAfter(u, TellProducers, c);
    }
  }

  // --------------------------------------------------------------- Exactly when

  /** A consumer is about to block with no element in hand, or a producer with no consumer that wants one. */
  predicate Doomed(s: State) {
    (DrowsyC(s) && !SomeHolder(s)) ||
    (DrowsyP(s) && forall c :: 0 <= c < |s.consumers| ==> !s.consumers[c].CWants? && !s.consumers[c].CSleeps?)
  }

  /** The exact condition, between `done = true` and the first `notify_all`: stopping can hang iff some
      consumer stands between an unset `done` and blocking with no element in a producer's hand, or some
      producer does with no consumer that sleeps or wants the mutex. */
  lemma StopCanHangIff(max: nat, producers: nat, consumers: nat, before: seq<Action>, s: State)
    requires max >= 1 && Reaches(max, Init(producers, consumers), before, s) && s.main.Stored?
    ensures CanHang(max, s) <==> Doomed(s)
  {
    InitInv(max, producers, consumers);
    RunKeepsInv(max, Init(producers, consumers), before, s);
    TakersStored(s);
    if Doomed(s) {
      if DrowsyC(s) && !SomeHolder(s) {
        HangC(max, s);
      } else {
        HangP(max, s);
      }
    } else if CanHang(max, s) {
      var acts, s' :| Reaches(max, s, acts, s') && Quiescent(s') && !Returned(s');
      SavedStays(max, s, acts, s');
      SavedRest(max, s');
      assert false;
    }
  }

  lemma TakersStored(s: State)
    requires s.main.Stored?
    ensures !SomeTaker(s) <==>
              forall c :: 0 <= c < |s.consumers| ==> !s.consumers[c].CWants? && !s.consumers[c].CSleeps?
  {
    assert forall c :: 0 <= c < |s.consumers| ==>
        (TakerAt(s, c) <==> s.consumers[c].CWants? || s.consumers[c].CSleeps?);
  }

  /** The same as `done` is stored. */
  lemma StopCanHangFromStoreIff(max: nat, producers: nat, consumers: nat, before: seq<Action>, s: State)
    requires max >= 1 && Reaches(max, Init(producers, consumers), before, s) && s.main.Waiting?
    ensures CanHang(max, Do(max, s, Store)) <==> Doomed(s)
  {
    var t := Do(max, s, Store);
    ReachesSnoc(max, Init(producers, consumers), before, s, Store);
    StopCanHangIff(max, producers, consumers, before + [Store], t);
    assert t.consumers == s.consumers && t.producers == s.producers;
  }

  /** So, unless doomed as `done` is stored, every run from there ends with all threads returned and the
      printed numbers differing by the producers that gave up. */
  lemma StopCompletesFromStore(max: nat, producers: nat, consumers: nat, before: seq<Action>, s: State,
                               acts: seq<Action>, s': State)
    requires max >= 1 && Reaches(max, Init(producers, consumers), before, s) && s.main.Waiting? && !Doomed(s)
    requires Reaches(max, Do(max, s, Store), acts, s') && Quiescent(s')
    ensures Returned(s')
    ensures s'.produced - s'.consumed - s'.size == Sum(s'.producers, Lost) <= producers
  {
    StopCanHangFromStoreIff(max, producers, consumers, before, s);
    assert Returned(s');
    InitInv(max, producers, consumers);
    RunKeepsInv(max, Init(producers, consumers), before, s);
    assert Reaches(max, s, [Store], Do(max, s, Store));
    RunKeepsInv(max, s, [Store], Do(max, s, Store));
    RunKeepsInv(max, Do(max, s, Store), acts, s');
    ReturnedCounters(max, s');
  }

  // ------------------------------------------------------------------- A run

  /** The first consumer goes on, nothing being produced. */
  lemma FirstMoves(max: nat, s: State)
    requires Enabled(s, StepC(0)) && s.size == 0 && !s.consumers[0].CHas?
    ensures var t := Do(max, s, StepC(0));
            && t.producers == s.producers && t.size == 0 && t.main == s.main && t.owner == OwnerAfter(max, s, StepC(0))
            && |t.consumers| == |s.consumers| && t.consumers[0] == ConsumerStep(s, s.consumers[0])
  {
  }

  /** It comes to stand between its test of `done` and blocking. */
  lemma FirstDrowsy(max: nat, producers: nat, consumers: nat) returns (acts: seq<Action>, s: State)
    requires consumers >= 1
    ensures Reaches(max, Init(producers, consumers), acts, s)
    ensures s.main.Waiting? && s.producers == Init(producers, consumers).producers
    ensures |s.consumers| == consumers && s.consumers[0].CDrowsy?
  {
    s := Init(producers, consumers);
    acts := [];
    var i := 0;
    while i < 4
      invariant 0 <= i <= 4 && Reaches(max, Init(producers, consumers), acts, s)
      invariant s.main.Waiting? && s.size == 0 && s.producers == Init(producers, consumers).producers
      invariant |s.consumers| == consumers && s.consumers[0] == [CTop, CWants, CChecks, CEmpty, CDrowsy][i]
      invariant s.owner == if i < 2 then Free else ByConsumer(0)
    {
      FirstMoves(max, s);
      ReachesSnoc(max, Init(producers, consumers), acts, s, StepC(0));
      acts := acts + [StepC(0)];
      s := Do(max, s, StepC(0));
      i := i + 1;
    }
  }

  /** With a consumer, whatever the numbers of threads: stored before the first consumer blocks and before any
      producer has an element, `done` leaves a program that can hang. */
  lemma StopCanHang(max: nat, producers: nat, consumers: nat) returns (before: seq<Action>, s: State)
    requires max >= 1 && consumers >= 1
    ensures Reaches(max, Init(producers, consumers), before, s) && s.main.Waiting?
    ensures CanHang(max, Do(max, s, Store))
  {
    before, s := FirstDrowsy(max, producers, consumers);
    assert DrowsyC(s) && !SomeHolder(s);
    StopCanHangFromStoreIff(max, producers, consumers, before, s);
  }
}
