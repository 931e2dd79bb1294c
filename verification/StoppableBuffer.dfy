/** The bounded buffer that can be stopped (threads/elements.cpp), for any number of producers and
    consumers and any capacity.  An element carries no data, so only the buffer's size is kept.

    `done` is stored without the mutex, so testing it and blocking are separate steps. */
module StoppableBuffer {
  import opened Summation

  datatype Producer =
    | PTop          // about to test `done`
    | PHas          // has produced an element; wants the mutex
    | PChecks       // holds the mutex, tests the size
    | PFull         // holds the mutex, saw a full buffer, about to test `done`
    | PDrowsy       // holds the mutex, saw `done` false, about to block
    | PSleeps       // blocked on produce_cv
    | POwes         // stored its element, owes consume_cv.notify_one
    | PLeft         // left the loop
    | PGaveUp       // returned from the full buffer, element still in hand

  datatype Consumer =
    | CTop | CWants | CChecks | CEmpty | CDrowsy | CSleeps
    | COwes         // took an element, owes produce_cv.notify_one
    | CHas          // about to consume it
    | CLeft
    | CGaveUp       // returned from the empty buffer

  datatype Mutex = Free | ByProducer(p: nat) | ByConsumer(c: nat)

  datatype Main = Waiting | Stored | ToldConsumers | ToldProducers

  datatype State = State(
    producers: seq<Producer>, consumers: seq<Consumer>, owner: Mutex, size: nat, main: Main,
    produced: nat, consumed: nat)

  datatype Action =
    | StepP(p: nat)                 // whatever producer p does next, but for the two below
    | SignalConsumer(p: nat, target: nat)
    | WakeP(p: nat)                 // spurious
    | StepC(c: nat)
    | SignalProducer(c: nat, target: nat)
    | WakeC(c: nat)                 // spurious
    | Store                         // done = true
    | TellConsumers                 // consume_cv.notify_all
    | TellProducers                 // produce_cv.notify_all

  function Done(s: State): bool { !s.main.Waiting? }

  function Init(producers: nat, consumers: nat): State {
    State(seq(producers, _ => PTop), seq(consumers, _ => CTop), Free, 0, Waiting, 0, 0)
  }

  predicate SleepingP(s: State, p: nat) { p < |s.producers| && s.producers[p].PSleeps? }

  predicate SleepingC(s: State, c: nat) { c < |s.consumers| && s.consumers[c].CSleeps? }

  predicate Enabled(s: State, a: Action) {
    match a
    case StepP(p) =>
      p < |s.producers| && !s.producers[p].PSleeps? && !s.producers[p].POwes? && !s.producers[p].PLeft? &&
      !s.producers[p].PGaveUp? && (s.producers[p].PHas? ==> s.owner.Free?)
    case SignalConsumer(p, t) =>
      p < |s.producers| && s.producers[p].POwes? &&
      (SleepingC(s, t) || forall c :: 0 <= c < |s.consumers| ==> !SleepingC(s, c))
    case WakeP(p) => SleepingP(s, p)
    case StepC(c) =>
      c < |s.consumers| && !s.consumers[c].CSleeps? && !s.consumers[c].COwes? && !s.consumers[c].CLeft? &&
      !s.consumers[c].CGaveUp? && (s.consumers[c].CWants? ==> s.owner.Free?)
    case SignalProducer(c, t) =>
      c < |s.consumers| && s.consumers[c].COwes? &&
      (SleepingP(s, t) || forall p :: 0 <= p < |s.producers| ==> !SleepingP(s, p))
    case WakeC(c) => SleepingC(s, c)
    case Store => s.main.Waiting?
    case TellConsumers => s.main.Stored?
    case TellProducers => s.main.ToldConsumers?
  }

  function ProducerStep(max: nat, s: State, pc: Producer): Producer {
    match pc
    case PTop => if Done(s) then PLeft else PHas
    case PHas => PChecks
    case PChecks => if s.size == max then PFull else POwes
    case PFull => if Done(s) then PGaveUp else PDrowsy
    case PDrowsy => PSleeps
    case _ => pc
  }

  function ConsumerStep(s: State, pc: Consumer): Consumer {
    match pc
    case CTop => if Done(s) then CLeft else CWants
    case CWants => CChecks
    case CChecks => if s.size == 0 then CEmpty else COwes
    case CEmpty => if Done(s) then CGaveUp else CDrowsy
    case CDrowsy => CSleeps
    case CHas => CTop
    case _ => pc
  }

  function ProducerAfter(max: nat, s: State, a: Action, p: nat): Producer
    requires p < |s.producers|
  {
    var pc := s.producers[p];
    match a
    case StepP(q) => if q == p then ProducerStep(max, s, pc) else pc
    case SignalConsumer(q, _) => if q == p then PTop else pc
    case WakeP(q) => if q == p then PHas else pc
    case SignalProducer(_, t) => if t == p && pc.PSleeps? then PHas else pc
    case TellProducers => if pc.PSleeps? then PHas else pc
    case _ => pc
  }

  function ConsumerAfter(s: State, a: Action, c: nat): Consumer
    requires c < |s.consumers|
  {
    var pc := s.consumers[c];
    match a
    case StepC(d) => if d == c then ConsumerStep(s, pc) else pc
    case SignalProducer(d, _) => if d == c then CHas else pc
    case WakeC(d) => if d == c then CWants else pc
    case SignalConsumer(_, t) => if t == c && pc.CSleeps? then CWants else pc
    case TellConsumers => if pc.CSleeps? then CWants else pc
    case _ => pc
  }

  /** The region under the mutex ends by storing or taking an element, by blocking, or by returning. */
  function OwnerAfter(max: nat, s: State, a: Action): Mutex
    requires Enabled(s, a)
  {
    match a
    case StepP(p) => (
      match s.producers[p]
      case PHas => ByProducer(p)
      case PChecks => if s.size == max then s.owner else Free
      case PFull => if Done(s) then Free else s.owner
      case PDrowsy => Free
      case _ => s.owner)
    case StepC(c) => (
      match s.consumers[c]
      case CWants => ByConsumer(c)
      case CChecks => if s.size == 0 then s.owner else Free
      case CEmpty => if Done(s) then Free else s.owner
      case CDrowsy => Free
      case _ => s.owner)
    case _ => s.owner
  }

  predicate Produces(s: State, a: Action)
    requires Enabled(s, a)
  {
    a.StepP? && s.producers[a.p].PTop? && !Done(s)
  }

  predicate Stores(max: nat, s: State, a: Action)
    requires Enabled(s, a)
  {
    a.StepP? && s.producers[a.p].PChecks? && s.size != max
  }

  predicate Takes(s: State, a: Action)
    requires Enabled(s, a)
  {
    a.StepC? && s.consumers[a.c].CChecks? && s.size != 0
  }

  predicate Consumes(s: State, a: Action)
    requires Enabled(s, a)
  {
    a.StepC? && s.consumers[a.c].CHas?
  }

  function MainAfter(s: State, a: Action): Main {
    match a
    case Store => Stored
    case TellConsumers => ToldConsumers
    case TellProducers => ToldProducers
    case _ => s.main
  }

  function Do(max: nat, s: State, a: Action): State
    requires Enabled(s, a)
  {
    State(
      seq(|s.producers|, p requires 0 <= p < |s.producers| => ProducerAfter(max, s, a, p)),
      seq(|s.consumers|, c requires 0 <= c < |s.consumers| => ConsumerAfter(s, a, c)),
      OwnerAfter(max, s, a),
      if Stores(max, s, a) then s.size + 1 else if Takes(s, a) then s.size - 1 else s.size,
      MainAfter(s, a),
      if Produces(s, a) then s.produced + 1 else s.produced,
      if Consumes(s, a) then s.consumed + 1 else s.consumed)
  }

  ghost predicate Reaches(max: nat, s: State, acts: seq<Action>, s': State)
    decreases |acts|
  {
    if acts == [] then s == s'
    else Enabled(s, acts[0]) && Reaches(max, Do(max, s, acts[0]), acts[1..], s')
  }

  /** Any sleeper may wake by itself, and be the one that an owed notify wakes. */
  lemma AnySleeperMayWake(max: nat, s: State, p: nat, c: nat)
    requires p < |s.producers| && c < |s.consumers|
    ensures SleepingP(s, p) ==> Enabled(s, WakeP(p)) && Do(max, s, WakeP(p)).producers[p].PHas?
    ensures SleepingC(s, c) ==> Enabled(s, WakeC(c)) && Do(max, s, WakeC(c)).consumers[c].CWants?
    ensures SleepingC(s, c) && s.producers[p].POwes? ==>
              Enabled(s, SignalConsumer(p, c)) && Do(max, s, SignalConsumer(p, c)).consumers[c].CWants?
    ensures SleepingP(s, p) && s.consumers[c].COwes? ==>
              Enabled(s, SignalProducer(c, p)) && Do(max, s, SignalProducer(c, p)).producers[p].PHas?
  {
  }

  // ---------------------------------------------------------------- Weights

  function InHandP(p: Producer): nat { if p.PHas? || p.PChecks? || p.PFull? || p.PDrowsy? || p.PSleeps? then 1 else 0 }

  function InHandC(c: Consumer): nat { if c.COwes? || c.CHas? then 1 else 0 }

  function Lost(p: Producer): nat { if p.PGaveUp? then 1 else 0 }

  function AwakeP(p: Producer): nat { if p.PHas? || p.PChecks? then 1 else 0 }

  function AwakeC(c: Consumer): nat { if c.CWants? || c.CChecks? then 1 else 0 }

  function OwesC(p: Producer): nat { if p.POwes? then 1 else 0 }

  function OwesP(c: Consumer): nat { if c.COwes? then 1 else 0 }

  function MovedP(s: State, a: Action): int {
    match a
    case StepP(p) => p
    case SignalConsumer(p, _) => p
    case WakeP(p) => p
    case SignalProducer(_, t) => if SleepingP(s, t) then t else -1
    case _ => -1
  }

  function MovedC(s: State, a: Action): int {
    match a
    case StepC(c) => c
    case SignalProducer(c, _) => c
    case WakeC(c) => c
    case SignalConsumer(_, t) => if SleepingC(s, t) then t else -1
    case _ => -1
  }

  lemma SumStepP(max: nat, s: State, a: Action, w: Producer -> nat)
    requires Enabled(s, a) && (a.TellProducers? ==> w(PHas) == w(PSleeps))
    ensures var s' := Do(max, s, a); var p := MovedP(s, a);
            |s'.producers| == |s.producers| && p < |s.producers| &&
            Sum(s'.producers, w) + (if p < 0 then 0 else w(s.producers[p]))
            == Sum(s.producers, w) + (if p < 0 then 0 else w(ProducerAfter(max, s, a, p)))
  {
    var p := MovedP(s, a);
    if p >= 0 {
      SumOneMoved(s.producers, Do(max, s, a).producers, p, w);
    } else {
      SumSame(s.producers, Do(max, s, a).producers, w, w);
    }
  }

  lemma SumStepC(max: nat, s: State, a: Action, w: Consumer -> nat)
    requires Enabled(s, a) && (a.TellConsumers? ==> w(CWants) == w(CSleeps))
    ensures var s' := Do(max, s, a); var c := MovedC(s, a);
            |s'.consumers| == |s.consumers| && c < |s.consumers| &&
            Sum(s'.consumers, w) + (if c < 0 then 0 else w(s.consumers[c]))
            == Sum(s.consumers, w) + (if c < 0 then 0 else w(ConsumerAfter(s, a, c)))
  {
    var c := MovedC(s, a);
    if c >= 0 {
      SumOneMoved(s.consumers, Do(max, s, a).consumers, c, w);
    } else {
      SumSame(s.consumers, Do(max, s, a).consumers, w, w);
    }
  }

  // -------------------------------------------------------------- Invariant

  /** Every element produced is consumed, buffered, in some thread's hand, or lost with a producer that
      gave up on a full buffer. */
  predicate Accounted(s: State) {
    s.produced == s.consumed + s.size + Sum(s.producers, InHandP) + Sum(s.consumers, InHandC) + Sum(s.producers, Lost)
  }

  function RegionP(p: Producer): bool { p.PChecks? || p.PFull? || p.PDrowsy? }

  function RegionC(c: Consumer): bool { c.CChecks? || c.CEmpty? || c.CDrowsy? }

  predicate ProducerOk(max: nat, s: State, p: nat)
    requires p < |s.producers|
  {
    var pc := s.producers[p];
    && (RegionP(pc) <==> s.owner == ByProducer(p))
    && (pc.PFull? || pc.PDrowsy? ==> s.size == max)
    && (pc.PLeft? || pc.PGaveUp? ==> Done(s))
  }

  predicate ConsumerOk(s: State, c: nat)
    requires c < |s.consumers|
  {
    var pc := s.consumers[c];
    && (RegionC(pc) <==> s.owner == ByConsumer(c))
    && (pc.CEmpty? || pc.CDrowsy? ==> s.size == 0)
    && (pc.CLeft? || pc.CGaveUp? ==> Done(s))
  }

  predicate ThreadsOk(max: nat, s: State) {
    && s.size <= max
    && (forall p :: 0 <= p < |s.producers| ==> ProducerOk(max, s, p))
    && (forall c :: 0 <= c < |s.consumers| ==> ConsumerOk(s, c))
    && (s.owner.ByProducer? ==> s.owner.p < |s.producers|)
    && (s.owner.ByConsumer? ==> s.owner.c < |s.consumers|)
  }

  predicate WakeInvC(s: State) {
    (exists c :: 0 <= c < |s.consumers| && SleepingC(s, c)) ==>
      s.size <= Sum(s.producers, OwesC) + Sum(s.consumers, AwakeC)
  }

  predicate WakeInvP(max: nat, s: State) {
    (exists p :: 0 <= p < |s.producers| && SleepingP(s, p)) ==>
      max - s.size <= Sum(s.consumers, OwesP) + Sum(s.producers, AwakeP)
  }

  predicate Inv(max: nat, s: State) {
    Accounted(s) && ThreadsOk(max, s) && WakeInvC(s) && WakeInvP(max, s)
  }

  lemma InitInv(max: nat, producers: nat, consumers: nat)
    ensures Inv(max, Init(producers, consumers))
  {
    var s := Init(producers, consumers);
    SumZero(s.producers, InHandP);
    SumZero(s.consumers, InHandC);
    SumZero(s.producers, Lost);
  }

  lemma StepAccounted(max: nat, s: State, a: Action)
    requires Enabled(s, a) && Accounted(s)
    ensures Accounted(Do(max, s, a))
  {
    HandStepP(max, s, a);
    HandStepC(max, s, a);
  }

  lemma HandStepP(max: nat, s: State, a: Action)
    requires Enabled(s, a)
    ensures var t := Do(max, s, a);
            Sum(t.producers, InHandP) + Sum(t.producers, Lost) + (if Stores(max, s, a) then 1 else 0)
            == Sum(s.producers, InHandP) + Sum(s.producers, Lost) + (if Produces(s, a) then 1 else 0)
  {
    SumStepP(max, s, a, InHandP);
    SumStepP(max, s, a, Lost);
  }

  lemma HandStepC(max: nat, s: State, a: Action)
    requires Enabled(s, a)
    ensures Sum(Do(max, s, a).consumers, InHandC) + (if Consumes(s, a) then 1 else 0)
         == Sum(s.consumers, InHandC) + (if Takes(s, a) then 1 else 0)
  {
    SumStepC(max, s, a, InHandC);
  }

  lemma RegionOwner(max: nat, s: State, a: Action)
    requires Enabled(s, a) && ThreadsOk(max, s)
    ensures a.StepP? && RegionP(s.producers[a.p]) ==> s.owner == ByProducer(a.p)
    ensures a.StepC? && RegionC(s.consumers[a.c]) ==> s.owner == ByConsumer(a.c)
  {
    if a.StepP? {
      assert ProducerOk(max, s, a.p);
    } else if a.StepC? {
      assert ConsumerOk(s, a.c);
    }
  }

  lemma StepProducerOk(max: nat, s: State, a: Action, p: nat)
    requires Enabled(s, a) && ThreadsOk(max, s) && p < |s.producers|
    ensures |Do(max, s, a).producers| == |s.producers| && ProducerOk(max, Do(max, s, a), p)
  {
    RegionOwner(max, s, a);
    assert ProducerOk(max, s, p);
  }

  lemma StepConsumerOk(max: nat, s: State, a: Action, c: nat)
    requires Enabled(s, a) && ThreadsOk(max, s) && c < |s.consumers|
    ensures |Do(max, s, a).consumers| == |s.consumers| && ConsumerOk(Do(max, s, a), c)
  {
    RegionOwner(max, s, a);
    assert ConsumerOk(s, c);
  }

  lemma StepThreadsOk(max: nat, s: State, a: Action)
    requires Enabled(s, a) && ThreadsOk(max, s)
    ensures ThreadsOk(max, Do(max, s, a))
  {
    var s' := Do(max, s, a);
    forall p | 0 <= p < |s'.producers|
      ensures ProducerOk(max, s', p)
    {
      StepProducerOk(max, s, a, p);
    }
    forall c | 0 <= c < |s'.consumers|
      ensures ConsumerOk(s', c)
    {
      StepConsumerOk(max, s, a, c);
    }
  }

  lemma StepWakeC(max: nat, s: State, a: Action)
    requires Enabled(s, a) && ThreadsOk(max, s) && WakeInvC(s)
    ensures WakeInvC(Do(max, s, a))
  {
    var s' := Do(max, s, a);
    if c :| 0 <= c < |s'.consumers| && SleepingC(s', c) {
      assert ConsumerOk(s, c);
      SumStepP(max, s, a, OwesC);
      SumStepC(max, s, a, AwakeC);
      assert SleepingC(s, c) || s'.size == 0;
    }
  }

  lemma StepWakeP(max: nat, s: State, a: Action)
    requires Enabled(s, a) && ThreadsOk(max, s) && WakeInvP(max, s)
    ensures WakeInvP(max, Do(max, s, a))
  {
    var s' := Do(max, s, a);
    if p :| 0 <= p < |s'.producers| && SleepingP(s', p) {
      assert ProducerOk(max, s, p);
      SumStepP(max, s, a, AwakeP);
      SumStepC(max, s, a, OwesP);
      assert SleepingP(s, p) || s'.size == max;
    }
  }

  lemma {:induction false} RunKeepsInv(max: nat, s: State, acts: seq<Action>, s': State)
    requires Inv(max, s) && Reaches(max, s, acts, s')
    ensures Inv(max, s') && |s'.producers| == |s.producers| && |s'.consumers| == |s.consumers|
    decreases |acts|
  {
    if acts != [] {
      StepAccounted(max, s, acts[0]);
      StepThreadsOk(max, s, acts[0]);
      StepWakeC(max, s, acts[0]);
      StepWakeP(max, s, acts[0]);
      RunKeepsInv(max, Do(max, s, acts[0]), acts[1..], s');
    }
  }

  // ------------------------------------------------------------ Main results

  predicate Returned(s: State) {
    && (forall p :: 0 <= p < |s.producers| ==> s.producers[p].PLeft? || s.producers[p].PGaveUp?)
    && (forall c :: 0 <= c < |s.consumers| ==> s.consumers[c].CLeft? || s.consumers[c].CGaveUp?)
  }

  /** In every reachable state the elements produced are accounted for and the buffer is within bounds. */
  lemma ElementsAccounted(max: nat, producers: nat, consumers: nat, acts: seq<Action>, s: State)
    requires Reaches(max, Init(producers, consumers), acts, s)
    ensures s.produced == s.consumed + s.size
                          + Sum(s.producers, InHandP) + Sum(s.consumers, InHandC) + Sum(s.producers, Lost)
    ensures s.size <= max
    ensures WakeInvC(s) && WakeInvP(max, s)
  {
    InitInv(max, producers, consumers);
    RunKeepsInv(max, Init(producers, consumers), acts, s);
  }

  /** When every thread has returned, the three numbers `main` prints differ by one for each producer
      that gave up on a full buffer, and by nothing else. */
  lemma PrintedCounters(max: nat, producers: nat, consumers: nat, acts: seq<Action>, s: State)
    requires Reaches(max, Init(producers, consumers), acts, s) && Returned(s)
    ensures s.produced - s.consumed - s.size == Sum(s.producers, Lost)
    ensures 0 <= s.produced - s.consumed - s.size <= producers
    ensures s.produced == s.consumed + s.size <==>
              forall p :: 0 <= p < |s.producers| ==> !s.producers[p].PGaveUp?
    ensures producers + consumers >= 1 ==> Done(s)
  {
    InitInv(max, producers, consumers);
    RunKeepsInv(max, Init(producers, consumers), acts, s);
    ReturnedCounters(max, s);
    if p :| 0 <= p < |s.producers| && s.producers[p].PGaveUp? {
      SumMember(s.producers, p, Lost);
    } else {
      SumZero(s.producers, Lost);
    }
    assert producers >= 1 ==> ProducerOk(max, s, 0);
    assert consumers >= 1 ==> ConsumerOk(s, 0);
  }

  lemma ReturnedCounters(max: nat, s: State)
    requires Inv(max, s) && Returned(s)
    ensures s.produced - s.consumed - s.size == Sum(s.producers, Lost) <= |s.producers|
  {
    SumZero(s.producers, InHandP);
    SumZero(s.consumers, InHandC);
    AtMostOneEach(s.producers);
  }

  lemma {:induction false} AtMostOneEach(ps: seq<Producer>)
    ensures Sum(ps, Lost) <= |ps|
  {
    if ps != [] {
      AtMostOneEach(ps[1..]);
    }
  }

  /** Nothing can move but spurious wake-ups and `done = true`. */
  ghost predicate Quiescent(s: State) {
    forall a: Action :: Enabled(s, a) ==> a.WakeP? || a.WakeC? || a.Store?
  }

  lemma QuiescentThreads(max: nat, s: State)
    requires ThreadsOk(max, s) && Quiescent(s)
    ensures forall p :: 0 <= p < |s.producers| ==>
              s.producers[p].PSleeps? || s.producers[p].PLeft? || s.producers[p].PGaveUp?
    ensures forall c :: 0 <= c < |s.consumers| ==>
              s.consumers[c].CSleeps? || s.consumers[c].CLeft? || s.consumers[c].CGaveUp?
  {
    assert s.owner.ByProducer? ==> ProducerOk(max, s, s.owner.p) && Enabled(s, StepP(s.owner.p));
    assert s.owner.ByConsumer? ==> ConsumerOk(s, s.owner.c) && Enabled(s, StepC(s.owner.c));
    forall p | 0 <= p < |s.producers|
      ensures s.producers[p].PSleeps? || s.producers[p].PLeft? || s.producers[p].PGaveUp?
    {
      var t := if c :| 0 <= c < |s.consumers| && SleepingC(s, c) then c else 0;
      assert !Enabled(s, StepP(p)) && !Enabled(s, SignalConsumer(p, t));
    }
    forall c | 0 <= c < |s.consumers|
      ensures s.consumers[c].CSleeps? || s.consumers[c].CLeft? || s.consumers[c].CGaveUp?
    {
      var t := if p :| 0 <= p < |s.producers| && SleepingP(s, p) then p else 0;
      assert !Enabled(s, StepC(c)) && !Enabled(s, SignalProducer(c, t));
    }
  }

  /** Until `done` is set, some thread can always move: no wake-up is lost. */
  lemma RunsUntilDone(max: nat, producers: nat, consumers: nat, acts: seq<Action>, s: State)
    requires max >= 1 && producers >= 1 && consumers >= 1
    requires Reaches(max, Init(producers, consumers), acts, s) && !Done(s)
    ensures !Quiescent(s)
  {
    InitInv(max, producers, consumers);
    RunKeepsInv(max, Init(producers, consumers), acts, s);
    if Quiescent(s) {
      QuiescentThreads(max, s);
      assert ProducerOk(max, s, 0) && ConsumerOk(s, 0);
      assert SleepingP(s, 0) && SleepingC(s, 0);
      SumZero(s.producers, OwesC);
      SumZero(s.consumers, AwakeC);
      SumZero(s.consumers, OwesP);
      SumZero(s.producers, AwakeP);
      assert false;
    }
  }

  // ------------------------------------------------------------- In the code

  /** The globals of the program and where its threads are; what a thread does up to its next wait,
      its next notify or the end of a turn. */
  class Program {
    const max: nat
    var bufferSize: nat
    var numProduced: nat
    var numConsumed: nat
    var main: Main
    var owner: Mutex
    var producers: seq<Producer>
    var consumers: seq<Consumer>

    ghost function View(): State
      reads this
    {
      State(producers, consumers, owner, bufferSize, main, numProduced, numConsumed)
    }

    predicate IsDone()
      reads this
    {
      !main.Waiting?
    }

    constructor (max: nat, numProducers: nat, numConsumers: nat)
      ensures this.max == max && View() == Init(numProducers, numConsumers)
    {
      this.max := max;
      bufferSize, numProduced, numConsumed, main, owner := 0, 0, 0, Waiting, Free;
      producers := seq(numProducers, _ => PTop);
      consumers := seq(numConsumers, _ => CTop);
    }

    /** Lines 29-30: test `done`, produce. */
    method TestAndProduce(p: nat)
      requires Enabled(View(), StepP(p)) && producers[p].PTop?
      modifies this
      ensures View() == Do(max, old(View()), StepP(p))
    {
      if IsDone() {
        producers := producers[p := PLeft];
      } else {
        numProduced := numProduced + 1;
        producers := producers[p := PHas];
      }
    }

    /** The mutex, on entry and after a wake-up: lines 32 and 36. */
    method AcquireForProducer(p: nat)
      requires Enabled(View(), StepP(p)) && producers[p].PHas?
      modifies this
      ensures View() == Do(max, old(View()), StepP(p))
    {
      owner := ByProducer(p);
      producers := producers[p := PChecks];
    }

    /** Lines 33 and 38: store unless the buffer is full. */
    method StoreOrWait(p: nat)
      requires Enabled(View(), StepP(p)) && producers[p].PChecks?
      modifies this
      ensures View() == Do(max, old(View()), StepP(p))
    {
      if bufferSize == max {
        producers := producers[p := PFull];
      } else {
        bufferSize := bufferSize + 1;
        owner := Free;
        producers := producers[p := POwes];
      }
    }

    /** Lines 34-35: the element in hand is given up. */
    method GiveUpOrBlock(p: nat)
      requires Enabled(View(), StepP(p)) && producers[p].PFull?
      modifies this
      ensures View() == Do(max, old(View()), StepP(p))
    {
      if IsDone() {
        owner := Free;
        producers := producers[p := PGaveUp];
      } else {
        producers := producers[p := PDrowsy];
      }
    }

    /** Line 36: releases the mutex and blocks. */
    method BlockProducer(p: nat)
      requires Enabled(View(), StepP(p)) && producers[p].PDrowsy?
      modifies this
      ensures View() == Do(max, old(View()), StepP(p))
    {
      owner := Free;
      producers := producers[p := PSleeps];
    }

    /** Whatever producer `p` does next. */
    method MoveProducer(p: nat)
      requires Enabled(View(), StepP(p))
      modifies this
      ensures View() == Do(max, old(View()), StepP(p))
    {
      match producers[p]
      case PTop => TestAndProduce(p);
      case PHas => AcquireForProducer(p);
      case PChecks => StoreOrWait(p);
      case PFull => GiveUpOrBlock(p);
      case PDrowsy => BlockProducer(p);
    }

    /** Line 40, and on to the next turn. */
    method NotifyConsumer(p: nat, target: nat)
      requires Enabled(View(), SignalConsumer(p, target))
      modifies this
      ensures View() == Do(max, old(View()), SignalConsumer(p, target))
    {
      if target < |consumers| && consumers[target].CSleeps? {
        consumers := consumers[target := CWants];
      }
      producers := producers[p := PTop];
    }

    method WakeProducer(p: nat)
      requires Enabled(View(), WakeP(p))
      modifies this
      ensures View() == Do(max, old(View()), WakeP(p))
    {
      producers := producers[p := PHas];
    }

    /** Line 46: test `done`. */
    method TestDone(c: nat)
      requires Enabled(View(), StepC(c)) && consumers[c].CTop?
      modifies this
      ensures View() == Do(max, old(View()), StepC(c))
    {
      consumers := consumers[c := if IsDone() then CLeft else CWants];
    }

    /** The mutex, on entry and after a wake-up: lines 48 and 52. */
    method AcquireForConsumer(c: nat)
      requires Enabled(View(), StepC(c)) && consumers[c].CWants?
      modifies this
      ensures View() == Do(max, old(View()), StepC(c))
    {
      owner := ByConsumer(c);
      consumers := consumers[c := CChecks];
    }

    /** Lines 50-51: return when `done` is set, otherwise go on to block. */
    method LeaveOrBlock(c: nat)
      requires Enabled(View(), StepC(c)) && consumers[c].CEmpty?
      modifies this
      ensures View() == Do(max, old(View()), StepC(c))
    {
      if IsDone() {
        owner := Free;
        consumers := consumers[c := CGaveUp];
      } else {
        consumers := consumers[c := CDrowsy];
      }
    }

    /** Line 52: releases the mutex and blocks. */
    method BlockConsumer(c: nat)
      requires Enabled(View(), StepC(c)) && consumers[c].CDrowsy?
      modifies this
      ensures View() == Do(max, old(View()), StepC(c))
    {
      owner := Free;
      consumers := consumers[c := CSleeps];
    }

    /** Lines 49 and 54-55: take unless the buffer is empty. */
    method TakeOrWait(c: nat)
      requires Enabled(View(), StepC(c)) && consumers[c].CChecks?
      modifies this
      ensures View() == Do(max, old(View()), StepC(c))
    {
      if bufferSize == 0 {
        consumers := consumers[c := CEmpty];
      } else {
        bufferSize := bufferSize - 1;
        owner := Free;
        consumers := consumers[c := COwes];
      }
    }

    /** Line 58. */
    method ConsumeElement(c: nat)
      requires Enabled(View(), StepC(c)) && consumers[c].CHas?
      modifies this
      ensures View() == Do(max, old(View()), StepC(c))
    {
      numConsumed := numConsumed + 1;
      consumers := consumers[c := CTop];
    }

    /** Whatever consumer `c` does next. */
    method MoveConsumer(c: nat)
      requires Enabled(View(), StepC(c))
      modifies this
      ensures View() == Do(max, old(View()), StepC(c))
    {
      match consumers[c]
      case CTop => TestDone(c);
      case CWants => AcquireForConsumer(c);
      case CChecks => TakeOrWait(c);
      case CEmpty => LeaveOrBlock(c);
      case CDrowsy => BlockConsumer(c);
      case CHas => ConsumeElement(c);
    }

    /** Line 57. */
    method NotifyProducer(c: nat, target: nat)
      requires Enabled(View(), SignalProducer(c, target))
      modifies this
      ensures View() == Do(max, old(View()), SignalProducer(c, target))
    {
      if target < |producers| && producers[target].PSleeps? {
        producers := producers[target := PHas];
      }
      consumers := consumers[c := CHas];
    }

    method WakeConsumer(c: nat)
      requires Enabled(View(), WakeC(c))
      modifies this
      ensures View() == Do(max, old(View()), WakeC(c))
    {
      consumers := consumers[c := CWants];
    }

    /** Line 69: stored without the mutex. */
    method StoreDone()
      requires Enabled(View(), Store)
      modifies this
      ensures View() == Do(max, old(View()), Store)
    {
      main := Stored;
    }

    /** Line 71. */
    method NotifyAllConsumers()
      requires Enabled(View(), TellConsumers)
      modifies this
      ensures View() == Do(max, old(View()), TellConsumers)
    {
      ghost var was := View();
      var i := 0;
      while i < |consumers|
        invariant 0 <= i <= |consumers| == |was.consumers|
        invariant View() == was.(consumers := consumers)
        invariant forall j :: 0 <= j < |consumers| ==>
                    consumers[j] == if j < i then ConsumerAfter(was, TellConsumers, j) else was.consumers[j]
      {
        if consumers[i].CSleeps? {
          consumers := consumers[i := CWants];
        }
        i := i + 1;
      }
      main := ToldConsumers;
    }

    /** Line 72. */
    method NotifyAllProducers()
      requires Enabled(View(), TellProducers)
      modifies this
      ensures View() == Do(max, old(View()), TellProducers)
    {
      ghost var was := View();
      var i := 0;
      while i < |producers|
        invariant 0 <= i <= |producers| == |was.producers|
        invariant View() == was.(producers := producers)
        invariant forall j :: 0 <= j < |producers| ==>
                    producers[j] == if j < i then ProducerAfter(max, was, TellProducers, j) else was.producers[j]
      {
        if producers[i].PSleeps? {
          producers := producers[i := PHas];
        }
        i := i + 1;
      }
      main := ToldProducers;
    }

    method Perform(a: Action)
      requires Enabled(View(), a)
      modifies this
      ensures View() == Do(max, old(View()), a)
    {
      match a
      case StepP(p) => MoveProducer(p);
      case SignalConsumer(p, target) => NotifyConsumer(p, target);
      case WakeP(p) => WakeProducer(p);
      case StepC(c) => MoveConsumer(c);
      case SignalProducer(c, target) => NotifyProducer(c, target);
      case WakeC(c) => WakeConsumer(c);
      case Store => StoreDone();
      case TellConsumers => NotifyAllConsumers();
      case TellProducers => NotifyAllProducers();
    }

    /** Runs the program under a scheduler, as `Follow` does on states: whatever the schedule, the printed
        numbers differ by the elements in hand and given up, and by those given up only when all threads
        have returned. */
    method RunSchedule(schedule: seq<Action>)
      requires View() == Init(|producers|, |consumers|)
      modifies this
      ensures View() == Follow(max, old(View()), schedule)
      ensures numProduced == numConsumed + bufferSize
                             + Sum(producers, InHandP) + Sum(consumers, InHandC) + Sum(producers, Lost)
      ensures bufferSize <= max
      ensures Returned(View()) ==> numProduced - numConsumed - bufferSize == Sum(producers, Lost) <= |producers|
    {
      ghost var start := View();
      ghost var taken: seq<Action> := [];
      var i := 0;
      while i < |schedule|
        invariant 0 <= i <= |schedule| && Reaches(max, start, taken, View())
        invariant Follow(max, View(), schedule[i..]) == Follow(max, start, schedule)
      {
        var a := schedule[i];
        if Enabled(State(producers, consumers, owner, bufferSize, main, numProduced, numConsumed), a) {
          ReachesSnoc(max, start, taken, View(), a);
          taken := taken + [a];
          Perform(a);
        }
        i := i + 1;
      }
      ElementsAccounted(max, |start.producers|, |start.consumers|, taken, View());
      RunKeepsThreads(max, start, taken, View());
      if Returned(View()) {
        PrintedCounters(max, |start.producers|, |start.consumers|, taken, View());
      }
    }
  }

  lemma {:induction false} RunKeepsThreads(max: nat, s: State, acts: seq<Action>, s': State)
    requires Reaches(max, s, acts, s')
    ensures |s'.producers| == |s.producers| && |s'.consumers| == |s.consumers|
    decreases |acts|
  {
    if acts != [] {
      RunKeepsThreads(max, Do(max, s, acts[0]), acts[1..], s');
    }
  }

  /** The state that a schedule leads to, a step that is not possible being skipped. */
  function Follow(max: nat, s: State, schedule: seq<Action>): State
    decreases |schedule|
  {
    if schedule == [] then s
    else Follow(max, if Enabled(s, schedule[0]) then Do(max, s, schedule[0]) else s, schedule[1..])
  }

  lemma {:induction false} ReachesSnoc(max: nat, s: State, acts: seq<Action>, t: State, a: Action)
    requires Reaches(max, s, acts, t) && Enabled(t, a)
    ensures Reaches(max, s, acts + [a], Do(max, t, a))
    decreases |acts|
  {
    if acts == [] {
      assert ([] + [a])[1..] == [];
      assert Reaches(max, Do(max, s, a), [], Do(max, t, a));
    } else {
      assert (acts + [a])[1..] == acts[1..] + [a];
      ReachesSnoc(max, Do(max, s, acts[0]), acts[1..], t, a);
    }
  }
}
