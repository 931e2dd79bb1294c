/** The move-only owner of a descriptor (http-server/src/Socket.cpp).  `Kernel` keeps which descriptors
    were opened and which were closed, as often as that happened. */
module Sockets {

  /** Variables are numbered; `owned` gives the descriptor in each live one, -1 if it was moved from. */
  datatype State = State(owned: map<nat, int>, opens: multiset<int>, closes: multiset<int>)

  datatype Op =
    | Construct(x: nat, fd: int)
    | MoveConstruct(x: nat, y: nat)   // x from y
    | MoveAssign(x: nat, y: nat)      // x = std::move(y), x and y may be the same
    | Destroy(x: nat)

  const INITIAL: State := State(map[], multiset{}, multiset{})

  /** Some live variable owns `fd`. */
  predicate Owned(s: State, fd: int) { exists x :: x in s.owned && s.owned[x] == fd }

  /** A descriptor given to a new socket is an error value or one that is not in use. */
  predicate Enabled(s: State, op: Op) {
    match op
    case Construct(x, fd) => x !in s.owned && (fd < 0 || !Owned(s, fd))
    case MoveConstruct(x, y) => x !in s.owned && y in s.owned
    case MoveAssign(x, y) => x in s.owned && y in s.owned
    case Destroy(x) => x in s.owned
  }

  function Close(s: State, fd: int): State {
    if fd >= 0 then s.(closes := s.closes + multiset{fd}) else s
  }

  function Do(s: State, op: Op): State
    requires Enabled(s, op)
  {
    match op
    case Construct(x, fd) =>
      s.(owned := s.owned[x := fd], opens := if fd >= 0 then s.opens + multiset{fd} else s.opens)
    case MoveConstruct(x, y) => s.(owned := s.owned[x := s.owned[y]][y := -1])
    case MoveAssign(x, y) =>
      if x == y then s else Close(s, s.owned[x]).(owned := s.owned[x := s.owned[y]][y := -1])
    case Destroy(x) => Close(s, s.owned[x]).(owned := s.owned - {x})
  }

  ghost predicate Reaches(s: State, ops: seq<Op>, s': State)
    decreases |ops|
  {
    if ops == [] then s == s'
    else Enabled(s, ops[0]) && Reaches(Do(s, ops[0]), ops[1..], s')
  }

  /** At most one live owner, and every opening answered by a closing or by an owner. */
  ghost predicate Inv(s: State) {
    && (forall x, y :: x in s.owned && y in s.owned && s.owned[x] >= 0 && s.owned[x] == s.owned[y] ==> x == y)
    && (forall fd :: fd >= 0 ==> s.opens[fd] == s.closes[fd] + (if Owned(s, fd) then 1 else 0))
    && (forall fd :: fd < 0 ==> s.closes[fd] == 0)
  }

  lemma StepOneOwner(s: State, op: Op)
    requires Inv(s) && Enabled(s, op)
    ensures var t := Do(s, op);
            forall x, y :: x in t.owned && y in t.owned && t.owned[x] >= 0 && t.owned[x] == t.owned[y] ==> x == y
  {
    if op.Construct? {
      assert op.fd < 0 || !Owned(s, op.fd);
      assert forall x :: x in s.owned && op.fd >= 0 ==> s.owned[x] != op.fd;
    }
  }

  /** Who owns `fd` after a step. */
  lemma OwnedAfter(s: State, op: Op, fd: int)
    requires Inv(s) && Enabled(s, op) && fd >= 0
    ensures Owned(Do(s, op), fd) <==>
      match op
      case Construct(_, f) => Owned(s, fd) || f == fd
      case MoveConstruct(_, _) => Owned(s, fd)
      case MoveAssign(x, y) => Owned(s, fd) && (x == y || s.owned[x] != fd)
      case Destroy(x) => Owned(s, fd) && s.owned[x] != fd
  {
    var t := Do(s, op);
    if z :| z in s.owned && s.owned[z] == fd {
      match op
      case Construct(x, _) => assert t.owned[z] == fd;
      case MoveConstruct(x, y) => assert t.owned[if z == y then x else z] == fd;
      case MoveAssign(x, y) =>
        if x == y {
          assert t.owned[z] == fd;
        } else if z == y {
          assert t.owned[x] == fd;
        } else if z != x {
          assert t.owned[z] == fd;
        }
      case Destroy(x) =>
        if z != x {
          assert t.owned[z] == fd;
        }
    }
    if op.Construct? && op.fd == fd {
      assert t.owned[op.x] == fd;
    }
  }

  /** A construction may take any descriptor not in use, and a move any live variable; the variable moved to
      has the descriptor then, and the one moved from has none. */
  lemma MovesTransfer(s: State, x: nat, y: nat, fd: int)
    ensures x !in s.owned && (forall z :: z in s.owned ==> s.owned[z] != fd) ==>
              Enabled(s, Construct(x, fd)) && Do(s, Construct(x, fd)).owned == s.owned[x := fd]
    ensures x !in s.owned && y in s.owned ==>
              && Enabled(s, MoveConstruct(x, y))
              && Do(s, MoveConstruct(x, y)).owned == s.owned[x := s.owned[y]][y := -1]
    ensures x in s.owned && y in s.owned && x != y ==>
              && Enabled(s, MoveAssign(x, y))
              && Do(s, MoveAssign(x, y)).owned == s.owned[x := s.owned[y]][y := -1]
    ensures x in s.owned ==>
              && Enabled(s, MoveAssign(x, x)) && Do(s, MoveAssign(x, x)) == s
              && Enabled(s, Destroy(x)) && Do(s, Destroy(x)).owned == s.owned - {x}
  {
  }

  lemma StepInv(s: State, op: Op)
    requires Inv(s) && Enabled(s, op)
    ensures Inv(Do(s, op))
  {
    StepOneOwner(s, op);
    var t := Do(s, op);
    forall fd | fd >= 0
      ensures t.opens[fd] == t.closes[fd] + (if Owned(t, fd) then 1 else 0)
    {
      OwnedAfter(s, op, fd);
      assert s.opens[fd] == s.closes[fd] + (if Owned(s, fd) then 1 else 0);
    }
  }

  lemma {:induction false} RunKeepsInv(s: State, ops: seq<Op>, s': State)
    requires Inv(s) && Reaches(s, ops, s')
    ensures Inv(s')
    decreases |ops|
  {
    if ops != [] {
      StepInv(s, ops[0]);
      RunKeepsInv(Do(s, ops[0]), ops[1..], s');
    }
  }

  /** Over every sequence of constructions, moves (onto itself included) and destructions: a descriptor
      has at most one live owner, is never closed more often than it was opened, is not closed while it is
      owned, and is closed exactly as often as it was opened once no socket is left. */
  lemma DescriptorOwnership(ops: seq<Op>, s: State)
    requires Reaches(INITIAL, ops, s)
    ensures forall x, y :: x in s.owned && y in s.owned && s.owned[x] >= 0 && s.owned[x] == s.owned[y] ==> x == y
    ensures s.closes <= s.opens
    ensures forall fd :: fd >= 0 && Owned(s, fd) ==> s.opens[fd] == s.closes[fd] + 1
    ensures s.owned == map[] ==> forall fd :: fd >= 0 ==> s.closes[fd] == s.opens[fd]
  {
    RunKeepsInv(INITIAL, ops, s);
    forall fd: int
      ensures s.closes[fd] <= s.opens[fd]
    {
      assert fd >= 0 ==> s.opens[fd] == s.closes[fd] + (if Owned(s, fd) then 1 else 0);
    }
  }

  // ------------------------------------------------------------- In the code

  class Kernel {
    ghost var opens: multiset<int>
    ghost var closes: multiset<int>

    constructor ()
      ensures opens == closes == multiset{}
    {
      opens, closes := multiset{}, multiset{};
    }

    method Close(fd: int)
      modifies this`closes
      ensures closes == old(closes) + multiset{fd}
    {
      closes := closes + multiset{fd};
    }
  }

  class Socket {
    var fd_: int

    constructor (fd: int)
      ensures fd_ == fd
    {
      fd_ := fd;
    }

    constructor Move(other: Socket)
      modifies other
      ensures fd_ == old(other.fd_) && other.fd_ == -1
    {
      fd_ := other.fd_;
      new;
      other.fd_ := -1;
    }

    /** `operator=`; `other` may be this very socket. */
    method Assign(other: Socket, kernel: Kernel)
      modifies this, other, kernel`closes
      ensures this == other ==> fd_ == old(fd_) && kernel.closes == old(kernel.closes)
      ensures this != other ==> fd_ == old(other.fd_) && other.fd_ == -1
      ensures this != other ==>
        kernel.closes == old(kernel.closes) + if old(fd_) >= 0 then multiset{old(fd_)} else multiset{}
    {
      if this != other {
        if fd_ >= 0 {
          kernel.Close(fd_);
        }
        fd_ := other.fd_;
        other.fd_ := -1;
      }
    }

    method Destroy(kernel: Kernel)
      modifies kernel`closes
      ensures kernel.closes == old(kernel.closes) + if fd_ >= 0 then multiset{fd_} else multiset{}
    {
      if fd_ >= 0 {
        kernel.Close(fd_);
      }
    }
  }

  /** A program's socket variables, each a socket of its own. */
  class Program {
    const kernel: Kernel
    var live: map<nat, Socket>

    ghost predicate Valid()
      reads this
    {
      forall x, y :: x in live && y in live && live[x] == live[y] ==> x == y
    }

    ghost function View(): State
      reads this, kernel, live.Values
    {
      State(map x | x in live :: live[x].fd_, kernel.opens, kernel.closes)
    }

    constructor ()
      ensures Valid() && View() == INITIAL
    {
      kernel := new Kernel();
      live := map[];
    }

    method ConstructAt(x: nat, fd: int)
      requires Valid() && Enabled(View(), Construct(x, fd))
      modifies this, kernel
      ensures Valid() && View() == Do(old(View()), Construct(x, fd))
      ensures fresh(live.Values - old(live.Values))
    {
      ghost var was := View();
      var s := new Socket(fd);
      if fd >= 0 {
        kernel.opens := kernel.opens + multiset{fd};
      }
      live := live[x := s];
      assert View().owned == was.owned[x := fd];
    }

    method MoveConstructAt(x: nat, y: nat)
      requires Valid() && Enabled(View(), MoveConstruct(x, y))
      modifies this, live[y]
      ensures Valid() && View() == Do(old(View()), MoveConstruct(x, y))
      ensures fresh(live.Values - old(live.Values))
    {
      ghost var was := View();
      var s := new Socket.Move(live[y]);
      live := live[x := s];
      assert View().owned == was.owned[x := was.owned[y]][y := -1];
    }

    /** The two variables may be one, and then are one object. */
    method MoveAssignAt(x: nat, y: nat)
      requires Valid() && Enabled(View(), MoveAssign(x, y))
      modifies kernel, live[x], live[y]
      ensures Valid() && View() == Do(old(View()), MoveAssign(x, y))
      ensures fresh(live.Values - old(live.Values))
    {
      ghost var was := View();
      assert live[x] == live[y] <==> x == y;
      live[x].Assign(live[y], kernel);
      assert x == y ==> View().owned == was.owned;
      assert x != y ==> View().owned == was.owned[x := was.owned[y]][y := -1];
    }

    method DestroyAt(x: nat)
      requires Valid() && Enabled(View(), Destroy(x))
      modifies this, kernel
      ensures Valid() && View() == Do(old(View()), Destroy(x))
      ensures fresh(live.Values - old(live.Values))
    {
      ghost var was := View();
      live[x].Destroy(kernel);
      live := live - {x};
      assert View().owned == was.owned - {x};
    }

    method Perform(op: Op)
      requires Valid() && Enabled(View(), op)
      modifies this, kernel, live.Values
      ensures Valid() && View() == Do(old(View()), op)
      ensures fresh(live.Values - old(live.Values))
    {
      match op
      case Construct(x, fd) => ConstructAt(x, fd);
      case MoveConstruct(x, y) => MoveConstructAt(x, y);
      case MoveAssign(x, y) => MoveAssignAt(x, y);
      case Destroy(x) => DestroyAt(x);
    }

    /** Runs a sequence of operations, one that is not possible being skipped: whatever the sequence, the
        sockets own, and the kernel has closed, what `DescriptorOwnership` says. */
    method RunSequence(ops: seq<Op>)
      requires Valid() && View() == INITIAL
      modifies this, kernel, live.Values
      ensures Valid() && View() == Follow(INITIAL, ops)
      ensures forall x, y :: x in live && y in live && live[x].fd_ >= 0 && live[x].fd_ == live[y].fd_ ==> x == y
      ensures kernel.closes <= kernel.opens
      ensures forall x :: x in live && live[x].fd_ >= 0 ==> kernel.opens[live[x].fd_] == kernel.closes[live[x].fd_] + 1
      ensures live == map[] ==> forall fd :: fd >= 0 ==> kernel.closes[fd] == kernel.opens[fd]
    {
      ghost var taken := Go(ops);
      DescriptorOwnership(taken, View());
      ghost var s := View();
      assert forall x :: x in live ==> x in s.owned && s.owned[x] == live[x].fd_ && Owned(s, s.owned[x]);
    }

    method Go(ops: seq<Op>) returns (ghost taken: seq<Op>)
      requires Valid()
      modifies this, kernel, live.Values
      ensures Valid() && View() == Follow(old(View()), ops) && Reaches(old(View()), taken, View())
    {
      taken := [];
      ghost var start := View();
      var i := 0;
      while i < |ops|
        invariant 0 <= i <= |ops| && Valid() && Reaches(start, taken, View())
        invariant Follow(View(), ops[i..]) == Follow(start, ops)
        invariant fresh(live.Values - old(live.Values))
      {
        ghost var was := View();
        var done := Attempt(ops[i]);
        if done {
          ReachesSnoc(start, taken, was, ops[i]);
          taken := taken + [ops[i]];
        }
        i := i + 1;
      }
    }

    /** Performs `op` if it is possible. */
    method Attempt(op: Op) returns (done: bool)
      requires Valid()
      modifies this, kernel, live.Values
      ensures Valid() && done == Enabled(old(View()), op)
      ensures View() == if done then Do(old(View()), op) else old(View())
      ensures fresh(live.Values - old(live.Values))
    {
      var now := State(map x | x in live :: live[x].fd_, multiset{}, multiset{});
      SameChoice(now, View(), op);
      done := Enabled(now, op);
      if done {
        Perform(op);
      }
    }
  }

  lemma SameChoice(s: State, t: State, op: Op)
    requires s.owned == t.owned
    ensures Enabled(s, op) == Enabled(t, op)
  {
  }

  /** The state that a sequence of operations leads to, one that is not possible being skipped. */
  function Follow(s: State, ops: seq<Op>): State
    decreases |ops|
  {
    if ops == [] then s
    else Follow(if Enabled(s, ops[0]) then Do(s, ops[0]) else s, ops[1..])
  }

  lemma {:induction false} ReachesSnoc(s: State, ops: seq<Op>, t: State, op: Op)
    requires Reaches(s, ops, t) && Enabled(t, op)
    ensures Reaches(s, ops + [op], Do(t, op))
    decreases |ops|
  {
    if ops == [] {
      assert ([] + [op])[1..] == [];
      assert Reaches(Do(s, op), [], Do(t, op));
    } else {
      assert (ops + [op])[1..] == ops[1..] + [op];
      ReachesSnoc(Do(s, ops[0]), ops[1..], t, op);
    }
  }
}
