/** `parse_redirection` (mojbash/utils.c): what it leaves of the arguments, and how it does so in place. */
module Redirection {
  import opened CStrings
  import opened Options
  import Scanner
  import Streams

  const FILESIZE: nat := 64

  datatype Parsed = Parsed(args: seq<string>, input: Option<string>, output: Option<string>)

  /** strncpy into a buffer of FILESIZE characters, the last one NUL. */
  function Truncated(name: string): string {
    if |name| > FILESIZE - 1 then name[..FILESIZE - 1] else name
  }

  predicate IsOperator(arg: string) { arg == "<" || arg == ">" }

  /** An argument that is kept, in front of what `r` is the result of. */
  function Prepend(arg: string, r: Parsed): Parsed { r.(args := [arg] + r.args) }

  /** A redirection in front of what `r` is the result of: one further right overrides it. */
  function WithFile(operator: string, file: string, r: Parsed): Parsed {
    if operator == "<" then r.(input := if r.input.Some? then r.input else Some(Truncated(file)))
    else r.(output := if r.output.Some? then r.output else Some(Truncated(file)))
  }

  /** The specification, in one pass from the left: an operator with an argument after it takes both
      away. */
  function Parse(args: seq<string>): Parsed
    decreases |args|
  {
    if args == [] then Parsed([], None, None)
    else if |args| >= 2 && IsOperator(args[0]) then WithFile(args[0], args[1], Parse(args[2..]))
    else Prepend(args[0], Parse(args[1..]))
  }

  // ------------------------------------------------------ What the result is

  /** Redirections taken away. */
  function Redirections(args: seq<string>): nat
    decreases |args|
  {
    if args == [] then 0
    else if |args| >= 2 && IsOperator(args[0]) then 1 + Redirections(args[2..])
    else Redirections(args[1..])
  }

  lemma {:induction false} TwoArgumentsEach(args: seq<string>)
    ensures |args| == |Parse(args).args| + 2 * Redirections(args)
    ensures Redirections(args) == 0 <==> Parse(args).input.None? && Parse(args).output.None?
    decreases |args|
  {
    if args != [] {
      if |args| >= 2 && IsOperator(args[0]) {
        TwoArgumentsEach(args[2..]);
      } else {
        TwoArgumentsEach(args[1..]);
      }
    }
  }

  /** An operator survives only as the last argument, and only if it was the last one given. */
  lemma {:induction false} OperatorOnlyLast(args: seq<string>, k: nat)
    requires k < |Parse(args).args| && (Parse(args).args[k] == "<" || Parse(args).args[k] == ">")
    ensures k == |Parse(args).args| - 1 && args[|args| - 1] == Parse(args).args[k]
    decreases |args|
  {
    if |args| >= 2 && IsOperator(args[0]) {
      OperatorOnlyLast(args[2..], k);
    } else if k == 0 {
      assert IsOperator(args[0]) && |args| == 1;
    } else {
      OperatorOnlyLast(args[1..], k - 1);
    }
  }

  /** Arguments without an operator before the last are left as they are. */
  lemma {:induction false} NothingToParse(args: seq<string>)
    requires forall k :: 0 <= k < |args| - 1 ==> args[k] != "<" && args[k] != ">"
    ensures Parse(args) == Parsed(args, None, None)
  {
    if args != [] {
      assert forall k :: 0 <= k < |args[1..]| - 1 ==> args[1..][k] == args[k + 1];
      NothingToParse(args[1..]);
    }
  }

  /** A second pass changes nothing. */
  lemma SecondPassIdle(args: seq<string>)
    ensures Parse(Parse(args).args) == Parsed(Parse(args).args, None, None)
  {
    var left := Parse(args).args;
    forall k | 0 <= k < |left| - 1
      ensures !IsOperator(left[k])
    {
      if IsOperator(left[k]) {
        OperatorOnlyLast(args, k);
      }
    }
    NothingToParse(left);
  }

  /** Arguments are dropped, never changed or reordered. */
  lemma {:induction false} ArgumentsKeepOrder(args: seq<string>)
    ensures Streams.Subsequence(Parse(args).args, args)
    decreases |args|
  {
    if args != [] {
      if |args| >= 2 && IsOperator(args[0]) {
        ArgumentsKeepOrder(args[2..]);
        assert args[1..][1..] == args[2..];
        assert Streams.Subsequence(Parse(args).args, args[1..]);
      } else {
        ArgumentsKeepOrder(args[1..]);
        assert Parse(args).args[1..] == Parse(args[1..]).args;
      }
    }
  }

  /** The arguments left end in an operator that had nothing after it. */
  predicate Dangling(args: seq<string>) {
    var left := Parse(args).args;
    left != [] && IsOperator(left[|left| - 1])
  }

  /** What one more redirection at the end does: with nothing left dangling it overrides the file of its
      kind, and nothing else; a dangling operator takes it as a file name, and `file` becomes an argument. */
  lemma LastRedirectionWins(args: seq<string>, op: string, file: string)
    requires op == "<" || op == ">"
    ensures var r, t := Parse(args), Parse(args + [op, file]);
            var cut := if |file| <= 63 then file else file[..63];
            !Dangling(args) ==>
              && t.args == r.args
              && t.input == (if op == "<" then Some(cut) else r.input)
              && t.output == (if op == ">" then Some(cut) else r.output)
    ensures var r, t := Parse(args), Parse(args + [op, file]);
            Dangling(args) ==>
              var last := r.args[|r.args| - 1];
              && t.args == r.args[..|r.args| - 1] + [file]
              && t.input == (if last == "<" then Some(op) else r.input)
              && t.output == (if last == ">" then Some(op) else r.output)
  {
    if Dangling(args) {
      DanglingTakesNext(args, op, file);
    } else {
      LastOverrides(args, op, file);
    }
  }

  /** The result when the dangling operator of `r` takes `op` as its file name and leaves `file`. */
  function TakenUp(r: Parsed, op: string, file: string): Parsed
    requires r.args != []
  {
    var last := |r.args| - 1;
    Parsed(r.args[..last] + [file],
           if r.args[last] == "<" then Some(op) else r.input,
           if r.args[last] == ">" then Some(op) else r.output)
  }

  lemma {:induction false} DanglingTakesNext(args: seq<string>, op: string, file: string)
    requires IsOperator(op) && Dangling(args)
    ensures Parse(args + [op, file]) == TakenUp(Parse(args), op, file)
    decreases |args|
  {
    if |args| == 1 {
      OperatorAlone(args[0], op, file);
      assert args == [args[0]] && args + [op, file] == [args[0], op, file];
    } else if IsOperator(args[0]) {
      DanglingTakesNext(args[2..], op, file);
      TakenUpBehindPair(args, op, file);
    } else {
      DanglingTakesNext(args[1..], op, file);
      TakenUpBehindArgument(args, op, file);
    }
  }

  lemma TakenUpBehindPair(args: seq<string>, op: string, file: string)
    requires |args| >= 2 && IsOperator(args[0]) && Parse(args[2..]).args != []
    requires Parse(args[2..] + [op, file]) == TakenUp(Parse(args[2..]), op, file)
    ensures Parse(args + [op, file]) == TakenUp(Parse(args), op, file)
  {
    var more := args + [op, file];
    PairTaken(args, args[2..]);
    PairTaken(more, args[2..] + [op, file]);
    TakenUpWithFile(args[0], args[1], Parse(args[2..]), op, file);
  }

  lemma PairTaken(args: seq<string>, rest: seq<string>)
    requires |args| >= 2 && IsOperator(args[0]) && args[2..] == rest
    ensures Parse(args) == WithFile(args[0], args[1], Parse(rest))
  {
  }

  lemma TakenUpWithFile(operator: string, name: string, r: Parsed, op: string, file: string)
    requires r.args != []
    ensures TakenUp(WithFile(operator, name, r), op, file) == WithFile(operator, name, TakenUp(r, op, file))
  {
  }

  lemma TakenUpBehindArgument(args: seq<string>, op: string, file: string)
    requires args != [] && !IsOperator(args[0]) && Parse(args[1..]).args != []
    requires Parse(args[1..] + [op, file]) == TakenUp(Parse(args[1..]), op, file)
    ensures Parse(args + [op, file]) == TakenUp(Parse(args), op, file)
  {
    var more := args + [op, file];
    assert more[1..] == args[1..] + [op, file] && more[0] == args[0];
    ArgumentKept(more);
    ArgumentKept(args);
    TakenUpPrepend(args[0], Parse(args[1..]), op, file);
  }

  lemma ArgumentKept(args: seq<string>)
    requires args != [] && !IsOperator(args[0])
    ensures Parse(args) == Prepend(args[0], Parse(args[1..]))
  {
  }

  lemma TakenUpPrepend(arg: string, r: Parsed, op: string, file: string)
    requires r.args != []
    ensures TakenUp(Prepend(arg, r), op, file) == Prepend(arg, TakenUp(r, op, file))
  {
    var last := |r.args| - 1;
    assert ([arg] + r.args)[..last + 1] == [arg] + r.args[..last];
    assert [arg] + r.args[..last] + [file] == [arg] + (r.args[..last] + [file]);
  }

  lemma OperatorAlone(last: string, op: string, file: string)
    ensures Parse([last]) == Parsed([last], None, None)
    ensures last == "<" && |op| < FILESIZE ==> Parse([last, op, file]) == Parsed([file], Some(op), None)
    ensures last == ">" && |op| < FILESIZE ==> Parse([last, op, file]) == Parsed([file], None, Some(op))
  {
    assert [last][1..] == [] && [file][1..] == [] && [last, op, file][2..] == [file];
    assert Parse([file]) == Parsed([file], None, None);
    assert last == ">" ==> last[0] == '>';
  }

  lemma {:induction false} LastOverrides(args: seq<string>, op: string, file: string)
    requires IsOperator(op) && !Dangling(args)
    ensures var r, t := Parse(args), Parse(args + [op, file]);
            && t.args == r.args
            && t.input == (if op == "<" then Some(Truncated(file)) else r.input)
            && t.output == (if op == ">" then Some(Truncated(file)) else r.output)
    decreases |args|
  {
    var more := args + [op, file];
    if args == [] {
      assert more == [op, file] && more[2..] == [];
    } else if |args| >= 2 && IsOperator(args[0]) {
      assert more[2..] == args[2..] + [op, file] && more[0] == args[0] && more[1] == args[1];
      LastOverrides(args[2..], op, file);
    } else {
      assert more[1..] == args[1..] + [op, file] && more[0] == args[0];
      assert !IsOperator(args[0]);
      LastOverrides(args[1..], op, file);
    }
  }

  // --------------------------------------------------------------- In place

  predicate AllPointers(ptrs: seq<int>) { forall k :: 0 <= k < |ptrs| ==> ptrs[k] >= 0 }

  /** What pointers point to. */
  function Strings(mem: seq<char>, ptrs: seq<int>): (r: seq<string>)
    requires AllPointers(ptrs)
    ensures |r| == |ptrs| && forall k :: 0 <= k < |ptrs| ==> r[k] == Text(mem, ptrs[k])
  {
    seq(|ptrs|, k requires 0 <= k < |ptrs| => Text(mem, ptrs[k]))
  }

  /** The result when `kept`, `input` and `output` are already decided and `rest` is still to parse. */
  function Resumed(kept: seq<string>, input: Option<string>, output: Option<string>, rest: Parsed): Parsed {
    Parsed(kept + rest.args,
           if rest.input.Some? then rest.input else input,
           if rest.output.Some? then rest.output else output)
  }

  /** Where the loop stands: `v[..i]` is kept, `v[i..]` is still to parse. */
  function Halfway(v: seq<string>, i: nat, input: Option<string>, output: Option<string>): Parsed
    requires i <= |v|
  {
    Resumed(v[..i], input, output, Parse(v[i..]))
  }

  lemma TakeInput(v: seq<string>, i: nat, input: Option<string>, output: Option<string>)
    requires i + 1 < |v| && v[i] == "<"
    ensures Halfway(v, i, input, output) == Halfway(v[..i] + v[i + 2..], i, Some(Truncated(v[i + 1])), output)
  {
    var w := v[..i] + v[i + 2..];
    assert w[..i] == v[..i] && w[i..] == v[i..][2..] && v[i..][1] == v[i + 1];
  }

  lemma TakeOutput(v: seq<string>, i: nat, input: Option<string>, output: Option<string>)
    requires i + 1 < |v| && v[i] == ">"
    ensures Halfway(v, i, input, output) == Halfway(v[..i] + v[i + 2..], i, input, Some(Truncated(v[i + 1])))
  {
    var w := v[..i] + v[i + 2..];
    assert w[..i] == v[..i] && w[i..] == v[i..][2..] && v[i..][1] == v[i + 1];
    assert v[i..][0][0] == '>';
  }

  lemma KeepArgument(v: seq<string>, i: nat, input: Option<string>, output: Option<string>)
    requires i < |v| && !(i + 1 < |v| && IsOperator(v[i]))
    ensures Halfway(v, i, input, output) == Halfway(v, i + 1, input, output)
  {
    assert v[..i + 1] == v[..i] + [v[i]] && v[i..][1..] == v[i + 1..];
    assert v[..i] + ([v[i]] + Parse(v[i + 1..]).args) == (v[..i] + [v[i]]) + Parse(v[i + 1..]).args;
  }

  /** The memmove: every pointer from `at + 2` up to `top` goes two places down. */
  method MoveDown(args: array<int>, at: nat, top: nat)
    requires at + 2 <= top <= args.Length
    modifies args
    ensures forall k :: at <= k < top - 2 ==> args[k] == old(args[k + 2])
    ensures forall k :: 0 <= k < args.Length && !(at <= k < top - 2) ==> args[k] == old(args[k])
  {
    var j := at;
    while j < top - 2
      invariant at <= j <= top - 2
      invariant forall k :: at <= k < j ==> args[k] == old(args[k + 2])
      invariant forall k :: 0 <= k < args.Length && !(at <= k < j) ==> args[k] == old(args[k])
    {
      args[j] := args[j + 2];
      j := j + 1;
    }
  }

  /** Takes an operator and its file name out of the `num` arguments at `base`. */
  method RemovePair(args: array<int>, base: nat, num: nat, i: nat, ghost mem: seq<char>)
    requires i + 2 <= num && base + num < args.Length && AllPointers(args[base..base + num])
    modifies args
    ensures AllPointers(args[base..base + num - 2])
    ensures var v := Strings(mem, old(args[base..base + num]));
            Strings(mem, args[base..base + num - 2]) == v[..i] + v[i + 2..]
    ensures forall k :: 0 <= k < args.Length && !(base <= k < base + num) ==> args[k] == old(args[k])
  {
    ghost var was := args[base..base + num];
    MoveDown(args, base + i, base + num);
    ghost var now := args[base..base + num - 2];
    assert forall k :: 0 <= k < |now| ==> now[k] == args[base + k] == was[if k < i then k else k + 2];
  }

  /** One turn of the loop: lines 54-73. */
  method Turn(args: array<int>, base: nat, num: nat, i: nat, input: Option<string>, output: Option<string>,
              mem: seq<char>)
    returns (num': nat, i': nat, input': Option<string>, output': Option<string>)
    requires i < num && base + num < args.Length && AllPointers(args[base..base + num])
    modifies args
    ensures i' <= num' <= num && num' - i' < num - i && AllPointers(args[base..base + num'])
    ensures Halfway(Strings(mem, args[base..base + num']), i', input', output')
         == Halfway(Strings(mem, old(args[base..base + num])), i, input, output)
    ensures forall k :: 0 <= k < args.Length && !(base <= k < base + num) ==> args[k] == old(args[k])
  {
    ghost var v := Strings(mem, args[base..base + num]);
    num', i', input', output' := num, i, input, output;
    var arg := Text(mem, args[base + i]);
    assert v[i] == arg;
    if i + 1 < num && IsOperator(arg) {
      num' := num - 2;
      input', output' := Redirect(args, base, num, i, input, output, mem);
    } else {
      KeepArgument(v, i, input, output);
      i' := i + 1;
    }
  }

  /** Lines 55-60 and 64-69: a redirection is noted and taken out. */
  method Redirect(args: array<int>, base: nat, num: nat, i: nat, input: Option<string>, output: Option<string>,
                  mem: seq<char>)
    returns (input': Option<string>, output': Option<string>)
    requires i + 1 < num && base + num < args.Length && AllPointers(args[base..base + num])
    requires IsOperator(Text(mem, args[base + i]))
    modifies args
    ensures AllPointers(args[base..base + num - 2])
    ensures Halfway(Strings(mem, args[base..base + num - 2]), i, input', output')
         == Halfway(Strings(mem, old(args[base..base + num])), i, input, output)
    ensures forall k :: 0 <= k < args.Length && !(base <= k < base + num) ==> args[k] == old(args[k])
  {
    ghost var ptrs := args[base..base + num];
    ghost var v := Strings(mem, ptrs);
    assert ptrs[i] == args[base + i] && ptrs[i + 1] == args[base + i + 1];
    var arg, file := Text(mem, args[base + i]), Text(mem, args[base + i + 1]);
    assert v[i] == arg && v[i + 1] == file;
    input', output' := input, output;
    if arg == "<" {
      TakeInput(v, i, input, output);
      input' := Some(Truncated(file));
    } else {
      TakeOutput(v, i, input, output);
      output' := Some(Truncated(file));
    }
    RemovePair(args, base, num, i, mem);
  }

  /** `parse_redirection` on the arguments at `base`, with room for the NULL behind them. */
  method ParseRedirection(args: array<int>, base: nat, numArgs: nat, mem: seq<char>)
    returns (num: nat, input: Option<string>, output: Option<string>)
    requires base + numArgs < args.Length && AllPointers(args[base..base + numArgs])
    modifies args
    ensures num <= numArgs && AllPointers(args[base..base + num])
    ensures args[base + num] == Scanner.NULL
    ensures Parsed(Strings(mem, args[base..base + num]), input, output)
         == Parse(Strings(mem, old(args[base..base + numArgs])))
    ensures forall k :: 0 <= k < args.Length && !(base <= k <= base + numArgs) ==> args[k] == old(args[k])
  {
    num, input, output := Compact(args, base, numArgs, mem);
    ghost var left := args[base..base + num];
    Scanner.StoreNull(args, base + num);
    assert args[base..base + num] == left;
  }

  /** The loop: lines 53-74. */
  method Compact(args: array<int>, base: nat, numArgs: nat, mem: seq<char>)
    returns (num: nat, input: Option<string>, output: Option<string>)
    requires base + numArgs < args.Length && AllPointers(args[base..base + numArgs])
    modifies args
    ensures num <= numArgs && AllPointers(args[base..base + num])
    ensures Parsed(Strings(mem, args[base..base + num]), input, output)
         == Parse(Strings(mem, old(args[base..base + numArgs])))
    ensures forall k :: 0 <= k < args.Length && !(base <= k < base + numArgs) ==> args[k] == old(args[k])
  {
    NoneKept(Strings(mem, args[base..base + numArgs]));
    num, input, output := AllTurns(args, base, numArgs, mem, Parse(Strings(mem, args[base..base + numArgs])));
  }

  /** Turn by turn, with the final result always in sight. */
  method AllTurns(args: array<int>, base: nat, numArgs: nat, mem: seq<char>, ghost result: Parsed)
    returns (num: nat, input: Option<string>, output: Option<string>)
    requires base + numArgs < args.Length && AllPointers(args[base..base + numArgs])
    requires Halfway(Strings(mem, args[base..base + numArgs]), 0, None, None) == result
    modifies args
    ensures num <= numArgs && AllPointers(args[base..base + num])
    ensures Parsed(Strings(mem, args[base..base + num]), input, output) == result
    ensures forall k :: 0 <= k < args.Length && !(base <= k < base + numArgs) ==> args[k] == old(args[k])
  {
    var i := 0;
    num := numArgs;
    input, output := None, None;
    while i < num
      invariant 0 <= i <= num <= numArgs && AllPointers(args[base..base + num])
      invariant Halfway(Strings(mem, args[base..base + num]), i, input, output) == result
      invariant forall k :: 0 <= k < args.Length && !(base <= k < base + numArgs) ==> args[k] == old(args[k])
      decreases num - i
    {
      num, i, input, output := Turn(args, base, num, i, input, output, mem);
    }
    AllKept(Strings(mem, args[base..base + num]), input, output);
  }

  lemma NoneKept(v: seq<string>)
    ensures Halfway(v, 0, None, None) == Parse(v)
  {
    assert v[..0] == [] && v[0..] == v;
  }

  lemma AllKept(v: seq<string>, input: Option<string>, output: Option<string>)
    ensures Halfway(v, |v|, input, output) == Parsed(v, input, output)
  {
    assert v[..|v|] == v && v[|v|..] == [];
  }
}
