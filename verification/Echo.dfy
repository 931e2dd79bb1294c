/** `mojecho` (mojbash/utils.c) and the way of a line from the prompt to its output. */
module Echo {
  import opened Tokens
  import opened CStrings
  import opened Options
  import Redirection
  import Scanner

  /** Each argument followed by a blank. */
  function Spaced(args: seq<string>): string {
    if args == [] then "" else args[0] + " " + Spaced(args[1..])
  }

  function Printed(args: seq<string>): string { Spaced(args) + "\n" }

  /** The printer undoes the scanner on any arguments that are non-empty and whitespace-free. */
  lemma {:induction false} TokensOfPrinted(args: seq<string>)
    requires forall i :: 0 <= i < |args| ==> Solid(args[i])
    ensures Tokenized(Printed(args)) == args
  {
    if args == [] {
      SkipBlank("\n", "");
      assert Printed(args) == "\n" + "";
    } else {
      var rest := Printed(args[1..]);
      TokensOfPrinted(args[1..]);
      assert Printed(args) == args[0] + (" " + rest);
      TakeToken(args[0], " " + rest);
      SkipBlank(" ", rest);
    }
  }

  /** What is printed, character by character: a blank behind each argument, and one line feed at the end. */
  lemma PrintedGrows(args: seq<string>, arg: string)
    ensures Printed([]) == "\n"
    ensures Printed(args) != "" && Printed(args)[|Printed(args)| - 1] == '\n'
    ensures Printed(args + [arg]) == Printed(args)[..|Printed(args)| - 1] + arg + " \n"
  {
    SpacedAppend(args, arg);
    assert Printed(args)[..|Printed(args)| - 1] == Spaced(args);
    assert Spaced(args) + arg + " " + "\n" == Spaced(args) + arg + " \n";
  }

  /** Which arguments can be printed and read back: exactly those. */
  lemma PrintedReadsBackIff(args: seq<string>)
    ensures Tokenized(Printed(args)) == args <==> forall i :: 0 <= i < |args| ==> Solid(args[i])
  {
    TokensKeepText(Printed(args));
    if forall i :: 0 <= i < |args| ==> Solid(args[i]) {
      TokensOfPrinted(args);
    }
  }

  /** What a command gets: the tokens after the first, without their redirections. */
  function Arguments(line: string): Redirection.Parsed
    requires Tokenized(line) != []
  {
    Redirection.Parse(Tokenized(line)[1..])
  }

  lemma {:induction false} ArgumentsSolid(args: seq<string>)
    requires forall i :: 0 <= i < |args| ==> Solid(args[i])
    ensures forall i :: 0 <= i < |Redirection.Parse(args).args| ==> Solid(Redirection.Parse(args).args[i])
    decreases |args|
  {
    if args != [] {
      if |args| >= 2 && Redirection.IsOperator(args[0]) {
        assert forall i :: 0 <= i < |args[2..]| ==> args[2..][i] == args[i + 2];
        ArgumentsSolid(args[2..]);
      } else {
        assert forall i :: 0 <= i < |args[1..]| ==> args[1..][i] == args[i + 1];
        ArgumentsSolid(args[1..]);
      }
    }
  }

  /** Shell round trip: for every line with a command, reading what `mojecho` prints gives back exactly
      the arguments that `parse_redirection` left. */
  lemma RoundTrip(line: string)
    requires Tokenized(line) != []
    ensures Tokenized(Printed(Arguments(line).args)) == Arguments(line).args
  {
    TokensKeepText(line);
    var args := Tokenized(line)[1..];
    assert forall i :: 0 <= i < |args| ==> args[i] == Tokenized(line)[i + 1];
    ArgumentsSolid(args);
    TokensOfPrinted(Redirection.Parse(args).args);
  }

  lemma {:induction false} SpacedAppend(args: seq<string>, arg: string)
    ensures Spaced(args + [arg]) == Spaced(args) + arg + " "
  {
    if args == [] {
      assert Spaced([arg]) == arg + " " + "";
    } else {
      assert (args + [arg])[1..] == args[1..] + [arg];
      SpacedAppend(args[1..], arg);
      var head, rest := args[0] + " ", Spaced(args[1..]);
      assert head + (rest + arg + " ") == (head + rest) + arg + " ";
    }
  }

  /** `mojecho` on the NULL-terminated pointers from `base` on. */
  method MojEcho(args: array<int>, base: nat, ghost num: nat, mem: seq<char>) returns (out: string)
    requires base + num < args.Length && args[base + num] == Scanner.NULL
    requires Redirection.AllPointers(args[base..base + num])
    ensures out == Printed(Redirection.Strings(mem, args[base..base + num]))
  {
    var at := base;
    out := "";
    ghost var all := Redirection.Strings(mem, args[base..base + num]);
    assert num > 0 ==> args[base..base + num][0] == args[base];
    while args[at] != Scanner.NULL
      invariant base <= at <= base + num && (at == base + num || args[at] >= 0)
      invariant out == Spaced(all[..at - base])
      decreases base + num - at
    {
      assert all[at - base] == Text(mem, args[at]);
      SpacedAppend(all[..at - base], all[at - base]);
      assert all[..at - base + 1] == all[..at - base] + [all[at - base]];
      out := out + Text(mem, args[at]);
      out := out + " ";
      at := at + 1;
      assert at < base + num ==> args[base..base + num][at - base] == args[at];
    }
    assert all[..num] == all;
    out := out + "\n";
  }

  /** The turn of the shell's loop for a line whose command is `mojecho`: scan the line in its own memory,
      drop the redirections in place, print (mojbash/main.c:29-57, mojbash/utils.c:91-115). */
  method EchoLine(buf: array<char>, ghost end: nat, memory: nat)
    returns (ok: bool, out: string, input: Option<string>, output: Option<string>)
    requires Scanner.IsLine(buf[..], 0, end)
    modifies buf
    ensures var line := old(buf[..end]);
            ok <==> Tokenized(line) != [] && memory >= Scanner.Grown(Scanner.INITIAL_TOKEN_CAPACITY, |Tokenized(line)|)
    ensures var line := old(buf[..end]);
            ok ==> out == Printed(Arguments(line).args) && Tokenized(out) == Arguments(line).args
                   && input == Arguments(line).input && output == Arguments(line).output
  {
    ghost var line := buf[..end];
    out, input, output := "", None, None;
    var tokens, num := Scanner.Tokenize(buf, end, memory);
    ok := tokens != null && num > 0;
    if ok {
      ghost var ptrs := tokens[1..num];
      assert forall k :: 0 <= k < |ptrs| ==> ptrs[k] == tokens[k + 1];
      assert Redirection.Strings(buf[..], ptrs) == Tokenized(line)[1..];
      out, input, output := Execute(tokens, num, buf[..]);
      RoundTrip(line);
    }
  }

  /** The command's part, on the tokens after the first. */
  method Execute(tokens: array<int>, num: nat, mem: seq<char>)
    returns (out: string, input: Option<string>, output: Option<string>)
    requires 0 < num < tokens.Length && Redirection.AllPointers(tokens[1..num])
    modifies tokens
    ensures var r := Redirection.Parse(Redirection.Strings(mem, old(tokens[1..num])));
            out == Printed(r.args) && input == r.input && output == r.output
  {
    assert tokens[1..1 + (num - 1)] == tokens[1..num];
    var numArgs;
    numArgs, input, output := Redirection.ParseRedirection(tokens, 1, num - 1, mem);
    out := MojEcho(tokens, 1, numArgs, mem);
  }
}
