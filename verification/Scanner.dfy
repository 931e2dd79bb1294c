/** What tokens are: the maximal runs of a line that hold no whitespace. */
module Tokens {

  predicate IsSpace(c: char) { c in " \t\n\U{0c}\r\U{0b}" }

  predicate Blank(s: string) { forall i :: 0 <= i < |s| ==> IsSpace(s[i]) }

  predicate Solid(s: string) { s != "" && forall i :: 0 <= i < |s| ==> !IsSpace(s[i]) }

  /** Length of the run of non-whitespace that `s` starts with. */
  function RunLength(s: string): (n: nat)
    ensures n <= |s| && (forall i :: 0 <= i < n ==> !IsSpace(s[i])) && (n < |s| ==> IsSpace(s[n]))
  {
    if s == "" || IsSpace(s[0]) then 0 else 1 + RunLength(s[1..])
  }

  function Tokenized(s: string): seq<string>
    decreases |s|
  {
    if s == "" then []
    else if IsSpace(s[0]) then Tokenized(s[1..])
    else [s[..RunLength(s)]] + Tokenized(s[RunLength(s)..])
  }

  lemma {:induction false} SkipBlank(gap: string, rest: string)
    requires Blank(gap)
    ensures Tokenized(gap + rest) == Tokenized(rest)
  {
    if gap == "" {
      assert gap + rest == rest;
    } else {
      assert (gap + rest)[1..] == gap[1..] + rest;
      SkipBlank(gap[1..], rest);
    }
  }

  lemma {:induction false} RunLengthOf(tok: string, rest: string)
    requires forall i :: 0 <= i < |tok| ==> !IsSpace(tok[i])
    requires rest == "" || IsSpace(rest[0])
    ensures RunLength(tok + rest) == |tok|
  {
    if tok == "" {
      assert tok + rest == rest;
    } else {
      assert (tok + rest)[1..] == tok[1..] + rest;
      RunLengthOf(tok[1..], rest);
    }
  }

  lemma TakeToken(tok: string, rest: string)
    requires Solid(tok) && (rest == "" || IsSpace(rest[0]))
    ensures Tokenized(tok + rest) == [tok] + Tokenized(rest)
  {
    RunLengthOf(tok, rest);
    assert (tok + rest)[..|tok|] == tok && (tok + rest)[|tok|..] == rest;
  }

  // --------------------------------------------- An independent description

  /** gaps[0] toks[0] gaps[1] toks[1] ... gaps[n] */
  function Weave(gaps: seq<string>, toks: seq<string>): string
    requires |gaps| == |toks| + 1
  {
    if toks == [] then gaps[0] else gaps[0] + toks[0] + Weave(gaps[1..], toks[1..])
  }

  /** Tokens without whitespace, between gaps of nothing but whitespace that keep them apart. */
  predicate Apart(gaps: seq<string>, toks: seq<string>) {
    && |gaps| == |toks| + 1
    && (forall i :: 0 <= i < |gaps| ==> Blank(gaps[i]))
    && (forall i :: 0 <= i < |toks| ==> Solid(toks[i]))
    && (forall i :: 0 < i < |toks| ==> gaps[i] != "")
  }

  /** There is only one way to split a line so, and it is the one computed. */
  lemma {:induction false} SplitIsUnique(gaps: seq<string>, toks: seq<string>)
    requires Apart(gaps, toks)
    ensures Tokenized(Weave(gaps, toks)) == toks
  {
    if toks == [] {
      assert gaps[0] == gaps[0] + "";
      SkipBlank(gaps[0], "");
    } else {
      var rest := Weave(gaps[1..], toks[1..]);
      assert Apart(gaps[1..], toks[1..]);
      SplitIsUnique(gaps[1..], toks[1..]);
      assert rest == "" || IsSpace(rest[0]) by {
        if toks[1..] != [] {
          assert gaps[1] != "" && rest[0] == gaps[1][0];
        }
      }
      assert gaps[0] + toks[0] + rest == gaps[0] + (toks[0] + rest);
      SkipBlank(gaps[0], toks[0] + rest);
      TakeToken(toks[0], rest);
    }
  }

  lemma WidenFirstGap(c: char, gaps: seq<string>, toks: seq<string>) returns (wider: seq<string>)
    requires IsSpace(c) && Apart(gaps, toks)
    ensures Apart(wider, toks) && Weave(wider, toks) == [c] + Weave(gaps, toks)
  {
    wider := [[c] + gaps[0]] + gaps[1..];
    assert wider[1..] == gaps[1..];
    if toks != [] {
      var rest := Weave(gaps[1..], toks[1..]);
      assert ([c] + gaps[0]) + toks[0] + rest == [c] + (gaps[0] + toks[0] + rest);
    }
  }

  lemma PrependToken(tok: string, gaps: seq<string>, toks: seq<string>)
    requires Solid(tok) && Apart(gaps, toks) && (toks != [] ==> gaps[0] != "")
    ensures Apart([""] + gaps, [tok] + toks) && Weave([""] + gaps, [tok] + toks) == tok + Weave(gaps, toks)
  {
    assert ([""] + gaps)[1..] == gaps && ([tok] + toks)[1..] == toks;
    assert "" + tok + Weave(gaps, toks) == tok + Weave(gaps, toks);
  }

  lemma {:induction false} SplitExists(s: string) returns (gaps: seq<string>)
    ensures Apart(gaps, Tokenized(s)) && Weave(gaps, Tokenized(s)) == s
    decreases |s|
  {
    if s == "" {
      gaps := [""];
    } else if IsSpace(s[0]) {
      gaps := SplitExists(s[1..]);
      gaps := WidenFirstGap(s[0], gaps, Tokenized(s[1..]));
      assert s == [s[0]] + s[1..];
    } else {
      var n := RunLength(s);
      gaps := SplitExists(s[n..]);
      if Tokenized(s[n..]) != [] && gaps[0] == "" {
        StartsWithToken(gaps, Tokenized(s[n..]));
      }
      PrependToken(s[..n], gaps, Tokenized(s[n..]));
      assert s == s[..n] + s[n..];
      gaps := [""] + gaps;
    }
  }

  /** A woven line that starts with a token does not start with whitespace. */
  lemma StartsWithToken(gaps: seq<string>, toks: seq<string>)
    requires Apart(gaps, toks) && toks != [] && gaps[0] == ""
    ensures Weave(gaps, toks) != "" && !IsSpace(Weave(gaps, toks)[0])
  {
    assert Solid(toks[0]);
    assert Weave(gaps, toks)[0] == toks[0][0];
  }

  function WithoutSpace(s: string): string {
    if s == "" then "" else (if IsSpace(s[0]) then "" else [s[0]]) + WithoutSpace(s[1..])
  }

  function Concat(toks: seq<string>): string {
    if toks == [] then "" else toks[0] + Concat(toks[1..])
  }

  lemma {:induction false} WithoutSpaceAppend(s: string, t: string)
    ensures WithoutSpace(s + t) == WithoutSpace(s) + WithoutSpace(t)
  {
    if s == "" {
      assert s + t == t;
    } else {
      assert (s + t)[1..] == s[1..] + t;
      WithoutSpaceAppend(s[1..], t);
    }
  }

  lemma {:induction false} WithoutSpaceSolid(s: string)
    requires forall i :: 0 <= i < |s| ==> !IsSpace(s[i])
    ensures WithoutSpace(s) == s
  {
    if s != "" {
      WithoutSpaceSolid(s[1..]);
    }
  }

  /** The characters that separate tokens, by their codes: tab, line feed, vertical tab, form feed, carriage
      return and blank. */
  lemma SpaceCodes(c: char)
    ensures IsSpace(c) <==> 9 <= c as int <= 13 || c as int == 32
  {
  }

  /** Two words and any gap of such characters. */
  lemma TwoWords(a: string, gap: string, b: string)
    requires a != "" && b != "" && gap != ""
    requires forall i :: 0 <= i < |a| ==> !(9 <= a[i] as int <= 13 || a[i] as int == 32)
    requires forall i :: 0 <= i < |b| ==> !(9 <= b[i] as int <= 13 || b[i] as int == 32)
    requires forall i :: 0 <= i < |gap| ==> 9 <= gap[i] as int <= 13 || gap[i] as int == 32
    ensures Tokenized(a + gap + b) == [a, b]
  {
    forall c: char
      ensures IsSpace(c) <==> 9 <= c as int <= 13 || c as int == 32
    {
      SpaceCodes(c);
    }
    TakeToken(b, "");
    assert b + "" == b;
    SkipBlank(gap, b);
    TakeToken(a, gap + b);
    assert a + gap + b == a + (gap + b);
  }

  /** The characters of a line that are not such characters, in order. */
  function Printable(s: string): string {
    if s == "" then ""
    else (if 9 <= s[0] as int <= 13 || s[0] as int == 32 then "" else [s[0]]) + Printable(s[1..])
  }

  /** Tokens hold none of them, and all else is kept, in order. */
  lemma TokensByCode(s: string)
    ensures Concat(Tokenized(s)) == Printable(s)
    ensures forall i, j :: 0 <= i < |Tokenized(s)| && 0 <= j < |Tokenized(s)[i]| ==>
              !(9 <= Tokenized(s)[i][j] as int <= 13 || Tokenized(s)[i][j] as int == 32)
  {
    TokensKeepText(s);
    SameText(s);
    forall i, j | 0 <= i < |Tokenized(s)| && 0 <= j < |Tokenized(s)[i]|
      ensures !(9 <= Tokenized(s)[i][j] as int <= 13 || Tokenized(s)[i][j] as int == 32)
    {
      assert Solid(Tokenized(s)[i]);
      SpaceCodes(Tokenized(s)[i][j]);
    }
  }

  lemma {:induction false} SameText(s: string)
    ensures WithoutSpace(s) == Printable(s)
  {
    if s != "" {
      SpaceCodes(s[0]);
      SameText(s[1..]);
    }
  }

  /** Nothing but whitespace is lost, and every token is non-empty and whitespace-free. */
  lemma {:induction false} TokensKeepText(s: string)
    ensures Concat(Tokenized(s)) == WithoutSpace(s)
    ensures forall i :: 0 <= i < |Tokenized(s)| ==> Solid(Tokenized(s)[i])
    decreases |s|
  {
    if s != "" {
      if IsSpace(s[0]) {
        TokensKeepText(s[1..]);
      } else {
        var n := RunLength(s);
        TokensKeepText(s[n..]);
        assert s == s[..n] + s[n..];
        WithoutSpaceAppend(s[..n], s[n..]);
        WithoutSpaceSolid(s[..n]);
        assert Tokenized(s)[1..] == Tokenized(s[n..]);
      }
    }
  }
}

/** C strings in a memory of characters; a pointer is an index into it. */
module CStrings {
  const NUL: char := '\0'

  /** The string at address `p`. */
  function Text(mem: seq<char>, p: nat): string
    decreases |mem| - p
  {
    if p >= |mem| || mem[p] == NUL then "" else [mem[p]] + Text(mem, p + 1)
  }

  predicate StringAt(mem: seq<char>, p: nat, t: string) {
    p + |t| < |mem| && mem[p..p + |t|] == t && NUL !in t && mem[p + |t|] == NUL
  }

  /** Characters that are not zero, then a zero, are the string at their address. */
  lemma StringEndsAtZero(mem: seq<char>, p: nat, t: string)
    requires p + |t| < |mem| && mem[p..p + |t|] == t && mem[p + |t|] as int == 0
    requires forall i :: 0 <= i < |t| ==> t[i] as int != 0
    ensures Text(mem, p) == t
  {
    StringAtIsText(mem, p, t);
  }

  lemma {:induction false} StringAtIsText(mem: seq<char>, p: nat, t: string)
    requires StringAt(mem, p, t)
    ensures Text(mem, p) == t
    decreases |t|
  {
    if t != "" {
      assert mem[p..p + |t|][0] == mem[p] && t[0] == mem[p] && mem[p] in t;
      assert mem[p + 1..p + 1 + |t[1..]|] == mem[p..p + |t|][1..];
      StringAtIsText(mem, p + 1, t[1..]);
    }
  }
}

/** `tokenize` (mojbash/scanner.c): strtok on the line's own memory, and a growing array of pointers. */
module Scanner {
  import opened Tokens
  import opened CStrings

  const INITIAL_TOKEN_CAPACITY: nat := 10
  const NULL: int := -1

  /** What is left of a line from `save` on, up to the NUL at `end`. */
  ghost predicate IsLine(mem: seq<char>, save: nat, end: nat) {
    save <= end < |mem| && mem[end] == NUL && forall k :: save <= k < end ==> mem[k] != NUL
  }

  /** A line in its buffer: characters that are not zero, then a zero. */
  lemma LineInBuffer(mem: seq<char>, end: nat)
    requires end < |mem| && mem[end] as int == 0 && forall k :: 0 <= k < end ==> mem[k] as int != 0
    ensures IsLine(mem, 0, end)
  {
  }

  /** The capacity that holds `n` tokens and the terminator, from `capacity` by doubling. */
  function Grown(capacity: nat, n: nat): (r: nat)
    requires capacity >= 1
    ensures n < r && capacity <= r && (r > capacity ==> r <= 2 * n)
    decreases n - capacity
  {
    if n < capacity then capacity else Grown(2 * capacity, n)
  }

  lemma {:induction false} GrownStep(capacity: nat, n: nat)
    requires capacity >= 1
    ensures Grown(capacity, n) <= Grown(capacity, n + 1)
    ensures Grown(Grown(capacity, n), n + 1) == Grown(capacity, n + 1)
    decreases n - capacity
  {
    if n >= capacity {
      GrownStep(2 * capacity, n);
    }
  }

  /** strspn with the delimiters: where the next token starts, or the end of the line. */
  method SkipDelimiters(buf: array<char>, save: nat, ghost end: nat) returns (i: nat)
    requires IsLine(buf[..], save, end)
    ensures save <= i <= end && (i < end ==> !IsSpace(buf[i]))
    ensures Tokenized(buf[save..end]) == Tokenized(buf[i..end])
  {
    i := save;
    while buf[i] != NUL && IsSpace(buf[i])
      invariant save <= i <= end
      invariant Tokenized(buf[i..end]) == Tokenized(buf[save..end])
      decreases end - i
    {
      assert buf[i..end][1..] == buf[i + 1..end];
      i := i + 1;
    }
  }

  /** strcspn with the delimiters: where the token that starts at `i` ends. */
  method TokenEnd(buf: array<char>, i: nat, ghost end: nat) returns (j: nat)
    requires i < end && IsLine(buf[..], i, end) && !IsSpace(buf[i])
    ensures i < j <= end && (j < end ==> IsSpace(buf[j]))
    ensures Solid(buf[i..j])
    ensures Tokenized(buf[i..end]) == [buf[i..j]] + Tokenized(buf[j..end])
  {
    j := i + 1;
    while buf[j] != NUL && !IsSpace(buf[j])
      invariant i < j <= end
      invariant forall k :: i <= k < j ==> !IsSpace(buf[k])
      decreases end - j
    {
      j := j + 1;
    }
    assert buf[i..end] == buf[i..j] + buf[j..end];
    TakeToken(buf[i..j], buf[j..end]);
  }

  /** strtok (section 7.24.5.8 of ISO C11) from `save` on: the next token, or NULL, and where to go on.
      The line ends at `end`. */
  method Strtok(buf: array<char>, save: nat, ghost end: nat) returns (tok: int, next: nat)
    requires IsLine(buf[..], save, end)
    modifies buf
    ensures save <= next <= end
    ensures forall i :: 0 <= i < buf.Length && !(save <= i < next) ==> buf[i] == old(buf[i])
    ensures Tokenized(old(buf[save..end])) == [] <==> tok == NULL
    ensures tok != NULL ==> tok >= save
    ensures tok != NULL ==>
      var ts := Tokenized(old(buf[save..end]));
      && StringAt(buf[..], tok, ts[0]) && (tok + |ts[0]| < next || next == end)
      && Tokenized(buf[next..end]) == ts[1..]
  {
    var i := SkipDelimiters(buf, save, end);
    if buf[i] == NUL {
      assert i == end;
      return NULL, i;
    }
    tok := i;
    var j := TokenEnd(buf, i, end);
    next := Terminate(buf, i, j, end);
  }

  /** Overwrites the delimiter after a token, if the line does not end there. */
  method Terminate(buf: array<char>, i: nat, j: nat, ghost end: nat) returns (next: nat)
    requires i < j && IsLine(buf[..], i, end) && j <= end && (j < end ==> IsSpace(buf[j]))
    modifies buf
    ensures j <= next <= end && (j < next || next == end)
    ensures forall k :: 0 <= k < buf.Length && !(j <= k < next) ==> buf[k] == old(buf[k])
    ensures StringAt(buf[..], i, old(buf[i..j]))
    ensures Tokenized(buf[next..end]) == Tokenized(old(buf[j..end]))
  {
    ghost var t := buf[i..j];
    next := j;
    if buf[j] != NUL {
      assert buf[j..end][1..] == buf[j + 1..end];
      ghost var after := buf[j + 1..end];
      buf[j] := NUL;
      next := j + 1;
      assert buf[next..end] == after;
    }
    assert buf[..][i..j] == t;
  }

  lemma StringKept(before: seq<char>, after: seq<char>, p: nat, t: string)
    requires StringAt(before, p, t) && |before| == |after|
    requires forall i :: p <= i <= p + |t| ==> after[i] == before[i]
    ensures StringAt(after, p, t)
  {
    assert after[p..p + |t|] == before[p..p + |t|];
  }

  method Malloc(capacity: nat) returns (vec: array<int>)
    ensures fresh(vec) && vec.Length == capacity
  {
    vec := new int[capacity];
  }

  /** `realloc` to a new capacity: the old pointers are kept. */
  method Realloc(tokens: array<int>, used: nat, capacity: nat) returns (bigger: array<int>)
    requires used <= tokens.Length <= capacity
    ensures fresh(bigger) && bigger.Length == capacity && bigger[..used] == tokens[..used]
  {
    bigger := Malloc(capacity);
    var i := 0;
    while i < used
      invariant 0 <= i <= used && bigger[..i] == tokens[..i]
    {
      bigger[i] := tokens[i];
      i := i + 1;
    }
  }

  /** The first `n` pointers are the first `n` strings of `ts`, all below `limit` or at the line's end. */
  ghost predicate Pointers(mem: seq<char>, ptrs: seq<int>, ts: seq<string>, limit: nat, end: nat) {
    && |ptrs| <= |ts|
    && forall k :: 0 <= k < |ptrs| ==>
      ptrs[k] >= 0 && StringAt(mem, ptrs[k], ts[k]) && (ptrs[k] + |ts[k]| < limit || limit == end)
  }

  lemma PointersKept(before: seq<char>, after: seq<char>, ptrs: seq<int>, ts: seq<string>,
                     save: nat, next: nat, end: nat)
    requires Pointers(before, ptrs, ts, save, end)
    requires save <= next <= end && |before| == |after|
    requires forall i :: 0 <= i < |before| && !(save <= i < next) ==> after[i] == before[i]
    ensures Pointers(after, ptrs, ts, next, end)
  {
    forall k | 0 <= k < |ptrs|
      ensures StringAt(after, ptrs[k], ts[k])
    {
      StringKept(before, after, ptrs[k], ts[k]);
    }
  }

  lemma {:induction false} GrownMonotone(capacity: nat, n: nat, m: nat)
    requires capacity >= 1 && n <= m
    ensures Grown(capacity, n) <= Grown(capacity, m)
    decreases m
  {
    if n < m {
      GrownMonotone(capacity, n, m - 1);
      GrownStep(capacity, m - 1);
    }
  }

  /** Lines 21-32: grows the array when only the terminator's slot is left, then stores the token. */
  method Append(vec: array<int>, num: nat, token: int, memory: nat) returns (grown: array?<int>)
    requires vec.Length == Grown(INITIAL_TOKEN_CAPACITY, num) <= memory
    modifies vec
    ensures grown == null <==> memory < Grown(INITIAL_TOKEN_CAPACITY, num + 1)
    ensures grown != null ==>
      && (grown == vec || fresh(grown))
      && grown.Length == Grown(INITIAL_TOKEN_CAPACITY, num + 1)
      && grown[..num + 1] == old(vec[..num]) + [token]
  {
    GrownStep(INITIAL_TOKEN_CAPACITY, num);
    grown := vec;
    if num >= vec.Length - 1 {
      var capacity := vec.Length * 2;
      if capacity > memory {
        return null;
      }
      grown := Realloc(vec, num, capacity);
    }
    grown[num] := token;
  }

  /** Between two turns of the loop: `ptrs` are stored, `token` is the next one, the rest is still to scan. */
  ghost predicate Scanning(mem: seq<char>, ptrs: seq<int>, token: int, save: nat, ts: seq<string>, end: nat) {
    && IsLine(mem, save, end)
    && Pointers(mem, ptrs, ts, save, end)
    && (token == NULL ==> |ptrs| == |ts|)
    && (token != NULL ==>
         && |ptrs| < |ts| && Pointers(mem, ptrs + [token], ts, save, end)
         && Tokenized(mem[save..end]) == ts[|ptrs| + 1..])
  }

  /** The call of strtok at the end of a turn. */
  method Advance(buf: array<char>, save: nat, ghost ptrs: seq<int>, ghost ts: seq<string>, ghost end: nat)
    returns (token: int, next: nat)
    requires IsLine(buf[..], save, end)
    requires Pointers(buf[..], ptrs, ts, save, end) && Tokenized(buf[save..end]) == ts[|ptrs|..]
    modifies buf
    ensures Scanning(buf[..], ptrs, token, next, ts, end)
  {
    ghost var before := buf[..];
    token, next := Strtok(buf, save, end);
    PointersKept(before, buf[..], ptrs, ts, save, next, end);
    assert buf[..][next..end] == before[next..end];
    assert before[save..end][next - save..] == before[next..end];
    if token != NULL {
      assert ts[|ptrs|..][0] == ts[|ptrs|] && ts[|ptrs|..][1..] == ts[|ptrs| + 1..];
    }
  }

  /** One turn of the loop: lines 21-33. */
  method Turn(buf: array<char>, vec: array<int>, num: nat, token: int, save: nat, memory: nat,
              ghost ts: seq<string>, ghost end: nat)
    returns (grown: array?<int>, token': int, next: nat)
    requires vec.Length == Grown(INITIAL_TOKEN_CAPACITY, num) <= memory
    requires token != NULL && Scanning(buf[..], vec[..num], token, save, ts, end)
    modifies buf, vec
    ensures grown == null <==> memory < Grown(INITIAL_TOKEN_CAPACITY, num + 1)
    ensures grown != null ==>
      && (grown == vec || fresh(grown))
      && grown.Length == Grown(INITIAL_TOKEN_CAPACITY, num + 1)
      && Scanning(buf[..], grown[..num + 1], token', next, ts, end)
  {
    grown := Append(vec, num, token, memory);
    if grown == null {
      return null, token, save;
    }
    token', next := Advance(buf, save, grown[..num + 1], ts, end);
  }

  /** `tokenize`; `memory` is the largest capacity that can be allocated.  On success the pointers are the
      tokens of the line, in order, then NULL; the capacity is enough and at most max(10, 2 * tokens).
      It fails exactly when that capacity cannot be had. */
  method Tokenize(buf: array<char>, ghost end: nat, memory: nat) returns (tokens: array?<int>, num: nat)
    requires IsLine(buf[..], 0, end)
    modifies buf
    ensures tokens == null <==> memory < Grown(INITIAL_TOKEN_CAPACITY, |Tokenized(old(buf[..end]))|)
    ensures tokens != null ==>
      && fresh(tokens) && num == |Tokenized(old(buf[..end]))|
      && tokens.Length == Grown(10, num) && num < tokens.Length
      && 10 <= tokens.Length <= (if num <= 5 then 10 else 2 * num)
      && tokens[num] == NULL
    ensures tokens != null ==> forall k :: 0 <= k < num ==>
      tokens[k] >= 0 && Text(buf[..], tokens[k]) == Tokenized(old(buf[..end]))[k]
  {
    num := 0;
    ghost var ts := Tokenized(buf[..end]);
    GrownMonotone(INITIAL_TOKEN_CAPACITY, 0, |ts|);
    if INITIAL_TOKEN_CAPACITY > memory {
      return null, num;
    }
    var vec := Malloc(INITIAL_TOKEN_CAPACITY);
    assert buf[0..end] == buf[..end] && vec[..0] == [];
    var token, save := Advance(buf, 0, [], ts, end);
    ghost var last;
    tokens, num, last := ScanAll(buf, vec, token, save, memory, ts, end);
    if tokens != null {
      AllTexts(buf[..], tokens[..num], ts, last, end);
      StoreNull(tokens, num);
    }
  }

  method StoreNull(ptrs: array<int>, num: nat)
    requires num < ptrs.Length
    modifies ptrs
    ensures ptrs[num] == NULL && forall k :: 0 <= k < ptrs.Length && k != num ==> ptrs[k] == old(ptrs[k])
  {
    ptrs[num] := NULL;
  }

  /** The loop: lines 20-34, from an empty array on. */
  method ScanAll(buf: array<char>, vec: array<int>, first: int, start: nat, memory: nat,
                 ghost ts: seq<string>, ghost end: nat)
    returns (tokens: array?<int>, num: nat, ghost last: nat)
    requires vec.Length == Grown(INITIAL_TOKEN_CAPACITY, 0) <= memory
    requires Scanning(buf[..], [], first, start, ts, end)
    modifies buf, vec
    ensures tokens == null <==> memory < Grown(INITIAL_TOKEN_CAPACITY, |ts|)
    ensures tokens != null ==>
      && (tokens == vec || fresh(tokens)) && num == |ts|
      && tokens.Length == Grown(INITIAL_TOKEN_CAPACITY, num)
      && Pointers(buf[..], tokens[..num], ts, last, end)
  {
    var ptrs, token, save := vec, first, start;
    num, last := 0, start;
    assert ptrs[..0] == [];
    while token != NULL
      invariant (ptrs == vec || fresh(ptrs)) && ptrs.Length == Grown(INITIAL_TOKEN_CAPACITY, num) <= memory
      invariant num <= |ts| && Scanning(buf[..], ptrs[..num], token, save, ts, end)
      decreases |ts| - num
    {
      GrownMonotone(INITIAL_TOKEN_CAPACITY, num + 1, |ts|);
      var grown;
      grown, token, save := Turn(buf, ptrs, num, token, save, memory, ts, end);
      if grown == null {
        return null, num, save;
      }
      ptrs := grown;
      num := num + 1;
    }
    tokens, last := ptrs, save;
  }

  lemma AllTexts(mem: seq<char>, ptrs: seq<int>, ts: seq<string>, limit: nat, end: nat)
    requires Pointers(mem, ptrs, ts, limit, end)
    ensures forall k :: 0 <= k < |ptrs| ==> ptrs[k] >= 0 && Text(mem, ptrs[k]) == ts[k]
  {
    forall k | 0 <= k < |ptrs|
      ensures Text(mem, ptrs[k]) == ts[k]
    {
      StringAtIsText(mem, ptrs[k], ts[k]);
    }
  }
}
