/** Building and printing a response (http-server/src/HTTPResponse.cpp), and reading it back as a
    recipient does (sections 2.1, 4, 5 and 6.2 of RFC 9112). */
module HttpResponse {
  import opened Options
  import opened Search
  import opened HttpSyntax

  datatype Message = Message(code: int, text: string, headers: map<string, string>, body: string)

  /** `std::to_string` of an int. */
  function Show(n: int): string {
    if n < 0 then "-" + Decimal(-n) else Decimal(n)
  }

  // ----------------------------------------------------------------- Printing

  function StatusLine(m: Message): string { VERSION + Show(m.code) + " " + m.text }

  function HeaderLine(name: string, value: string): string { name + SEPARATOR + value }

  function Lines(m: Message, order: seq<string>): seq<string>
    requires forall name :: name in order ==> name in m.headers
  {
    if order == [] then [] else [HeaderLine(order[0], m.headers[order[0]])] + Lines(m, order[1..])
  }

  /** Lines, each with its CRLF. */
  function Joined(lines: seq<string>): string {
    if lines == [] then "" else lines[0] + CRLF + Joined(lines[1..])
  }

  /** What goes over the wire when the header map is iterated in `order`. */
  function Wire(m: Message, order: seq<string>): string
    requires forall name :: name in order ==> name in m.headers
  {
    Joined([StatusLine(m)] + Lines(m, order)) + CRLF + m.body
  }

  /** The order of an unordered_map: every key once. */
  ghost predicate IsOrder(order: seq<string>, headers: map<string, string>) {
    && (forall name :: name in headers <==> name in order)
    && (forall i, j :: 0 <= i < j < |order| ==> order[i] != order[j])
  }

  // ------------------------------------------------------------------ Reading

  /** The head is what stands before the first empty line; the body is the rest. */
  function ReadMessage(wire: string): Option<Message> {
    var end := Find(wire, HEAD_END);
    if end < 0 then None
    else
      var lines := SplitLines(wire[..end]);
      var status := ReadStatus(lines[0]);
      var headers := ReadHeaders(lines[1..]);
      if status.None? || headers.None? then None
      else Some(Message(status.value.0, status.value.1, headers.value, wire[end + 4..]))
  }

  function SplitLines(head: string): (lines: seq<string>)
    ensures lines != []
    decreases |head|
  {
    var end := Find(head, CRLF);
    if end < 0 then [head] else [head[..end]] + SplitLines(head[end + 2..])
  }

  function ReadInt(s: string): Option<int> {
    var negative := s != "" && s[0] == '-';
    var value := DecimalValue(if negative then s[1..] else s);
    if value < 0 then None else Some(if negative then -value else value)
  }

  /** Version, a blank, the code, a blank, the text. */
  function ReadStatus(line: string): Option<(int, string)> {
    if !(VERSION <= line) then None
    else
      var rest := line[|VERSION|..];
      var blank := Find(rest, " ");
      if blank < 0 then None
      else
        var code := ReadInt(rest[..blank]);
        if code.None? then None else Some((code.value, rest[blank + 1..]))
  }

  /** Name and value are split at the first colon and blank. */
  function ReadHeaders(lines: seq<string>): Option<map<string, string>> {
    if lines == [] then Some(map[])
    else
      var colon := Find(lines[0], SEPARATOR);
      var rest := ReadHeaders(lines[1..]);
      if colon < 0 || rest.None? then None
      else Some(map[lines[0][..colon] := lines[0][colon + 2..]] + rest.value)
  }

  // ------------------------------------------------- What can be read back

  predicate OneLine(s: string) { !Contains(s, CRLF) }

  /** No line break in the text, a name or a value, and no colon and blank in a name. */
  ghost predicate Clean(m: Message) {
    && OneLine(m.text)
    && forall name :: name in m.headers ==>
      OneLine(name) && OneLine(m.headers[name]) && !Contains(name, SEPARATOR)
  }

  /** A line is found whole in front of its CRLF. */
  lemma FindLineEnd(line: string, rest: string)
    requires OneLine(line)
    ensures Find(line + CRLF + rest, CRLF) == |line|
  {
    var s := line + CRLF + rest;
    assert OccursAt(s, CRLF, |line|);
    forall i | 0 <= i < |line|
      ensures !OccursAt(s, CRLF, i)
    {
      if OccursAt(s, CRLF, i) {
        NoBreakInside(line, rest, i);
      }
    }
    FindIs(s, CRLF, |line|);
  }

  lemma NoBreakInside(line: string, rest: string, i: nat)
    requires OneLine(line) && i < |line|
    ensures !OccursAt(line + CRLF + rest, CRLF, i)
  {
    assert line + CRLF + rest == line + (CRLF + rest);
    if i + 2 <= |line| {
      OccursInFront(line, CRLF + rest, CRLF, i);
      assert !OccursAt(line, CRLF, i);
    } else if OccursAt(line + CRLF + rest, CRLF, i) {
      OccursChar(line + CRLF + rest, CRLF, i, 1);
    }
  }

  /** The end of the head begins with a line break, and the second break follows at once. */
  lemma HeadEndIsTwoBreaks(s: string, i: nat)
    ensures OccursAt(s, HEAD_END, i) <==> OccursAt(s, CRLF, i) && OccursAt(s, CRLF, i + 2)
  {
    if i + 4 <= |s| {
      assert s[i..i + 4] == s[i..i + 2] + s[i + 2..i + 4];
      assert HEAD_END == CRLF + CRLF;
      assert s[i..i + 2] == s[i..i + 4][..2] && s[i + 2..i + 4] == s[i..i + 4][2..];
    }
  }

  /** No break, and so no end of the head, starts in a line or in the break behind it. */
  lemma NoHeadEndInLine(line: string, rest: string, i: nat)
    requires OneLine(line) && i <= |line| + 1
    requires i == |line| ==> !OccursAt(rest, CRLF, 0)
    ensures !OccursAt(line + CRLF + rest, HEAD_END, i)
  {
    var s := line + CRLF + rest;
    HeadEndIsTwoBreaks(s, i);
    if i < |line| {
      NoBreakInside(line, rest, i);
    } else if i == |line| {
      OccursShift(line + CRLF, rest, CRLF, 0);
    } else {
      if OccursAt(s, CRLF, i) {
        OccursChar(s, CRLF, i, 0);
      }
    }
  }

  /** A line and its break in front do not hide or move the end of the head. */
  lemma HeadEndAfterLine(line: string, rest: string)
    requires OneLine(line) && Find(rest, HEAD_END) >= 0 && !OccursAt(rest, CRLF, 0)
    ensures Find(line + CRLF + rest, HEAD_END) == |line| + 2 + Find(rest, HEAD_END)
  {
    var front := line + CRLF;
    forall i | 0 <= i < |front|
      ensures !OccursAt(front + rest, HEAD_END, i)
    {
      NoHeadEndInLine(line, rest, i);
    }
    FindBehind(front, rest, HEAD_END);
  }

  lemma HeadEndBehind(line: string, body: string)
    ensures OccursAt(line + CRLF + (CRLF + body), HEAD_END, |line|)
  {
    assert line + CRLF + (CRLF + body) == line + (HEAD_END + body);
    assert (HEAD_END + body)[..4] == HEAD_END;
    OccursShift(line, HEAD_END + body, HEAD_END, 0);
  }

  lemma HeadEndOfLine(line: string, body: string)
    requires OneLine(line)
    ensures Find(line + CRLF + (CRLF + body), HEAD_END) == |line|
  {
    var s := line + CRLF + (CRLF + body);
    HeadEndBehind(line, body);
    forall i | 0 <= i < |line|
      ensures !OccursAt(s, HEAD_END, i)
    {
      NoHeadEndInLine(line, CRLF + body, i);
    }
    FindIs(s, HEAD_END, |line|);
  }

  predicate GoodLines(lines: seq<string>) {
    lines != [] && forall i :: 0 <= i < |lines| ==> OneLine(lines[i]) && lines[i] != ""
  }

  /** Lines with a CRLF between them. */
  function Core(lines: seq<string>): string
    requires lines != []
  {
    if |lines| == 1 then lines[0] else lines[0] + CRLF + Core(lines[1..])
  }

  lemma {:induction false} JoinedCore(lines: seq<string>)
    requires lines != []
    ensures Joined(lines) == Core(lines) + CRLF
  {
    if |lines| == 1 {
      assert Joined(lines[1..]) == "";
      assert lines[0] + CRLF + "" == lines[0] + CRLF;
    } else {
      JoinedCore(lines[1..]);
      assert lines[0] + CRLF + (Core(lines[1..]) + CRLF) == (lines[0] + CRLF + Core(lines[1..])) + CRLF;
    }
  }

  lemma NoBreakInFront(lines: seq<string>, tail: string)
    requires GoodLines(lines)
    ensures !OccursAt(Joined(lines) + tail, CRLF, 0)
  {
    var after := Joined(lines[1..]) + tail;
    assert Joined(lines) + tail == lines[0] + CRLF + after;
    NoBreakInside(lines[0], after, 0);
  }

  lemma {:induction false} HeadEndOfLines(lines: seq<string>, body: string)
    requires GoodLines(lines)
    ensures Find(Joined(lines) + (CRLF + body), HEAD_END) == |Core(lines)|
  {
    var rest := Joined(lines[1..]) + (CRLF + body);
    assert Joined(lines) + (CRLF + body) == lines[0] + CRLF + rest;
    if |lines| == 1 {
      assert rest == CRLF + body;
      HeadEndOfLine(lines[0], body);
    } else {
      assert GoodLines(lines[1..]);
      HeadEndOfLines(lines[1..], body);
      NoBreakInFront(lines[1..], CRLF + body);
      HeadEndAfterLine(lines[0], rest);
    }
  }

  lemma {:induction false} SplitCore(lines: seq<string>)
    requires GoodLines(lines)
    ensures SplitLines(Core(lines)) == lines
  {
    if |lines| > 1 {
      var rest := Core(lines[1..]);
      FindLineEnd(lines[0], rest);
      var s := lines[0] + CRLF + rest;
      assert s[..|lines[0]|] == lines[0] && s[|lines[0]| + 2..] == rest;
      assert GoodLines(lines[1..]);
      SplitCore(lines[1..]);
    }
  }

  lemma ReadStatusOf(m: Message)
    ensures ReadStatus(StatusLine(m)) == Some((m.code, m.text))
  {
    var code := Show(m.code);
    var rest := code + " " + m.text;
    assert StatusLine(m) == VERSION + rest;
    assert StatusLine(m)[|VERSION|..] == rest;
    assert OccursAt(rest, " ", |code|);
    forall i | 0 <= i < |code|
      ensures !OccursAt(rest, " ", i)
    {
      assert rest[i..i + 1][0] == code[i];
    }
    FindIs(rest, " ", |code|);
    assert rest[..|code|] == code && rest[|code| + 1..] == m.text;
    ShowReadsBack(m.code);
  }

  lemma ReadIntOfDigits(s: string, value: int)
    requires s != "" && '0' <= s[0] <= '9' && DecimalValue(s) == value >= 0
    ensures ReadInt(s) == Some(value) && ReadInt("-" + s) == Some(-value)
  {
    assert ("-" + s)[0] == '-' && ("-" + s)[1..] == s;
  }

  lemma ShowReadsBack(n: int)
    ensures ReadInt(Show(n)) == Some(n)
  {
    var size := if n < 0 then -n else n;
    DecimalReadsBack(size);
    ReadIntOfDigits(Decimal(size), size);
  }

  lemma FindSeparator(name: string, value: string)
    requires !Contains(name, SEPARATOR)
    ensures Find(HeaderLine(name, value), SEPARATOR) == |name|
  {
    var s := HeaderLine(name, value);
    assert OccursAt(s, SEPARATOR, |name|);
    forall i | 0 <= i < |name|
      ensures !OccursAt(s, SEPARATOR, i)
    {
      assert s == name + (SEPARATOR + value);
      if i + 2 <= |name| {
        OccursInFront(name, SEPARATOR + value, SEPARATOR, i);
        assert !OccursAt(name, SEPARATOR, i);
      } else if OccursAt(s, SEPARATOR, i) {
        OccursChar(s, SEPARATOR, i, 1);
      }
    }
    FindIs(s, SEPARATOR, |name|);
  }

  lemma {:induction false} ReadHeadersOf(m: Message, order: seq<string>)
    requires forall name :: name in order ==> name in m.headers && !Contains(name, SEPARATOR)
    ensures var r := ReadHeaders(Lines(m, order));
            r.Some? && (forall name :: name in r.value <==> name in order)
            && (forall name :: name in order ==> r.value[name] == m.headers[name])
  {
    if order != [] {
      var name, value := order[0], m.headers[order[0]];
      assert name in order;
      FindSeparator(name, value);
      assert HeaderLine(name, value)[..|name|] == name && HeaderLine(name, value)[|name| + 2..] == value;
      ReadHeadersOf(m, order[1..]);
      assert forall n :: n in order <==> n == name || n in order[1..];
    }
  }

  /** Text joined by something that neither ends nor starts a break holds none, if its parts hold none. */
  lemma OneLineJoin(s: string, t: string)
    requires OneLine(s) && OneLine(t)
    requires s == "" || s[|s| - 1] != '\r'
    ensures OneLine(s + t)
  {
    forall i | 0 <= i <= |s + t|
      ensures !OccursAt(s + t, CRLF, i)
    {
      if i >= |s| {
        OccursShift(s, t, CRLF, i - |s|);
        assert !OccursAt(t, CRLF, i - |s|);
      } else if i + 2 <= |s| {
        OccursInFront(s, t, CRLF, i);
        assert !OccursAt(s, CRLF, i);
      } else if OccursAt(s + t, CRLF, i) {
        OccursChar(s + t, CRLF, i, 0);
      }
    }
  }

  lemma NoReturnIsOneLine(s: string)
    requires '\r' !in s
    ensures OneLine(s)
  {
    forall i | 0 <= i <= |s|
      ensures !OccursAt(s, CRLF, i)
    {
      if OccursAt(s, CRLF, i) {
        OccursChar(s, CRLF, i, 0);
      }
    }
  }

  /** A header line is a good line if its name and value are. */
  lemma HeaderLineGood(name: string, value: string)
    requires OneLine(name) && OneLine(value)
    ensures OneLine(HeaderLine(name, value))
  {
    var s := name + SEPARATOR;
    forall i | 0 <= i <= |s|
      ensures !OccursAt(s, CRLF, i)
    {
      if i + 2 <= |name| {
        OccursInFront(name, SEPARATOR, CRLF, i);
        assert !OccursAt(name, CRLF, i);
      } else {
        assert i + 1 < |s| ==> s[i + 1] == SEPARATOR[i + 1 - |name|];
        if OccursAt(s, CRLF, i) {
          OccursChar(s, CRLF, i, 1);
        }
      }
    }
    OneLineJoin(s, value);
  }

  lemma StatusLineGood(m: Message)
    requires OneLine(m.text)
    ensures OneLine(StatusLine(m))
  {
    var front := VERSION + Show(m.code) + " ";
    NoReturnIsOneLine(front);
    OneLineJoin(front, m.text);
    assert front + m.text == StatusLine(m);
  }

  lemma {:induction false} LinesGood(m: Message, order: seq<string>)
    requires Clean(m) && forall name :: name in order ==> name in m.headers
    ensures forall i :: 0 <= i < |Lines(m, order)| ==> OneLine(Lines(m, order)[i]) && Lines(m, order)[i] != ""
  {
    if order != [] {
      assert order[0] in order;
      HeaderLineGood(order[0], m.headers[order[0]]);
      LinesGood(m, order[1..]);
    }
  }

  /** The head and the body of joined lines are told apart, and the lines are recovered. */
  lemma HeadRecovered(lines: seq<string>, body: string)
    requires GoodLines(lines)
    ensures var wire := Joined(lines) + CRLF + body; var end := Find(wire, HEAD_END);
            end >= 0 && SplitLines(wire[..end]) == lines && wire[end + 4..] == body
  {
    HeadEndOfLines(lines, body);
    JoinedCore(lines);
    SplitCore(lines);
    var wire, core := Joined(lines) + CRLF + body, Core(lines);
    assert wire == Joined(lines) + (CRLF + body);
    assert wire == core + (CRLF + CRLF) + body;
    assert wire[..|core|] == core && wire[|core| + 4..] == body;
  }

  /** What is sent is read back whole, in whatever order the headers are iterated. */
  lemma ReadsBack(m: Message, order: seq<string>)
    requires Clean(m) && IsOrder(order, m.headers)
    ensures ReadMessage(Wire(m, order)) == Some(m)
  {
    var lines := [StatusLine(m)] + Lines(m, order);
    StatusLineGood(m);
    LinesGood(m, order);
    HeadRecovered(lines, m.body);
    assert lines[1..] == Lines(m, order);
    ReadStatusOf(m);
    ReadHeadersOf(m, order);
    assert ReadHeaders(Lines(m, order)).value == m.headers;
  }

  // ------------------------------------------------------- And nothing else

  lemma {:induction false} SplitLinesOneLine(head: string)
    ensures forall i :: 0 <= i < |SplitLines(head)| ==> OneLine(SplitLines(head)[i])
    decreases |head|
  {
    var end := Find(head, CRLF);
    if end >= 0 {
      BeforeFirst(head, CRLF);
      SplitLinesOneLine(head[end + 2..]);
    }
  }

  predicate CleanHeader(name: string, value: string) {
    OneLine(name) && OneLine(value) && !Contains(name, SEPARATOR)
  }

  lemma {:induction false} ReadHeadersClean(lines: seq<string>)
    requires forall i :: 0 <= i < |lines| ==> OneLine(lines[i])
    requires ReadHeaders(lines).Some?
    ensures forall name :: name in ReadHeaders(lines).value ==> CleanHeader(name, ReadHeaders(lines).value[name])
  {
    if lines != [] {
      var line := lines[0];
      var colon := Find(line, SEPARATOR);
      BeforeFirst(line, SEPARATOR);
      PartWithout(line, 0, colon, CRLF);
      PartWithout(line, colon + 2, |line|, CRLF);
      assert line[0..colon] == line[..colon] && line[colon + 2..|line|] == line[colon + 2..];
      assert CleanHeader(line[..colon], line[colon + 2..]);
      assert forall i :: 0 <= i < |lines[1..]| ==> lines[1..][i] == lines[i + 1];
      ReadHeadersClean(lines[1..]);
    }
  }

  lemma ReadStatusClean(line: string)
    requires OneLine(line) && ReadStatus(line).Some?
    ensures OneLine(ReadStatus(line).value.1)
  {
    var rest := line[|VERSION|..];
    var blank := Find(rest, " ");
    var at := |VERSION| + blank + 1;
    PartWithout(line, at, |line|, CRLF);
    assert line[at..|line|] == rest[blank + 1..];
  }

  /** Whatever was sent, only a clean message can be read. */
  lemma ReadIsClean(wire: string)
    ensures ReadMessage(wire).Some? ==> Clean(ReadMessage(wire).value)
  {
    var r := ReadMessage(wire);
    if r.Some? {
      var lines := SplitLines(wire[..Find(wire, HEAD_END)]);
      SplitLinesOneLine(wire[..Find(wire, HEAD_END)]);
      ReadStatusClean(lines[0]);
      assert forall i :: 0 <= i < |lines[1..]| ==> lines[1..][i] == lines[i + 1];
      ReadHeadersClean(lines[1..]);
      assert forall name :: name in r.value.headers ==> CleanHeader(name, r.value.headers[name]);
    }
  }

  /** Response round trip: for every iteration order the reader gets back status, headers and body exactly
      if no part holds a line break and no name holds a colon followed by a blank. */
  lemma ReadsBackIff(m: Message, order: seq<string>)
    requires IsOrder(order, m.headers)
    ensures ReadMessage(Wire(m, order)) == Some(m) <==> Clean(m)
  {
    ReadIsClean(Wire(m, order));
    if Clean(m) {
      ReadsBack(m, order);
    }
  }

  // ------------------------------------------------------------- In the code

  class HTTPResponse {
    var statusCode: int
    var statusText: string
    var headers: map<string, string>
    var body: string

    function View(): Message
      reads this
    {
      Message(statusCode, statusText, headers, body)
    }

    constructor (code: int, text: string)
      ensures View() == Message(code, text, map[], "")
    {
      statusCode, statusText, headers, body := code, text, map[], "";
    }

    method SetStatus(code: int, text: string)
      modifies this
      ensures View() == old(View()).(code := code, text := text)
    {
      statusCode, statusText := code, text;
    }

    /** The body and its Content-Length change together, and nothing else does. */
    method SetBody(data: string)
      modifies this
      ensures body == data && statusCode == old(statusCode) && statusText == old(statusText)
      ensures headers.Keys == old(headers.Keys) + {"Content-Length"}
      ensures DecimalValue(headers["Content-Length"]) == |body|
      ensures forall name :: name in old(headers) && name != "Content-Length" ==> headers[name] == old(headers)[name]
      ensures headers == old(headers)["Content-Length" := Decimal(|data|)]
    {
      body := data;
      headers := headers["Content-Length" := Decimal(|data|)];
      DecimalReadsBack(|data|);
    }

    method AddHeader(name: string, value: string)
      modifies this
      ensures View() == old(View()).(headers := old(headers)[name := value])
    {
      headers := headers[name := value];
    }

    /** `toString`, the headers iterated in `order`. */
    method ToString(order: seq<string>) returns (out: string)
      requires IsOrder(order, headers)
      ensures out == Wire(View(), order)
      ensures ReadMessage(out) == Some(View()) <==> Clean(View())
    {
      out := VERSION + Show(statusCode) + " " + statusText + CRLF;
      var i := 0;
      assert order[..0] == [];
      assert Joined([StatusLine(View())]) == StatusLine(View()) + CRLF + "";
      while i < |order|
        invariant 0 <= i <= |order|
        invariant out == Joined([StatusLine(View())] + Lines(View(), order[..i]))
      {
        assert order[..i + 1] == order[..i] + [order[i]];
        LinesAppend(View(), order[..i], order[i]);
        assert [StatusLine(View())] + (Lines(View(), order[..i]) + [HeaderLine(order[i], headers[order[i]])])
            == ([StatusLine(View())] + Lines(View(), order[..i])) + [HeaderLine(order[i], headers[order[i]])];
        JoinedAppend([StatusLine(View())] + Lines(View(), order[..i]), HeaderLine(order[i], headers[order[i]]));
        out := out + order[i] + SEPARATOR + headers[order[i]] + CRLF;
        i := i + 1;
      }
      assert order[..i] == order;
      out := out + CRLF + body;
      ReadsBackIff(View(), order);
    }
  }

  lemma {:induction false} LinesAppend(m: Message, order: seq<string>, name: string)
    requires forall n :: n in order + [name] ==> n in m.headers
    ensures name in m.headers && forall n :: n in order ==> n in m.headers
    ensures Lines(m, order + [name]) == Lines(m, order) + [HeaderLine(name, m.headers[name])]
  {
    assert (order + [name])[|order|] == name;
    assert forall n :: n in order ==> n in order + [name];
    if order == [] {
      assert Lines(m, [name][1..]) == [];
    } else {
      assert (order + [name])[1..] == order[1..] + [name];
      LinesAppend(m, order[1..], name);
    }
  }

  lemma {:induction false} JoinedAppend(lines: seq<string>, line: string)
    ensures Joined(lines + [line]) == Joined(lines) + line + CRLF
  {
    if lines == [] {
      assert Joined([line]) == line + CRLF + "";
    } else {
      assert (lines + [line])[1..] == lines[1..] + [line];
      JoinedAppend(lines[1..], line);
    }
  }

  /** The end of `handleRequest` and `sendError` (http-server/src/HTTPServer.cpp:238-249): every response
      the server builds is read back whole, with a Content-Length that is the length of its body. */
  method Build(status: int, reason: string, contentType: string, data: string, order: seq<string>)
    returns (out: string)
    requires OneLine(reason) && OneLine(contentType)
    requires IsOrder(order, map["Content-Type" := "", "Content-Length" := ""])
    ensures var r := ReadMessage(out);
            && r.Some? && r.value.code == status && r.value.text == reason && r.value.body == data
            && r.value.headers.Keys == {"Content-Type", "Content-Length"}
            && r.value.headers["Content-Type"] == contentType
            && DecimalValue(r.value.headers["Content-Length"]) == |r.value.body|
  {
    var resp := new HTTPResponse(status, reason);
    resp.AddHeader("Content-Type", contentType);
    resp.SetBody(data);
    ServerHeadersClean(resp.View(), contentType);
    out := resp.ToString(order);
  }

  /** Whatever the headers, there is an order to iterate them in. */
  lemma {:induction false} OrderExists(headers: map<string, string>) returns (order: seq<string>)
    ensures IsOrder(order, headers)
    decreases |headers|
  {
    if headers == map[] {
      order := [];
    } else {
      var name :| name in headers;
      var rest := OrderExists(headers - {name});
      order := [name] + rest;
      assert forall n :: n in headers ==> n == name || n in headers - {name};
      assert name !in rest;
    }
  }

  /** The bytes themselves: version, code and text on the first line, each header on a line of its own, an
      empty line, the body. */
  lemma WireByLines(m: Message, order: seq<string>)
    requires forall name :: name in order ==> name in m.headers
    ensures order == [] ==> Wire(m, order) == "HTTP/1.1 " + Show(m.code) + " " + m.text + "\r\n" + "\r\n" + m.body
    ensures order != [] ==>
      var last := order[|order| - 1];
      var front := Wire(m.(body := ""), order[..|order| - 1]);
      && |front| >= 2
      && Wire(m, order) == front[..|front| - 2] + last + ": " + m.headers[last] + "\r\n" + "\r\n" + m.body
  {
    if order == [] {
      assert Joined([StatusLine(m)] + []) == StatusLine(m) + CRLF + "";
    } else {
      var init, last := order[..|order| - 1], order[|order| - 1];
      assert order == init + [last];
      LinesAppend(m, init, last);
      SameLines(m, m.(body := ""), init);
      var before := [StatusLine(m)] + Lines(m, init);
      JoinedAppend(before, HeaderLine(last, m.headers[last]));
      assert [StatusLine(m)] + (Lines(m, init) + [HeaderLine(last, m.headers[last])])
          == before + [HeaderLine(last, m.headers[last])];
      var front := Wire(m.(body := ""), init);
      assert front == Joined(before) + CRLF + "";
      assert front[..|front| - 2] == Joined(before);
      var h := HeaderLine(last, m.headers[last]);
      assert Joined(before) + h + CRLF + CRLF + m.body
          == Joined(before) + last + ": " + m.headers[last] + "\r\n" + "\r\n" + m.body;
    }
  }

  lemma {:induction false} SameLines(m: Message, n: Message, order: seq<string>)
    requires forall name :: name in order ==> name in m.headers
    requires m.headers == n.headers
    ensures Lines(m, order) == Lines(n, order)
  {
    if order != [] {
      SameLines(m, n, order[1..]);
    }
  }

  /** Codes are printed in decimal. */
  lemma ShowByDigits(n: int)
    requires n >= 0
    ensures n < 10 ==> |Show(n)| == 1 && Show(n)[0] as int == '0' as int + n
    ensures n >= 10 ==> Show(n) == Show(n / 10) + Show(n % 10)
    ensures n > 0 ==> Show(-n) == "-" + Show(n)
  {
  }

  /** The texts that the server sends hold no line break. */
  lemma ServerTextsOneLine()
    ensures forall status :: status in REASONS ==> OneLine(REASONS[status])
    ensures forall t :: t in CONTENT_TYPES ==> OneLine(t)
    ensures REASONS.Keys == {200, 400, 403, 404, 500}
    ensures REASONS[200] == "OK" && REASONS[400] == "Bad Request" && REASONS[403] == "Forbidden"
    ensures REASONS[404] == "Not Found" && REASONS[500] == "Internal Server Error"
    ensures forall t :: t in CONTENT_TYPES <==> t == "text/html" || t == "application/octet-stream" || t == "text/plain"
  {
    forall status | status in REASONS
      ensures OneLine(REASONS[status])
    {
      NoReturnIsOneLine(REASONS[status]);
    }
    forall t | t in CONTENT_TYPES
      ensures OneLine(t)
    {
      NoReturnIsOneLine(t);
    }
  }

  /** So every response it sends, page or error, is read back whole. */
  method Respond(status: int, contentType: string, data: string, order: seq<string>) returns (out: string)
    requires status in REASONS && contentType in CONTENT_TYPES
    requires IsOrder(order, map["Content-Type" := "", "Content-Length" := ""])
    ensures var r := ReadMessage(out);
            && r.Some? && r.value.code == status && r.value.text == REASONS[status] && r.value.body == data
            && r.value.headers.Keys == {"Content-Type", "Content-Length"}
            && r.value.headers["Content-Type"] == contentType
            && DecimalValue(r.value.headers["Content-Length"]) == |data|
  {
    ServerTextsOneLine();
    out := Build(status, REASONS[status], contentType, data, order);
  }

  lemma ServerHeadersClean(m: Message, contentType: string)
    requires OneLine(m.text) && OneLine(contentType)
    requires m.headers == map["Content-Type" := contentType, "Content-Length" := Decimal(|m.body|)]
    ensures Clean(m)
  {
    NoReturnIsOneLine("Content-Type");
    NoReturnIsOneLine("Content-Length");
    NoReturnIsOneLine(Decimal(|m.body|));
    NoColonNoSeparator("Content-Type");
    NoColonNoSeparator("Content-Length");
  }

  lemma NoColonNoSeparator(s: string)
    requires ':' !in s
    ensures !Contains(s, SEPARATOR)
  {
    forall i | 0 <= i <= |s|
      ensures !OccursAt(s, SEPARATOR, i)
    {
      if OccursAt(s, SEPARATOR, i) {
        OccursChar(s, SEPARATOR, i, 0);
      }
    }
  }
}
