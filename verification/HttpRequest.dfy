/** Reading a request from a connection (http-server/src/HTTPServer.cpp) and parsing its first line
    (http-server/src/HTTPRequest.cpp). */
module HttpRequest {
  import opened Search
  import opened Tokens
  import opened HttpSyntax

  datatype Request = Request(verb: string, endpoint: string, version: string)

  datatype Outcome = Parsed(request: Request) | Failed(status: int, reason: string)

  /** One `read`: a chunk, or an error.  An empty chunk is end of file. */
  datatype Read = Chunk(bytes: string) | ReadError

  // -------------------------------------------------------- Specification

  /** Up to the first line feed, as `std::getline` reads it. */
  function FirstLine(s: string): string {
    if s == "" || s[0] == '\n' then "" else [s[0]] + FirstLine(s[1..])
  }

  function Head(raw: string): string {
    var pos := Find(raw, HEAD_END);
    if pos < 0 then raw else raw[..pos + 2]
  }

  /** An optional scheme, then two slashes. */
  predicate IsAbsolute(endpoint: string) {
    "//" <= endpoint || "http://" <= endpoint || "https://" <= endpoint
  }

  function ParseLine(line: string): Outcome {
    var words := Tokenized(line);
    if |words| < 3 then Failed(400, "Bad Request")
    else if IsAbsolute(words[1]) then Failed(400, "Bad Request")
    else if Contains(words[1], "..") then Failed(403, "Forbidden")
    else Parsed(Request(words[0], words[1], words[2]))
  }

  /** HTTPRequest::parse. */
  function Parse(raw: string): Outcome {
    var line := FirstLine(Head(raw));
    if line == "" then Failed(400, "Bad Request") else ParseLine(line)
  }

  /** The payload `handleConnection` collects: reads until the end of the head or the end of the stream;
      `None` on a read error. */
  datatype Payload = Payload(text: string) | Broken

  function Collect(sofar: string, input: seq<Read>): Payload
    decreases |input|
  {
    if input == [] || input[0] == Chunk("") then Payload(sofar)
    else if input[0].ReadError? then Broken
    else
      var payload := sofar + input[0].bytes;
      if Find(payload, HEAD_END) >= 0 then Payload(payload) else Collect(payload, input[1..])
  }

  function Handle(input: seq<Read>): Outcome {
    match Collect("", input)
    case Payload(text) => Parse(text)
    case Broken => Failed(500, "Internal Server Error")
  }

  /** The stream the chunks were cut from. */
  function Stream(input: seq<Read>): string {
    if input == [] || input[0].ReadError? then "" else input[0].bytes + Stream(input[1..])
  }

  predicate AllChunks(input: seq<Read>) {
    forall i :: 0 <= i < |input| ==> input[i].Chunk? && input[i].bytes != ""
  }

  // ------------------------------------------------------------ Main results

  lemma {:induction false} FirstLineOfPrefix(s: string, more: string)
    requires '\n' in s
    ensures FirstLine(s + more) == FirstLine(s)
  {
    assert (s + more)[0] == s[0] && (s + more)[1..] == s[1..] + more;
    if s[0] != '\n' {
      assert s == [s[0]] + s[1..];
      FirstLineOfPrefix(s[1..], more);
    }
  }

  lemma HeadEndHasLineFeed(s: string)
    requires Find(s, HEAD_END) >= 0
    ensures '\n' in s[..Find(s, HEAD_END) + 2]
  {
    var p := Find(s, HEAD_END);
    assert s[p..p + 4][1] == s[p + 1] == s[..p + 2][p + 1];
  }

  lemma FirstLineOfHead(raw: string)
    ensures FirstLine(Head(raw)) == FirstLine(raw)
  {
    var pos := Find(raw, HEAD_END);
    if pos >= 0 {
      HeadEndHasLineFeed(raw);
      FirstLineOfPrefix(raw[..pos + 2], raw[pos + 2..]);
      assert raw == raw[..pos + 2] + raw[pos + 2..];
    }
  }

  /** The result depends only on the bytes before the first line feed. */
  lemma ParseByFirstLine(raw: string)
    ensures Parse(raw) == if FirstLine(raw) == "" then Failed(400, "Bad Request") else ParseLine(FirstLine(raw))
  {
    FirstLineOfHead(raw);
  }

  /** What is collected is the stream, or an initial part of it that holds the end of the head. */
  lemma {:induction false} CollectedPart(sofar: string, input: seq<Read>) returns (rest: string)
    requires AllChunks(input)
    ensures Collect(sofar, input).Payload?
    ensures sofar + Stream(input) == Collect(sofar, input).text + rest
    ensures rest == "" || Find(Collect(sofar, input).text, HEAD_END) >= 0
    decreases |input|
  {
    if input == [] {
      rest := "";
    } else {
      var payload := sofar + input[0].bytes;
      assert sofar + Stream(input) == payload + Stream(input[1..]);
      if Find(payload, HEAD_END) >= 0 {
        rest := Stream(input[1..]);
      } else {
        rest := CollectedPart(payload, input[1..]);
      }
    }
  }

  /** Chunking does not matter: however the stream is cut into reads, the request or the error is that of
      the whole stream. */
  lemma ChunkingDoesNotMatter(input: seq<Read>)
    requires AllChunks(input)
    ensures Handle(input) == Parse(Stream(input))
  {
    var rest := CollectedPart("", input);
    var text := Collect("", input).text;
    assert "" + Stream(input) == Stream(input);
    ParseByFirstLine(text);
    ParseByFirstLine(text + rest);
    if rest != "" {
      HeadEndHasLineFeed(text);
      assert '\n' in text;
      FirstLineOfPrefix(text, rest);
    } else {
      assert text + rest == text;
    }
  }

  /** A stream cut into reads in any way. */
  function Reads(parts: seq<string>): seq<Read> {
    seq(|parts|, i requires 0 <= i < |parts| => Chunk(parts[i]))
  }

  /** Every way of cutting a stream into non-empty parts is such a sequence of reads. */
  lemma {:induction false} EveryCut(parts: seq<string>)
    requires forall i :: 0 <= i < |parts| ==> parts[i] != ""
    ensures AllChunks(Reads(parts)) && Stream(Reads(parts)) == Concat(parts)
  {
    if parts != [] {
      assert Reads(parts)[1..] == Reads(parts[1..]);
      EveryCut(parts[1..]);
    }
  }

  /** The bytes read before the first error or the end, in order: so is the outcome, however they are cut. */
  lemma CutsAgree(parts: seq<string>, others: seq<string>)
    requires forall i :: 0 <= i < |parts| ==> parts[i] != ""
    requires forall i :: 0 <= i < |others| ==> others[i] != ""
    requires Concat(parts) == Concat(others)
    ensures Handle(Reads(parts)) == Handle(Reads(others)) == Parse(Concat(parts))
  {
    EveryCut(parts);
    EveryCut(others);
    ChunkingDoesNotMatter(Reads(parts));
    ChunkingDoesNotMatter(Reads(others));
  }

  /** The request line word by word: method, endpoint and version, in that order; 400 for an endpoint in
      absolute form, 403 for one that goes up. */
  lemma RequestLineByWords(verb: string, endpoint: string, version: string, more: string)
    requires Solid(verb) && Solid(endpoint) && Solid(version)
    ensures Parse(verb + " " + endpoint + " " + version + "\r\n" + more) ==
              if "//" <= endpoint || "http://" <= endpoint || "https://" <= endpoint then Failed(400, "Bad Request")
              else if exists i :: 0 <= i < |endpoint| - 1 && endpoint[i] == endpoint[i + 1] == '.'
                then Failed(403, "Forbidden")
              else Parsed(Request(verb, endpoint, version))
  {
    var line := verb + (" " + (endpoint + (" " + (version + "\r"))));
    var raw := verb + " " + endpoint + " " + version + "\r\n" + more;
    assert raw == line + ("\n" + more);
    LineOfWords(verb, endpoint, version);
    NoLineFeed(verb, endpoint, version);
    FirstLineEnds(line, more);
    ParseByFirstLine(raw);
    TwoDots(endpoint);
  }

  lemma LineOfWords(verb: string, endpoint: string, version: string)
    requires Solid(verb) && Solid(endpoint) && Solid(version)
    ensures Tokenized(verb + (" " + (endpoint + (" " + (version + "\r"))))) == [verb, endpoint, version]
  {
    SkipBlank("\r", "");
    assert "\r" + "" == "\r";
    TakeToken(version, "\r");
    NextWord(endpoint, version + "\r");
    NextWord(verb, endpoint + (" " + (version + "\r")));
  }

  lemma NoLineFeed(verb: string, endpoint: string, version: string)
    requires Solid(verb) && Solid(endpoint) && Solid(version)
    ensures '\n' !in verb + (" " + (endpoint + (" " + (version + "\r"))))
  {
    assert IsSpace('\n');
    assert '\n' !in verb && '\n' !in endpoint && '\n' !in version;
  }

  /** A word and a blank in front of a line. */
  lemma NextWord(word: string, rest: string)
    requires Solid(word)
    ensures Tokenized(word + (" " + rest)) == [word] + Tokenized(rest)
  {
    TakeToken(word, " " + rest);
    SkipBlank(" ", rest);
  }

  lemma {:induction false} FirstLineEnds(line: string, more: string)
    requires '\n' !in line
    ensures FirstLine(line + ("\n" + more)) == line
  {
    if line != "" {
      assert (line + ("\n" + more))[1..] == line[1..] + ("\n" + more);
      FirstLineEnds(line[1..], more);
    }
  }

  lemma TwoDots(s: string)
    ensures Contains(s, "..") <==> exists i :: 0 <= i < |s| - 1 && s[i] == s[i + 1] == '.'
  {
    if i :| 0 <= i <= |s| && OccursAt(s, "..", i) {
      OccursChar(s, "..", i, 0);
      OccursChar(s, "..", i, 1);
      assert s[i] == s[i + 1] == '.';
    }
    if i :| 0 <= i < |s| - 1 && s[i] == s[i + 1] == '.' {
      assert s[i..i + 2] == "..";
      assert OccursAt(s, "..", i);
    }
  }

  /** Fewer than three words are a bad request. */
  lemma TooFewWords(raw: string)
    requires |Tokenized(FirstLine(raw))| < 3
    ensures Parse(raw) == Failed(400, "Bad Request")
  {
    ParseByFirstLine(raw);
  }

  /** A read error is answered with status 500 exactly if it comes before the end of the head. */
  lemma {:induction false} ReadErrorOnlyBeforeHeadEnd(input: seq<Read>, after: seq<Read>)
    requires AllChunks(input)
    ensures Handle(input + [ReadError] + after)
         == if Find(Stream(input), HEAD_END) >= 0 then Parse(Stream(input)) else Failed(500, "Internal Server Error")
  {
    CollectWithError("", input, after);
    assert "" + Stream(input) == Stream(input);
    ChunkingDoesNotMatter(input);
  }

  /** Every failure is one of the statuses that the server answers with, under its text. */
  lemma FailuresHaveReasons(input: seq<Read>)
    ensures var outcome := Handle(input);
            outcome.Failed? ==> outcome.status in REASONS && outcome.reason == REASONS[outcome.status]
  {
  }

  lemma {:induction false} CollectWithError(sofar: string, input: seq<Read>, after: seq<Read>)
    requires AllChunks(input)
    requires Find(sofar, HEAD_END) < 0
    ensures Collect(sofar, input + [ReadError] + after)
         == if Find(sofar + Stream(input), HEAD_END) >= 0 then Collect(sofar, input) else Broken
    decreases |input|
  {
    var all := input + [ReadError] + after;
    if input == [] {
      assert all[0] == ReadError;
      assert sofar + "" == sofar;
    } else {
      var payload := sofar + input[0].bytes;
      assert all[0] == input[0] && all[1..] == input[1..] + [ReadError] + after;
      assert sofar + Stream(input) == payload + Stream(input[1..]);
      if Find(payload, HEAD_END) >= 0 {
        FindInPrefix(payload, Stream(input[1..]), HEAD_END);
      } else {
        CollectWithError(payload, input[1..], after);
      }
    }
  }

  // ------------------------------------------------------------- In the code

  /** The read loop of `handleConnection`: lines 163-174. */
  method ReadPayload(input: seq<Read>) returns (payload: Payload)
    ensures payload == Collect("", input)
  {
    var requestPayload := "";
    var i := 0;
    while i < |input| && input[i] != Chunk("")
      invariant 0 <= i <= |input|
      invariant Collect(requestPayload, input[i..]) == Collect("", input)
      decreases |input| - i
    {
      assert input[i..][0] == input[i] && input[i..][1..] == input[i + 1..];
      if input[i].ReadError? {
        return Broken;
      }
      requestPayload := requestPayload + input[i].bytes;
      if Find(requestPayload, HEAD_END) >= 0 {
        break;
      }
      i := i + 1;
    }
    payload := Payload(requestPayload);
  }

  /** `std::getline` on the head. */
  method GetLine(head: string) returns (line: string)
    ensures line == FirstLine(head)
  {
    var i := 0;
    while i < |head| && head[i] != '\n'
      invariant 0 <= i <= |head|
      invariant FirstLine(head) == head[..i] + FirstLine(head[i..])
    {
      assert head[i..][0] == head[i] && head[i..][1..] == head[i + 1..];
      assert head[..i + 1] == head[..i] + [head[i]];
      i := i + 1;
    }
    line := head[..i];
  }

  method SkipSpace(line: string, pos: nat) returns (i: nat)
    requires pos <= |line|
    ensures pos <= i <= |line| && (i < |line| ==> !IsSpace(line[i]))
    ensures Tokenized(line[pos..]) == Tokenized(line[i..])
  {
    i := pos;
    while i < |line| && IsSpace(line[i])
      invariant pos <= i <= |line|
      invariant Tokenized(line[pos..]) == Tokenized(line[i..])
    {
      assert line[i..][1..] == line[i + 1..];
      i := i + 1;
    }
  }

  method WordEnd(line: string, i: nat) returns (j: nat)
    requires i <= |line|
    ensures i <= j <= |line| && (j < |line| ==> IsSpace(line[j]))
    ensures forall k :: i <= k < j ==> !IsSpace(line[k])
  {
    j := i;
    while j < |line| && !IsSpace(line[j])
      invariant i <= j <= |line|
      invariant forall k :: i <= k < j ==> !IsSpace(line[k])
    {
      j := j + 1;
    }
  }

  /** `rl >> word`: skips whitespace, then takes characters up to the next whitespace. */
  method Extract(line: string, pos: nat) returns (word: string, next: nat)
    requires pos <= |line|
    ensures pos <= next <= |line|
    ensures Tokenized(line[pos..]) == if word == "" then [] else [word] + Tokenized(line[next..])
    ensures word == "" ==> Tokenized(line[next..]) == []
  {
    var i := SkipSpace(line, pos);
    next := WordEnd(line, i);
    word := line[i..next];
    if word == "" {
      assert i == next == |line| && line[i..] == "";
    } else {
      assert line[i..] == word + line[next..];
      TakeToken(word, line[next..]);
    }
  }

  class HTTPRequest {
    var verb: string  // `method` in the source
    var endpoint: string
    var version: string

    constructor ()
      ensures verb == endpoint == version == ""
    {
      verb, endpoint, version := "", "", "";
    }

    /** parseRequestLine: fills the fields, or says which error is thrown. */
    method ParseRequestLine(line: string) returns (outcome: Outcome)
      modifies this
      ensures outcome == ParseLine(line)
      ensures outcome.Parsed? ==> outcome.request == Request(verb, endpoint, version)
    {
      var pos := 0;
      assert line[0..] == line;
      verb, pos := Extract(line, pos);
      endpoint, pos := Extract(line, pos);
      version, pos := Extract(line, pos);
      if verb == "" || endpoint == "" || version == "" {
        return Failed(400, "Bad Request");
      }
      if IsAbsolute(endpoint) {
        return Failed(400, "Bad Request");
      }
      if Find(endpoint, "..") >= 0 {
        assert Contains(endpoint, "..");
        return Failed(403, "Forbidden");
      }
      outcome := Parsed(Request(verb, endpoint, version));
    }
  }

  /** HTTPRequest::parse, on a fresh request. */
  method ParseRaw(raw: string) returns (outcome: Outcome)
    ensures outcome == Parse(raw)
  {
    var req := new HTTPRequest();
    var line := GetLine(Head(raw));
    if line == "" {
      return Failed(400, "Bad Request");
    }
    outcome := req.ParseRequestLine(line);
  }

  /** handleConnection up to the request or the error that is answered. */
  method HandleConnection(input: seq<Read>) returns (outcome: Outcome)
    ensures outcome == Handle(input)
    ensures AllChunks(input) ==> outcome == Parse(Stream(input))
  {
    var payload := ReadPayload(input);
    if payload.Broken? {
      outcome := Failed(500, "Internal Server Error");
    } else {
      outcome := ParseRaw(payload.text);
    }
    if AllChunks(input) {
      ChunkingDoesNotMatter(input);
    }
  }
}
