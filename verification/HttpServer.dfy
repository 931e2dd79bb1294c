/** A connection from the first read to the answer (http-server/src/HTTPServer.cpp:157-249).  What looking up a
    file gives is input. */
module HttpServer {
  import opened Options
  import opened Tokens
  import opened HttpSyntax
  import HttpRequest
  import HttpResponse
  import Search

  /** What `handleRequest` gives: a page, or the status of the exception it throws. */
  datatype Answer = Page(contentType: string, data: string) | Refused(status: int)

  /** The reader of `out` gets the message that `outcome` calls for, with two headers and no more: a page that
      is found under status 200 with its own type, a failure under its own status as plain text without a
      body; the length is that of the body. */
  ghost predicate Delivers(out: string, outcome: HttpRequest.Outcome, lookUp: HttpRequest.Request -> Answer) {
    var r := HttpResponse.ReadMessage(out);
    && r.Some? && r.value.headers.Keys == {"Content-Type", "Content-Length"}
    && Search.DecimalValue(r.value.headers["Content-Length"]) == |r.value.body|
    && (outcome.Failed? ==>
          && r.value.code == outcome.status && r.value.text == outcome.reason && r.value.body == ""
          && r.value.headers["Content-Type"] == "text/plain")
    && (outcome.Parsed? && lookUp(outcome.request).Page? ==>
          && r.value.code == 200 && r.value.text == "OK" && r.value.body == lookUp(outcome.request).data
          && r.value.headers["Content-Type"] == lookUp(outcome.request).contentType)
    && (outcome.Parsed? && lookUp(outcome.request).Refused? ==>
          && r.value.code == lookUp(outcome.request).status && r.value.body == ""
          && r.value.code in REASONS && r.value.text == REASONS[r.value.code]
          && r.value.headers["Content-Type"] == "text/plain")
  }

  /** `handleConnection`: what is sent delivers the outcome of the reads; without a read error that is the
      outcome of the whole stream, however it was cut. */
  method HandleConnection(input: seq<HttpRequest.Read>, lookUp: HttpRequest.Request -> Answer, order: seq<string>)
    returns (out: string)
    requires forall request :: lookUp(request).Page? ==>
               lookUp(request).contentType == "text/html" || lookUp(request).contentType == "application/octet-stream"
    requires forall request :: lookUp(request).Refused? ==> lookUp(request).status in {400, 403, 404, 500}
    requires HttpResponse.IsOrder(order, map["Content-Type" := "", "Content-Length" := ""])
    ensures Delivers(out, HttpRequest.Handle(input), lookUp)
    ensures HttpRequest.AllChunks(input) ==> Delivers(out, HttpRequest.Parse(HttpRequest.Stream(input)), lookUp)
  {
    var outcome := HttpRequest.HandleConnection(input);
    HttpRequest.FailuresHaveReasons(input);
    match outcome
    case Failed(status, _) => out := HttpResponse.Respond(status, "text/plain", "", order);
    case Parsed(request) =>
      match lookUp(request)
      case Page(contentType, data) => out := HttpResponse.Respond(200, contentType, data, order);
      case Refused(status) => out := HttpResponse.Respond(status, "text/plain", "", order);
  }

  /** A page that is found, in full: the request in any reads, the answer as its bytes are read back. */
  lemma FoundPage(out: string, verb: string, endpoint: string, version: string, more: string,
                  lookUp: HttpRequest.Request -> Answer)
    requires Solid(verb) && Solid(endpoint) && Solid(version)
    requires !("//" <= endpoint || "http://" <= endpoint || "https://" <= endpoint)
    requires forall i :: 0 <= i < |endpoint| - 1 ==> !(endpoint[i] == endpoint[i + 1] == '.')
    requires lookUp(HttpRequest.Request(verb, endpoint, version)).Page?
    requires Delivers(out, HttpRequest.Parse(verb + " " + endpoint + " " + version + "\r\n" + more), lookUp)
    ensures var page := lookUp(HttpRequest.Request(verb, endpoint, version));
            HttpResponse.ReadMessage(out) == Some(HttpResponse.Message(200, "OK",
              map["Content-Type" := page.contentType,
                  "Content-Length" := HttpResponse.ReadMessage(out).value.headers["Content-Length"]], page.data))
  {
    HttpRequest.RequestLineByWords(verb, endpoint, version, more);
    var r := HttpResponse.ReadMessage(out).value;
    assert r.headers == map["Content-Type" := r.headers["Content-Type"],
                            "Content-Length" := r.headers["Content-Length"]];
  }
}
