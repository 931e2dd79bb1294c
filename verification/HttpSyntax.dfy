/** What the two directions of a connection share: separators of the message format (sections 2.1 to 5 of
    RFC 9112) and the texts that the server sends (http-server/src/HTTPServer.cpp). */
module HttpSyntax {

  const CRLF: string := "\r\n"
  const HEAD_END: string := "\r\n\r\n"
  const SEPARATOR: string := ": "
  const VERSION: string := "HTTP/1.1 "

  /** Every status the server answers with, and its text. */
  const REASONS: map<int, string> := map[
    200 := "OK", 400 := "Bad Request", 403 := "Forbidden", 404 := "Not Found", 500 := "Internal Server Error"]

  const CONTENT_TYPES: seq<string> := ["text/html", "application/octet-stream", "text/plain"]
}
