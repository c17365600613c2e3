/** What a route handler does, as data: the waits and fetches it performs,
    in order, and the response it returns. */
module Http {
  import opened Js

  type Headers = seq<(string, string)>

  datatype Body = Text(text: string) | Bytes(data: seq<bv8>)

  datatype Response = Response(status: int, body: Body, headers: Headers)

  /** A suspension for `ms` milliseconds, or an outbound GET. */
  datatype Step = Sleep(ms: int) | Fetch(url: string, headers: Headers)

  datatype Run = Run(steps: seq<Step>, response: Response)

  /** `if (delay > 0) await new Promise(r => setTimeout(r, delay * scale))`. */
  function SleepFor(delay: Num, scale: int): seq<Step> {
    if Positive(delay) then [Sleep(delay.i * scale)] else []
  }

  /** The headers both image routes send with an image: its content type,
      then directives that defeat caching and an open cross-origin policy. */
  function ImageHeaders(contentType: string): Headers {
    [ ("Content-Type", contentType),
      ("Cache-Control", "no-cache, no-store, must-revalidate"),
      ("Pragma", "no-cache"),
      ("Expires", "0"),
      ("Access-Control-Allow-Origin", "*") ]
  }

  /** A plain-text response with no headers of its own. */
  function Plain(status: int, text: string): Response {
    Response(status, Text(text), [])
  }
}
