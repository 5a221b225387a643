/** What a page's `fetch` call can come back with, as the generation pages
    branch on it. Bodies arrive already decoded into text chunks. */
module Fetch {
  import opened Js
  import opened Wrappers

  /** A streaming request: `fetch` rejects with a message, the status is not
      ok, the response has no body reader, or the body is read to its end
      chunk by chunk. */
  datatype StreamReply =
    | StreamRejected(message: string)
    | StreamNotOk
    | NoReader
    | Chunks(chunks: seq<string>)

  /** A plain request: `fetch` rejects with a message, or a response with its
      `ok` flag and what `response.json()` gives (`Err` carries the message
      of the SyntaxError a body that is not JSON raises). */
  datatype JsonReply =
    | Rejected(message: string)
    | Reply(ok: bool, body: Result<JsValue, string>)
}
