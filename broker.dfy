/** The broker's side of the exchanges the client performs, as values: the reply to a
    control-plane request and a message envelope. */
module Broker {
  import opened Errors

  /** The reply to a request/reply call: the reply payload decoded as text, or the
      exception the request raised (timeout, no responders, closed connection). */
  datatype Reply = Reply(data: string) | RequestFailed(error: MemphisError)

  /** A broker message envelope (Msg): subject, payload and headers in insertion order. */
  datatype Msg = Msg(subject: string, data: seq<bv8>, headers: seq<(string, string)>)
}
