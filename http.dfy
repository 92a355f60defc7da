/**
  The HTTP transport the controller drives, replaced by an oracle. Each
  request the controller performs is appended to a log, and its reply is the
  next one of a scripted queue; when the queue is empty the request fails at
  the transport level, which the controller sees as status 0 (the value its
  status variable keeps when the ESP HTTP client reports an error).
*/
module Http {
  import opened Wrappers
  import opened Json

  /** One finished exchange: the status (0 = transport failure), the response
      buffer read as a C string, and the parsed body (None when it does not parse). */
  datatype HttpReply = HttpReply(status: int, text: string, body: Option<JsonObject>)

  const TransportFailure := HttpReply(0, "", None)

  datatype Verb = Get | Post

  /** What the controller sends: the verb, the full URL, and the `X-API-Key`
      header when one is set. Request payloads are not modelled. */
  datatype Request = Request(verb: Verb, url: string, apiKeyHeader: Option<string>)

  /** The reply the next request will receive. */
  function Next(replies: seq<HttpReply>): HttpReply {
    if replies == [] then TransportFailure else replies[0]
  }

  /** The queue of replies left after `n` requests. */
  function Drop(replies: seq<HttpReply>, n: nat): (rest: seq<HttpReply>)
    ensures |rest| == if n <= |replies| then |replies| - n else 0
  {
    if n <= |replies| then replies[n..] else []
  }

  class Transport {
    var replies: seq<HttpReply>
    var sent: seq<Request>

    constructor (script: seq<HttpReply>)
      ensures replies == script && sent == []
    {
      replies := script;
      sent := [];
    }

    /** Performs one request: logs it and consumes one scripted reply. */
    method Perform(req: Request) returns (reply: HttpReply)
      modifies this
      ensures sent == old(sent) + [req]
      ensures reply == Next(old(replies)) && replies == Drop(old(replies), 1)
    {
      sent := sent + [req];
      if replies == [] {
        reply := TransportFailure;
      } else {
        reply := replies[0];
        replies := replies[1..];
      }
    }
  }
}
