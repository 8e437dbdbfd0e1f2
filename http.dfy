/**
 * The collaborators the facade drives, kept abstract: the HTTP client
 * (`Bigcommerce\Api\Connection`) and the static legacy resource client
 * (`Bigcommerce\Api\Client`). Neither is reimplemented; each records what the
 * facade asks of it, and the server's replies are a script given in advance.
 */
module Http {
  import opened Wrappers

  /** The four HTTP verbs the client offers. */
  datatype Verb = Get | Post | Put | Delete

  /** A scalar value in a query string or form body. */
  datatype Param = Text(s: string) | Number(n: int)

  /** A PHP value handed to the facade as a route or as filters. */
  datatype Arg = Null | Str(s: string) | Query(fields: map<string, Param>)

  /** One response record: opaque key-value pairs. */
  type Record = map<string, string>

  /** A decoded response body; only its `data` list is looked at. */
  datatype Payload = Payload(data: seq<Record>)

  /** What an exception carries: its message and its code. */
  datatype ApiError = ApiError(message: string, code: int)

  datatype Request = Request(verb: Verb, uri: string, body: Arg)

  /**
   * The server's answer to one request: a body with the value of the
   * `X-Retry-After` header (None when the header is absent), or an exception
   * raised by the client.
   */
  datatype Reply = Response(payload: Payload, retryAfter: Option<int>) | Refused(error: ApiError)

  /** The HTTP client. `replies` is what the server will answer, in order. */
  class Connection {
    /** The headers set on the client through `addHeader`. */
    ghost var headers: map<string, string>
    var replies: seq<Reply>
    /** Every request issued, in order. */
    var sent: seq<Request>

    constructor (replies: seq<Reply>)
      ensures headers == map[] && this.replies == replies && sent == []
    {
      headers := map[];
      this.replies := replies;
      sent := [];
    }

    method AddHeader(key: string, value: string)
      modifies this
      ensures headers == old(headers)[key := value]
      ensures replies == old(replies) && sent == old(sent)
    {
      headers := headers[key := value];
    }

    /**
     * Issues a request and takes the next scripted reply; None when the script
     * holds no further reply.
     */
    method Send(request: Request) returns (reply: Option<Reply>)
      modifies this
      ensures headers == old(headers) && sent == old(sent) + [request]
      ensures old(replies) == [] ==> reply == None && replies == []
      ensures old(replies) != [] ==> reply == Some(old(replies)[0]) && replies == old(replies)[1..]
    {
      sent := sent + [request];
      if replies == [] {
        reply := None;
      } else {
        reply := Some(replies[0]);
        replies := replies[1..];
      }
    }
  }

  /** The configuration last passed to the legacy client's `configure`. */
  datatype LegacySettings =
    | Unconfigured
    | BasicSettings(storeUrl: string, username: string, apiKey: string)
    | OAuthSettings(clientId: string, authToken: string, storeHash: string)

  /** One static call on the legacy client: the method name and its arguments. */
  datatype LegacyCall = LegacyCall(name: string, args: seq<Arg>)

  /** What a legacy call produces: a value, or an exception. */
  datatype LegacyResult = Returned(payload: Payload) | Raised(error: ApiError)

  /** The static legacy resource client, as one object holding its static state. */
  class CollectionResource {
    var settings: LegacySettings
    var calls: seq<LegacyCall>

    constructor ()
      ensures settings == Unconfigured && calls == []
    {
      settings := Unconfigured;
      calls := [];
    }

    method Configure(s: LegacySettings)
      modifies this
      ensures settings == s && calls == old(calls)
    {
      settings := s;
    }

    /** Records the call; its result comes from code that is not part of this model. */
    method Invoke(name: string, args: seq<Arg>, result: LegacyResult) returns (r: LegacyResult)
      modifies this
      ensures r == result
      ensures settings == old(settings) && calls == old(calls) + [LegacyCall(name, args)]
    {
      calls := calls + [LegacyCall(name, args)];
      r := result;
    }
  }
}
