/**
 * The Bigcommerce facade as an object. Its fields change only through its
 * methods; the HTTP client it creates in oAuth mode and the static legacy
 * resource client are the abstract objects of module Http.
 */
module Bigcommerce {
  import opened Wrappers
  import opened Text
  import opened Http
  import opened FacadeRules

  datatype OAuthConfig = OAuthConfig(clientId: string, clientSecret: string, redirectUrl: string)
  datatype BasicAuthConfig = BasicAuthConfig(storeUrl: string, username: string, apiKey: string)

  /** The configuration keys the facade reads: the default connection name, the store hash, the secret, and one block per mode. */
  datatype Config = Config(connection: string, storeHash: string, clientSecret: string,
                           oAuth: OAuthConfig, basicAuth: BasicAuthConfig)

  /** The facade's fields as one value, so that a contract can say what a method leaves alone. */
  datatype Fields = Fields(connection: Option<Mode>, clientId: string, clientSecret: string, redirectUrl: string,
                           storeHash: string, accessToken: string, version: string, resourceUri: string,
                           bigcommerce: Connection?)

  class Facade {
    var clientId: string
    var clientSecret: string
    var storeHash: string
    var accessToken: string
    /** The HTTP client handle; null unless the connection mode is oAuth. */
    var bigcommerce: Connection?
    var connection: Option<Mode>
    var version: string
    var redirectUrl: string
    var resourceUri: string
    /** The static legacy resource client this facade configures and calls. */
    const legacy: CollectionResource

    function Snapshot(): Fields
      reads this
    {
      Fields(connection, clientId, clientSecret, redirectUrl, storeHash, accessToken, version, resourceUri, bigcommerce)
    }

    /**
     * The client handle exists exactly in oAuth mode, and then carries the
     * client id as `X-Auth-Client` and, once set, the access token as `X-Auth-Token`.
     */
    ghost predicate Valid()
      reads this, bigcommerce
    {
      (bigcommerce != null <==> connection == Some(OAuth)) &&
      (bigcommerce != null ==>
        "X-Auth-Client" in bigcommerce.headers && bigcommerce.headers["X-Auth-Client"] == clientId &&
        ("X-Auth-Token" in bigcommerce.headers ==> bigcommerce.headers["X-Auth-Token"] == accessToken))
    }

    /**
     * A new object with the declared property defaults (`version` is `"v3"`,
     * the rest null), before the constructor body runs; PHP's null strings are
     * the empty string here.
     */
    constructor (legacy: CollectionResource)
      ensures Valid() && this.legacy == legacy
      ensures Snapshot() == Fields(None, "", "", "", "", "", "v3", "", null)
    {
      clientId, clientSecret, redirectUrl := "", "", "";
      storeHash, accessToken, resourceUri := "", "", "";
      version := "v3";
      connection := None;
      bigcommerce := null;
      this.legacy := legacy;
    }

    /**
     * The constructor body: set the connection named by the configuration, the
     * store hash and the access token (taken from the `client_secret` key).
     * `replies` is what the server will answer the client oAuth mode creates.
     * In basicAuth mode there is no client handle, so setting the token header
     * fails on the null handle.
     */
    method Construct(cfg: Config, replies: seq<Reply>) returns (r: Outcome<()>)
      requires Valid() && connection == None
      modifies this, legacy
      ensures Valid() && legacy.calls == old(legacy.calls)
      ensures ParseConnection(cfg.connection).Thrown? ==>
        r == Thrown(FacadeException(NoConnection)) && Snapshot() == old(Snapshot()) &&
        legacy.settings == old(legacy.settings)
      ensures cfg.connection == "oAuth" ==>
        r == Done(()) && bigcommerce != null && fresh(bigcommerce) &&
        bigcommerce.replies == replies && bigcommerce.sent == [] &&
        bigcommerce.headers == map["X-Auth-Client" := cfg.oAuth.clientId, "X-Auth-Token" := cfg.clientSecret] &&
        Snapshot() == old(Snapshot()).(connection := Some(OAuth), clientId := cfg.oAuth.clientId,
          clientSecret := cfg.oAuth.clientSecret, redirectUrl := cfg.oAuth.redirectUrl,
          storeHash := LastSegment(cfg.storeHash), accessToken := cfg.clientSecret, bigcommerce := bigcommerce) &&
        legacy.settings == old(legacy.settings)
      ensures cfg.connection == "basicAuth" ==>
        r == Thrown(NullHandle) &&
        Snapshot() == old(Snapshot()).(connection := Some(BasicAuth), storeHash := LastSegment(cfg.storeHash),
          accessToken := cfg.clientSecret) &&
        legacy.settings == BasicSettings(cfg.basicAuth.storeUrl, cfg.basicAuth.username, cfg.basicAuth.apiKey)
    {
      r := SetConnection(cfg.connection, cfg, replies);
      if r.Thrown? {
        return;
      }
      var _ := SetStoreHash(cfg.storeHash);
      var t := SetAccessToken(cfg.clientSecret);
      r := if t.Done? then Done(()) else Thrown(t.failure);
    }

    /**
     * `setConnection`: only `"oAuth"` and `"basicAuth"` are accepted; any other
     * name throws before the field is assigned. The accepted mode's set-up then
     * runs. Private in the source, and called once, by the constructor.
     */
    method SetConnection(name: string, cfg: Config, replies: seq<Reply>) returns (r: Outcome<()>)
      requires Valid() && connection == None
      modifies this, legacy
      ensures Valid() && legacy.calls == old(legacy.calls)
      ensures ParseConnection(name).Thrown? ==>
        r == Thrown(FacadeException(NoConnection)) && Snapshot() == old(Snapshot()) &&
        legacy.settings == old(legacy.settings)
      ensures name == "oAuth" ==>
        r == Done(()) && bigcommerce != null && fresh(bigcommerce) &&
        bigcommerce.replies == replies && bigcommerce.sent == [] &&
        bigcommerce.headers == map["X-Auth-Client" := cfg.oAuth.clientId] &&
        Snapshot() == old(Snapshot()).(connection := Some(OAuth), clientId := cfg.oAuth.clientId,
          clientSecret := cfg.oAuth.clientSecret, redirectUrl := cfg.oAuth.redirectUrl, bigcommerce := bigcommerce) &&
        legacy.settings == old(legacy.settings)
      ensures name == "basicAuth" ==>
        r == Done(()) && Snapshot() == old(Snapshot()).(connection := Some(BasicAuth)) &&
        legacy.settings == BasicSettings(cfg.basicAuth.storeUrl, cfg.basicAuth.username, cfg.basicAuth.apiKey)
    {
      var mode := ParseConnection(name);
      if !mode.Done? {
        r := Thrown(FacadeException(NoConnection));
        return;
      }
      connection := Some(mode.value);
      match mode.value {
        case OAuth => SetUpOAuth(cfg.oAuth, replies);
        case BasicAuth => SetUpBasicAuth(cfg.basicAuth);
      }
      r := Done(());
    }

    /** `oAuth()`: create the client handle, read the oAuth credentials, send the client id as `X-Auth-Client`. */
    method SetUpOAuth(cfg: OAuthConfig, replies: seq<Reply>)
      requires connection == Some(OAuth) && bigcommerce == null
      modifies this
      ensures Valid()
      ensures bigcommerce != null && fresh(bigcommerce)
      ensures bigcommerce.replies == replies && bigcommerce.sent == []
      ensures bigcommerce.headers == map["X-Auth-Client" := cfg.clientId]
      ensures Snapshot() == old(Snapshot()).(clientId := cfg.clientId, clientSecret := cfg.clientSecret,
        redirectUrl := cfg.redirectUrl, bigcommerce := bigcommerce)
    {
      var client := new Connection(replies);
      bigcommerce := client;
      clientId := cfg.clientId;
      clientSecret := cfg.clientSecret;
      redirectUrl := cfg.redirectUrl;
      client.AddHeader("X-Auth-Client", clientId);
    }

    /** `basicAuth()`: configure the legacy client with the store URL, user name and API key; no client handle. */
    method SetUpBasicAuth(cfg: BasicAuthConfig)
      modifies legacy
      ensures legacy.settings == BasicSettings(cfg.storeUrl, cfg.username, cfg.apiKey)
      ensures legacy.calls == old(legacy.calls)
    {
      legacy.Configure(BasicSettings(cfg.storeUrl, cfg.username, cfg.apiKey));
    }

    /** `setStoreHash`: keep the last `/`-separated segment of the input; returns the object itself. */
    method SetStoreHash(raw: string) returns (self: Facade)
      requires Valid()
      modifies this
      ensures Valid() && self == this
      ensures Snapshot() == old(Snapshot()).(storeHash := LastSegment(raw))
    {
      storeHash := LastSegment(raw);
      self := this;
    }

    /** `setApiVersion`: changes the version and nothing else; returns the object itself. */
    method SetApiVersion(v: string) returns (self: Facade)
      requires Valid()
      modifies this
      ensures Valid() && self == this
      ensures Snapshot() == old(Snapshot()).(version := v)
    {
      version := v;
      self := this;
    }

    /**
     * `setAccessToken`: store the token, then send it as `X-Auth-Token`. The
     * field is assigned before the client is touched, so without a client
     * handle the token is kept and the call fails on the null handle.
     */
    method SetAccessToken(token: string) returns (r: Outcome<Facade>)
      requires Valid()
      modifies this, bigcommerce
      ensures Valid()
      ensures Snapshot() == old(Snapshot()).(accessToken := token)
      ensures old(bigcommerce) == null ==> r == Thrown(NullHandle)
      ensures old(bigcommerce) != null ==>
        r == Done(this) &&
        bigcommerce.headers == old(bigcommerce.headers)["X-Auth-Token" := token] &&
        bigcommerce.replies == old(bigcommerce.replies) && bigcommerce.sent == old(bigcommerce.sent)
    {
      accessToken := token;
      if bigcommerce == null {
        r := Thrown(NullHandle);
        return;
      }
      bigcommerce.AddHeader("X-Auth-Token", token);
      r := Done(this);
    }

    /**
     * `getAccessToken`: post the authorisation-code form to the token URL. The
     * reply is returned as it is: no retry, and no catch, so a client exception
     * reaches the caller unchanged.
     */
    method GetAccessToken(code: string, scope: string, context: string) returns (r: Outcome<Payload>)
      requires Valid()
      modifies bigcommerce
      ensures Valid()
      ensures old(bigcommerce) == null ==> r == Thrown(NullHandle)
      ensures old(bigcommerce) != null ==>
        bigcommerce.headers == old(bigcommerce.headers) &&
        bigcommerce.sent == old(bigcommerce.sent) +
          [Request(Post, TokenUrl, Query(TokenForm(clientId, clientSecret, redirectUrl, code, scope, context)))] &&
        (old(bigcommerce.replies) == [] ==> r == Unanswered && bigcommerce.replies == []) &&
        (old(bigcommerce.replies) != [] ==>
          r == Unwrapped(old(bigcommerce.replies)[0]) && bigcommerce.replies == old(bigcommerce.replies)[1..])
    {
      if bigcommerce == null {
        r := Thrown(NullHandle);
        return;
      }
      var form := TokenForm(clientId, clientSecret, redirectUrl, code, scope, context);
      var reply := bigcommerce.Send(Request(Post, TokenUrl, Query(form)));
      r := if reply.None? then Unanswered else Unwrapped(reply.value);
    }

    /**
     * `__call`: the four verb names become a verb request on the first argument
     * with the second, or null, as filters; every other name goes to the legacy
     * client. `result` is what that legacy call would produce.
     */
    method Call(name: string, args: seq<Arg>, result: LegacyResult) returns (r: Outcome<Payload>)
      requires Valid()
      modifies this, bigcommerce, legacy
      ensures Valid() && bigcommerce == old(bigcommerce)
      ensures Dispatch(name, args).CollectionRoute? ==>
        r == CollectionOutcome(version, result) && Snapshot() == old(Snapshot()) &&
        (connection == Some(OAuth) ==> legacy.settings == OAuthSettings(clientId, accessToken, storeHash)) &&
        (connection != Some(OAuth) ==> legacy.settings == old(legacy.settings)) &&
        legacy.calls == (if version == "v3" then old(legacy.calls) else old(legacy.calls) + [LegacyCall(name, args)]) &&
        (bigcommerce != null ==>
          bigcommerce.headers == old(bigcommerce.headers) &&
          bigcommerce.replies == old(bigcommerce.replies) && bigcommerce.sent == old(bigcommerce.sent))
      ensures Dispatch(name, args).VerbRoute? ==>
        legacy.settings == old(legacy.settings) && legacy.calls == old(legacy.calls) &&
        (old(bigcommerce) == null ==> r == Thrown(NullHandle) && Snapshot() == old(Snapshot())) &&
        (old(bigcommerce) != null ==>
          var route := Dispatch(name, args);
          var x := Retry(old(bigcommerce.replies));
          var uri := ApiUri(storeHash, version, UriPart(route.resource));
          r == x.outcome &&
          Snapshot() == old(Snapshot()).(resourceUri := uri) &&
          bigcommerce.headers == old(bigcommerce.headers) &&
          bigcommerce.replies == old(bigcommerce.replies)[x.replies..] &&
          bigcommerce.sent == old(bigcommerce.sent) + Repeat(Request(route.verb, uri, route.filters), Issued(x)))
    {
      match Dispatch(name, args) {
        case VerbRoute(verb, resource, filters) =>
          var waits;
          r, waits := MakeHttpVerbRequest(verb, UriPart(resource), filters);
        case CollectionRoute(callee, arguments) =>
          r := MakeCollectionRequest(callee, arguments, result);
      }
    }

    /**
     * `makeHttpVerbRequest`: issue the verb on the resolved URI; while the reply's
     * `X-Retry-After` is positive, sleep that many seconds plus five and issue
     * the same request again; return the first other reply's data, re-wrapping
     * client exceptions. `waits` are the sleep durations. Against the reply
     * script this is the function Retry.
     */
    method MakeHttpVerbRequest(verb: Verb, resource: string, filters: Arg) returns (r: Outcome<Payload>, waits: seq<int>)
      requires Valid()
      modifies this, bigcommerce
      decreases if bigcommerce == null then 0 else |bigcommerce.replies|
      ensures Valid() && bigcommerce == old(bigcommerce)
      ensures old(bigcommerce) == null ==> r == Thrown(NullHandle) && waits == [] && Snapshot() == old(Snapshot())
      ensures old(bigcommerce) != null ==>
        var x := Retry(old(bigcommerce.replies));
        var uri := ApiUri(storeHash, version, resource);
        r == x.outcome && waits == x.waits &&
        Snapshot() == old(Snapshot()).(resourceUri := uri) &&
        bigcommerce.headers == old(bigcommerce.headers) &&
        bigcommerce.replies == old(bigcommerce.replies)[x.replies..] &&
        bigcommerce.sent == old(bigcommerce.sent) + Repeat(Request(verb, uri, filters), Issued(x))
    {
      if bigcommerce == null {
        r, waits := Thrown(NullHandle), [];
        return;
      }
      var client := bigcommerce;
      ghost var script := client.replies;
      var uri := ResourceUri(resource);
      var request := Request(verb, uri, filters);
      var reply := client.Send(request);
      if script != [] {
        RetryStep(script);
      }
      if reply.None? {
        r, waits := Unanswered, [];
        return;
      }
      match reply.value {
        case Refused(e) =>
          r, waits := Rewrap(Thrown(ClientException(e))), [];
        case Response(payload, retryAfter) =>
          // The header is present and truthy, then compared with zero.
          if Throttled(retryAfter) {
            var seconds := retryAfter.value + 5;
            var inner, more := MakeHttpVerbRequest(verb, resource, filters);
            r := Rewrap(inner);
            waits := [seconds] + more;
            RepeatCons(request, Issued(Retry(script[1..])));
          } else {
            r, waits := Done(payload), [];
          }
      }
    }

    /**
     * `makeBigcomerceCollectionRequest`: in oAuth mode first configure the
     * legacy client with client id, token and store hash; then refuse version
     * `"v3"`, or make the legacy call; every exception leaves as the facade's
     * own, message and code kept.
     */
    method MakeCollectionRequest(name: string, args: seq<Arg>, result: LegacyResult) returns (r: Outcome<Payload>)
      requires Valid()
      modifies legacy
      ensures Valid()
      ensures r == CollectionOutcome(version, result)
      ensures connection == Some(OAuth) ==> legacy.settings == OAuthSettings(clientId, accessToken, storeHash)
      ensures connection != Some(OAuth) ==> legacy.settings == old(legacy.settings)
      ensures legacy.calls == if version == "v3" then old(legacy.calls) else old(legacy.calls) + [LegacyCall(name, args)]
    {
      if connection == Some(OAuth) {
        legacy.Configure(OAuthSettings(clientId, accessToken, storeHash));
      }
      if version == "v3" {
        r := Rewrap(Thrown(FacadeException(NoVersion3)));
        return;
      }
      var answer := legacy.Invoke(name, args, result);
      match answer {
        case Returned(data) => r := Done(data);
        case Raised(e) => r := Rewrap(Thrown(ClientException(e)));
      }
    }

    /** The request of one turn of `paginateRequest`: `setApiVersion(v)->get(uri, ["limit" => limit, "page" => page])`. */
    method GetPage(uri: string, v: string, limit: Param, page: nat) returns (r: Outcome<Payload>)
      requires Valid()
      modifies this, bigcommerce
      ensures Valid() && bigcommerce == old(bigcommerce)
      ensures old(bigcommerce) == null ==> r == Thrown(NullHandle) && Snapshot() == old(Snapshot()).(version := v)
      ensures old(bigcommerce) != null ==>
        var x := Retry(old(bigcommerce.replies));
        var target := ApiUri(storeHash, v, uri);
        r == x.outcome &&
        Snapshot() == old(Snapshot()).(version := v, resourceUri := target) &&
        bigcommerce.headers == old(bigcommerce.headers) &&
        bigcommerce.replies == old(bigcommerce.replies)[x.replies..] &&
        bigcommerce.sent == old(bigcommerce.sent) + Repeat(PageRequest(target, limit, page), Issued(x))
    {
      var self := SetApiVersion(v);
      var waits;
      r, waits := self.MakeHttpVerbRequest(Get, uri, PageFilters(limit, page));
    }

    /** `resourceUri`: build the request URI, record it in the field, return it. */
    method ResourceUri(resource: string) returns (uri: string)
      requires Valid()
      modifies this
      ensures Valid()
      ensures uri == ApiUri(storeHash, version, resource)
      ensures Snapshot() == old(Snapshot()).(resourceUri := uri)
    {
      resourceUri := ApiUri(storeHash, version, resource);
      uri := resourceUri;
    }

    /**
     * `paginateRequest`: a do-while over page numbers from 1. Each turn sets the
     * version and gets the page with `limit` (default 50) and `page`; an empty
     * page leaves the loop, otherwise its data is appended and the page number
     * advances, and the loop goes on while it is below `pages` (default 1).
     * Against the reply script this is the function Paginate.
     */
    method PaginateRequest(uri: string, v: string, config: PageConfig) returns (r: Outcome<seq<Record>>)
      requires Valid()
      modifies this, bigcommerce
      ensures Valid() && bigcommerce == old(bigcommerce)
      ensures old(bigcommerce) == null ==> r == Thrown(NullHandle) && Snapshot() == old(Snapshot()).(version := v)
      ensures old(bigcommerce) != null ==>
        var target := ApiUri(old(storeHash), v, uri);
        var run := Paginate(old(bigcommerce.replies), target, PageSize(config), PageLimit(config), 1, []);
        r == run.outcome &&
        Snapshot() == old(Snapshot()).(version := v, resourceUri := target) &&
        bigcommerce.headers == old(bigcommerce.headers) &&
        bigcommerce.replies == old(bigcommerce.replies)[run.replies..] &&
        bigcommerce.sent == old(bigcommerce.sent) + run.sent
    {
      var pageLimit := PageLimit(config);
      var limit := PageSize(config);
      var currentPage: nat := 1;
      var results: seq<Record> := [];
      if bigcommerce == null {
        // Without a client the first `get` already fails.
        var page := GetPage(uri, v, limit, currentPage);
        r := Abandon(page);
        return;
      }
      ghost var client := bigcommerce;
      ghost var target := ApiUri(storeHash, v, uri);
      ghost var script := client.replies;
      ghost var sent0 := client.sent;
      ghost var whole := Paginate(script, target, limit, pageLimit, 1, []);
      ghost var after := Snapshot().(version := v, resourceUri := target);
      assert whole == Paginate(old(bigcommerce.replies), ApiUri(old(storeHash), v, uri), PageSize(config), PageLimit(config), 1, []);
      ghost var rem := script;
      ghost var consumed: nat := 0;
      ghost var sentSoFar: seq<Request> := [];
      while true
        invariant Valid() && bigcommerce == client
        invariant Snapshot().(version := v, resourceUri := target) == after
        invariant client.replies == rem && client.headers == old(client.headers) && client.sent == sent0 + sentSoFar
        invariant consumed <= |script| && rem == script[consumed..]
        invariant Tracks(whole, consumed, sentSoFar, rem, target, limit, pageLimit, currentPage, results)
        decreases |rem|
      {
        ghost var x := Retry(rem);
        TrackTurn(whole, consumed, sentSoFar, rem, target, limit, pageLimit, currentPage, results);
        var collection := GetPage(uri, v, limit, currentPage);
        ghost var request := PageRequest(target, limit, currentPage);
        assert rem[x.replies..] == script[consumed + x.replies..];
        ConcatAssoc(sent0, sentSoFar, Repeat(request, Issued(x)));
        if !collection.Done? {
          r := Abandon(collection);
          assert r == whole.outcome && client.replies == script[whole.replies..] && client.sent == sent0 + whole.sent;
          break;
        }
        rem := rem[x.replies..];
        consumed := consumed + x.replies;
        sentSoFar := sentSoFar + Repeat(request, Issued(x));
        // Exit loop if there are no results.
        if collection.value.data == [] {
          r := Done(results);
          assert r == whole.outcome && client.replies == script[whole.replies..] && client.sent == sent0 + whole.sent;
          break;
        }
        results := results + collection.value.data;
        currentPage := currentPage + 1;
        if !(currentPage < pageLimit) {
          r := Done(results);
          assert r == whole.outcome && client.replies == script[whole.replies..] && client.sent == sent0 + whole.sent;
          break;
        }
      }
    }
  }
}
