/**
 * The decision logic of the Bigcommerce facade, as functions of values: which
 * connection names are accepted, how request URIs are built, how `__call`
 * routes a method name, when a request is re-issued after throttling, what
 * the legacy collection path answers, and which pages `paginateRequest` asks
 * for. The class in module Bigcommerce is proved against these.
 */
module FacadeRules {
  import opened Wrappers
  import opened Text
  import opened Http

  /**
   * How a facade call ends: an exception of the facade's own type
   * (`BigcommerceApiException`), an exception from the client that the facade
   * lets through, a call on the null client handle (a PHP `Error`, never caught),
   * or no end within the reply script (the source would go on waiting).
   */
  datatype Failure =
    | FacadeException(error: ApiError)
    | ClientException(error: ApiError)
    | NullHandle

  datatype Outcome<+T> = Done(value: T) | Thrown(failure: Failure) | Unanswered

  /**
   * A `catch (Exception $e)` that throws `new BigcommerceApiException($e->getMessage(),
   * $e->getCode())`: every exception becomes the facade's own, with its message
   * and code kept; a call on the null handle is an `Error`, not an `Exception`,
   * and passes through, as do values.
   */
  function Rewrap<T>(o: Outcome<T>): (r: Outcome<T>)
    ensures o.Thrown? && !o.failure.NullHandle? ==> r == Thrown(FacadeException(o.failure.error))
    ensures !o.Thrown? || o.failure.NullHandle? ==> r == o
  {
    if o.Thrown? && !o.failure.NullHandle? then Thrown(FacadeException(o.failure.error)) else o
  }

  /** Re-wrapping twice is re-wrapping once: a nested catch changes nothing more. */
  lemma RewrapIdempotent<T>(o: Outcome<T>)
    ensures Rewrap(Rewrap(o)) == Rewrap(o)
  {
  }

  /* ---------------- Connection modes ---------------- */

  datatype Mode = OAuth | BasicAuth

  /** The configuration string naming each mode. */
  function ModeName(m: Mode): (name: string)
  {
    match m
    case OAuth => "oAuth"
    case BasicAuth => "basicAuth"
  }

  const NoConnection := ApiError("No connection set", 403)

  /** The whitelist of `setConnection`: exactly the two mode names are accepted. */
  function ParseConnection(name: string): (r: Outcome<Mode>)
    ensures r.Done? <==> name == "oAuth" || name == "basicAuth"
    ensures r.Done? ==> ModeName(r.value) == name
    ensures !r.Done? ==> r == Thrown(FacadeException(NoConnection))
  {
    if name == "oAuth" then Done(OAuth)
    else if name == "basicAuth" then Done(BasicAuth)
    else Thrown(FacadeException(NoConnection))
  }

  /** Every mode's own name is accepted and selects that mode. */
  lemma ParseModeName(m: Mode)
    ensures ParseConnection(ModeName(m)) == Done(m)
  {
  }

  /* ---------------- Request URIs ---------------- */

  const BaseApiUrl := "https://api.bigcommerce.com/"
  const StoresUrl := BaseApiUrl + "stores/"

  /** `resourceUri`: base URL, `stores/`, store hash, API version, resource path. */
  function ApiUri(storeHash: string, version: string, resource: string): (uri: string)
  {
    StoresUrl + storeHash + "/" + version + "/" + resource
  }

  /** Every request URI lies under the stores URL, ends with the resource, and adds exactly two separators. */
  lemma ApiUriShape(storeHash: string, version: string, resource: string)
    ensures var uri := ApiUri(storeHash, version, resource);
      |uri| == |StoresUrl| + |storeHash| + |version| + |resource| + 2 &&
      uri[..|StoresUrl|] == StoresUrl && uri[|uri| - |resource|..] == resource
  {
  }

  datatype UriParts = UriParts(storeHash: string, version: string, resource: string)

  /** Reads store hash, version and resource back out of an API URI. */
  function ParseApiUri(uri: string): (p: Option<UriParts>)
  {
    if |uri| < |StoresUrl| || uri[..|StoresUrl|] != StoresUrl then None
    else
      match SplitFirst(uri[|StoresUrl|..], '/')
      case None => None
      case Some((hash, rest)) =>
        match SplitFirst(rest, '/')
        case None => None
        case Some((version, resource)) => Some(UriParts(hash, version, resource))
  }

  /** A URI built from a store hash and a version free of `/` reads back as its parts. */
  lemma ApiUriRoundTrip(storeHash: string, version: string, resource: string)
    requires '/' !in storeHash && '/' !in version
    ensures ParseApiUri(ApiUri(storeHash, version, resource)) == Some(UriParts(storeHash, version, resource))
  {
    var uri := ApiUri(storeHash, version, resource);
    var tail := storeHash + "/" + version + "/" + resource;
    assert uri == StoresUrl + tail;
    assert uri[|StoresUrl|..] == tail;
    assert tail == storeHash + ['/'] + (version + "/" + resource);
    SplitFirstOf(storeHash, version + "/" + resource, '/');
    assert version + "/" + resource == version + ['/'] + resource;
    SplitFirstOf(version, resource, '/');
  }

  /** Conversely, whatever reads as parts is the URI built from them. */
  lemma ParsedApiUri(uri: string)
    requires ParseApiUri(uri).Some?
    ensures var p := ParseApiUri(uri).value;
      '/' !in p.storeHash && '/' !in p.version && ApiUri(p.storeHash, p.version, p.resource) == uri
  {
    var p := ParseApiUri(uri).value;
    var tail := uri[|StoresUrl|..];
    var first := SplitFirst(tail, '/').value;
    var second := SplitFirst(first.1, '/').value;
    assert p == UriParts(first.0, second.0, second.1);
    JoinParts(StoresUrl, p.storeHash, p.version, p.resource, uri);
  }

  /** A string cut after a prefix and at two slashes is the concatenation of its pieces. */
  lemma JoinParts(pre: string, hash: string, version: string, resource: string, s: string)
    requires |pre| <= |s| && s[..|pre|] == pre
    requires s[|pre|..] == hash + ['/'] + (version + ['/'] + resource)
    ensures pre + hash + "/" + version + "/" + resource == s
  {
    assert s == s[..|pre|] + s[|pre|..];
  }

  /* ---------------- Method-name dispatch (`__call`) ---------------- */

  /** The PHP method name of each verb. */
  function VerbName(v: Verb): (name: string)
  {
    match v
    case Get => "get"
    case Post => "post"
    case Put => "put"
    case Delete => "delete"
  }

  /** The verb a method name names, if it is one of the four. */
  function VerbNamed(name: string): (v: Option<Verb>)
    ensures v.Some? <==> name in ["get", "post", "put", "delete"]
    ensures v.Some? ==> VerbName(v.value) == name
  {
    if name == "get" then Some(Get)
    else if name == "post" then Some(Post)
    else if name == "put" then Some(Put)
    else if name == "delete" then Some(Delete)
    else None
  }

  /** Where `__call` sends a call: to an HTTP verb request or to the legacy client. */
  datatype Route =
    | VerbRoute(verb: Verb, resource: Arg, filters: Arg)
    | CollectionRoute(name: string, args: seq<Arg>)

  /**
   * `__call`: the four verb names go to the verb request with the first argument
   * as route and the second, or null, as filters; every other name goes to the
   * legacy client with the name and all arguments. A missing first argument
   * reads as null, as PHP does for an absent array key.
   */
  function Dispatch(name: string, args: seq<Arg>): (r: Route)
    ensures r.VerbRoute? <==> name in ["get", "post", "put", "delete"]
    ensures r.VerbRoute? ==> VerbName(r.verb) == name
    ensures r.VerbRoute? ==> r.resource == (if |args| > 0 then args[0] else Null)
    ensures r.VerbRoute? ==> r.filters == (if |args| > 1 then args[1] else Null)
    ensures r.CollectionRoute? ==> r.name == name && r.args == args
  {
    match VerbNamed(name)
    case Some(verb) =>
      VerbRoute(verb, if |args| > 0 then args[0] else Null, if |args| > 1 then args[1] else Null)
    case None => CollectionRoute(name, args)
  }

  /** Calling a verb by its name routes to that verb, whatever the arguments. */
  lemma DispatchVerb(v: Verb, args: seq<Arg>)
    ensures Dispatch(VerbName(v), args).VerbRoute? && Dispatch(VerbName(v), args).verb == v
  {
  }

  /** A route argument as PHP's string concatenation renders it. */
  function UriPart(a: Arg): (s: string)
    ensures a.Str? ==> s == a.s
    ensures a.Null? ==> s == ""
    ensures a.Query? ==> s == "Array"
  {
    match a
    case Str(s) => s
    case Null => ""
    case Query(_) => "Array"
  }

  /* ---------------- Retry on throttle (`makeHttpVerbRequest`) ---------------- */

  /**
   * The two tests on `X-Retry-After`: the header is present and truthy (not
   * `"0"`), then it is greater than zero.
   */
  function Throttled(retryAfter: Option<int>): (b: bool)
    ensures b <==> retryAfter.Some? && retryAfter.value > 0
  {
    retryAfter.Some? && retryAfter.value != 0 && retryAfter.value > 0
  }

  /** A reply that makes the facade sleep and issue the same request again. */
  predicate Retries(reply: Reply)
  {
    reply.Response? && Throttled(reply.retryAfter)
  }

  /** A reply as the caller sees it when nothing catches it. */
  function Unwrapped(reply: Reply): (r: Outcome<Payload>)
  {
    match reply
    case Response(payload, _) => Done(payload)
    case Refused(e) => Thrown(ClientException(e))
  }

  /** What a reply that is not retried makes of a verb request; client exceptions are re-wrapped. */
  function Settle(reply: Reply): (r: Outcome<Payload>)
    ensures r == Rewrap(Unwrapped(reply))
    ensures reply.Refused? ==> r == Thrown(FacadeException(reply.error))
    ensures reply.Response? ==> r == Done(reply.payload)
  {
    match reply
    case Response(payload, _) => Done(payload)
    case Refused(e) => Thrown(FacadeException(e))
  }

  /** Every reply of the script is a throttled one. */
  predicate AllRetry(script: seq<Reply>)
  {
    forall i :: 0 <= i < |script| ==> Retries(script[i])
  }

  /** `waits` are the sleeps for the throttled replies heading `script`. */
  predicate SleepsFor(script: seq<Reply>, waits: seq<int>)
  {
    |waits| <= |script| &&
    forall i :: 0 <= i < |waits| ==> Retries(script[i]) && waits[i] == script[i].retryAfter.value + 5
  }

  /**
   * One verb request with its retries: how it ends, how many scripted replies
   * it used, and the sleeps (in seconds) it made before each re-issue.
   */
  datatype Attempts = Attempts(outcome: Outcome<Payload>, replies: nat, waits: seq<int>)

  /**
   * The retry rule over a reply script. Every reply with a positive
   * `X-Retry-After` costs a sleep of that value plus five seconds and a
   * re-issue; the first other reply ends the call. A script that holds only
   * throttled replies never ends the call.
   */
  function Retry(script: seq<Reply>): (x: Attempts)
    ensures x.replies <= |script|
    ensures x.outcome.Unanswered? <==> AllRetry(script)
    ensures x.outcome.Unanswered? ==> x.replies == |script| && |x.waits| == |script|
    ensures !x.outcome.Unanswered? ==>
      1 <= x.replies && |x.waits| == x.replies - 1 &&
      !Retries(script[x.replies - 1]) && x.outcome == Settle(script[x.replies - 1])
    ensures SleepsFor(script, x.waits)
    ensures Rewrap(x.outcome) == x.outcome
    decreases |script|
  {
    if script == [] then Attempts(Unanswered, 0, [])
    else if Retries(script[0]) then
      var rest := Retry(script[1..]);
      assert AllRetry(script[1..]) <==> AllRetry(script) by {
        if AllRetry(script[1..]) {
          forall i | 0 <= i < |script| ensures Retries(script[i]) {
            if i > 0 { assert script[i] == script[1..][i - 1]; }
          }
        }
      }
      var waits := [script[0].retryAfter.value + 5] + rest.waits;
      assert SleepsFor(script, waits) by {
        forall i | 0 <= i < |waits| ensures Retries(script[i]) && waits[i] == script[i].retryAfter.value + 5 {
          if i > 0 { assert script[i] == script[1..][i - 1]; }
        }
      }
      Attempts(rest.outcome, rest.replies + 1, waits)
    else Attempts(Settle(script[0]), 1, [])
  }

  /** The retry rule unfolded once: a throttled first reply defers to the rest of the script. */
  lemma RetryStep(script: seq<Reply>)
    requires script != []
    ensures var x, rest := Retry(script), Retry(script[1..]);
      (Retries(script[0]) ==>
        x == Attempts(rest.outcome, rest.replies + 1, [script[0].retryAfter.value + 5] + rest.waits)) &&
      (!Retries(script[0]) ==> x == Attempts(Settle(script[0]), 1, []))
  {
  }

  /** The number of requests a verb request issues: one per reply used, plus an unanswered last one. */
  function Issued(x: Attempts): (n: nat)
  {
    if x.outcome.Unanswered? then x.replies + 1 else x.replies
  }

  /** `n` copies of `t`: the requests a retried call sends. */
  function Repeat<T>(t: T, n: nat): (s: seq<T>)
    ensures |s| == n && forall i :: 0 <= i < n ==> s[i] == t
  {
    if n == 0 then [] else [t] + Repeat(t, n - 1)
  }

  /** One more copy in front is one more copy. */
  lemma RepeatCons<T>(t: T, n: nat)
    ensures [t] + Repeat(t, n) == Repeat(t, n + 1)
  {
    assert forall i :: 0 <= i < n + 1 ==> ([t] + Repeat(t, n))[i] == t;
  }

  /**
   * There is no retry cap: any run of throttled replies ahead of a script is
   * absorbed, each costing one more reply and one more sleep.
   */
  lemma {:induction false} RetrySkip(throttled: seq<Reply>, rest: seq<Reply>)
    requires AllRetry(throttled)
    ensures Retry(throttled + rest).outcome == Retry(rest).outcome
    ensures Retry(throttled + rest).replies == |throttled| + Retry(rest).replies
  {
    var script := throttled + rest;
    if throttled == [] {
      assert script == rest;
    } else {
      assert script[0] == throttled[0] && Retries(script[0]);
      assert script[1..] == throttled[1..] + rest;
      AllRetryTail(throttled);
      RetrySkip(throttled[1..], rest);
    }
  }

  /** The sleeps of such a call are those for the throttled run, then those for the rest. */
  lemma {:induction false} RetrySkipSleeps(throttled: seq<Reply>, rest: seq<Reply>)
    requires AllRetry(throttled)
    ensures Retry(throttled + rest).waits == Retry(throttled).waits + Retry(rest).waits
  {
    var script := throttled + rest;
    if throttled == [] {
      assert script == rest;
    } else {
      assert script[0] == throttled[0] && Retries(script[0]);
      assert script[1..] == throttled[1..] + rest;
      AllRetryTail(throttled);
      RetrySkipSleeps(throttled[1..], rest);
      RetryStep(script);
      RetryStep(throttled);
      ConcatAssoc([throttled[0].retryAfter.value + 5], Retry(throttled[1..]).waits, Retry(rest).waits);
    }
  }

  /** The rest of an all-throttled script is all throttled. */
  lemma AllRetryTail(throttled: seq<Reply>)
    requires AllRetry(throttled) && throttled != []
    ensures AllRetry(throttled[1..])
  {
    forall i | 0 <= i < |throttled| - 1 ensures Retries(throttled[1..][i]) {
      assert throttled[1..][i] == throttled[i + 1];
    }
  }

  /**
   * One throttled reply followed by a final one: exactly one re-issue, one
   * sleep of the header value plus five seconds, and the final reply's result.
   */
  lemma RetriedOnce(first: Payload, seconds: int, last: Reply, more: seq<Reply>)
    requires seconds > 0 && !Retries(last)
    ensures Retry([Response(first, Some(seconds)), last] + more) == Attempts(Settle(last), 2, [seconds + 5])
  {
    var script := [Response(first, Some(seconds)), last] + more;
    assert script[1..][0] == last;
  }

  /* ---------------- The legacy collection path ---------------- */

  const NoVersion3 := ApiError("Bigcommerce collection does not support api version 3", 403)

  /**
   * `makeBigcomerceCollectionRequest` after its configuration step: version
   * `"v3"` is refused with the facade's own exception; otherwise the legacy
   * call's value is returned and its exception re-thrown as the facade's.
   */
  function CollectionOutcome(version: string, result: LegacyResult): (r: Outcome<Payload>)
    ensures version == "v3" ==> r == Thrown(FacadeException(NoVersion3))
    ensures version != "v3" && result.Returned? ==> r == Done(result.payload)
    ensures version != "v3" && result.Raised? ==> r == Thrown(FacadeException(result.error))
  {
    if version == "v3" then Thrown(FacadeException(NoVersion3))
    else
      match result
      case Returned(p) => Done(p)
      case Raised(e) => Thrown(FacadeException(e))
  }

  /** The legacy path never answers for version 3, whatever the legacy client would do. */
  lemma Version3Refused(a: LegacyResult, b: LegacyResult)
    ensures CollectionOutcome("v3", a) == CollectionOutcome("v3", b)
    ensures CollectionOutcome("v3", a).Thrown?
  {
  }

  /* ---------------- Token exchange (`getAccessToken`) ---------------- */

  const TokenUrl := "https://login.bigcommerce.com/" + "oauth2/token"

  /** The form `getAccessToken` posts. */
  function TokenForm(clientId: string, clientSecret: string, redirectUrl: string,
                     code: string, scope: string, context: string): (form: map<string, Param>)
    ensures form.Keys == {"client_id", "client_secret", "redirect_uri", "grant_type", "code", "scope", "context"}
    ensures form["grant_type"] == Text("authorization_code")
    ensures form["code"] == Text(code) && form["scope"] == Text(scope) && form["context"] == Text(context)
  {
    map["client_id" := Text(clientId), "client_secret" := Text(clientSecret),
        "redirect_uri" := Text(redirectUrl), "grant_type" := Text("authorization_code"),
        "code" := Text(code), "scope" := Text(scope), "context" := Text(context)]
  }

  /* ---------------- Pagination (`paginateRequest`) ---------------- */

  /** The `$config` argument: `pages` and `limit`, each possibly absent. */
  datatype PageConfig = PageConfig(pages: Option<int>, limit: Option<Param>)

  /** The `pages` setting, 1 when absent. */
  function PageLimit(c: PageConfig): (n: int)
    ensures c.pages.None? ==> n == 1
    ensures c.pages.Some? ==> n == c.pages.value
  {
    if c.pages.Some? then c.pages.value else 1
  }

  /** The `limit` setting, 50 when absent. */
  function PageSize(c: PageConfig): (limit: Param)
    ensures c.limit.None? ==> limit == Number(50)
    ensures c.limit.Some? ==> limit == c.limit.value
  {
    if c.limit.Some? then c.limit.value else Number(50)
  }

  /** The filters of the request for one page. */
  function PageFilters(limit: Param, page: nat): (filters: Arg)
  {
    Query(map["limit" := limit, "page" := Number(page)])
  }

  /** The query of a page request holds exactly `limit` and `page`, with the page number as given. */
  lemma PageQuery(limit: Param, page: nat)
    ensures var filters := PageFilters(limit, page);
      filters.Query? && filters.fields.Keys == {"limit", "page"} &&
      filters.fields["limit"] == limit && filters.fields["page"] == Number(page)
  {
  }

  /** The `get` request for one page. */
  function PageRequest(uri: string, limit: Param, page: nat): (request: Request)
  {
    Request(Get, uri, PageFilters(limit, page))
  }

  function Flatten(pages: seq<seq<Record>>): (records: seq<Record>)
  {
    if pages == [] then [] else pages[0] + Flatten(pages[1..])
  }

  /**
   * A pagination run: how it ends, the page numbers requested (one per `get`),
   * the retry run of each of those requests, the data of each page answered,
   * the scripted replies used, and every request issued, re-issues included.
   */
  datatype PageRun = PageRun(outcome: Outcome<seq<Record>>, pages: seq<nat>, attempts: seq<Attempts>,
                             data: seq<seq<Record>>, replies: nat, sent: seq<Request>)

  function Abandon(o: Outcome<Payload>): (r: Outcome<seq<Record>>)
    requires !o.Done?
    ensures !r.Done? && (o.Unanswered? <==> r.Unanswered?)
    ensures o.Thrown? ==> r == Thrown(o.failure)
  {
    if o.Unanswered? then Unanswered else Thrown(o.failure)
  }

  /**
   * The do-while of `paginateRequest` from page `page` on, with `results`
   * collected so far: request the page; an empty page ends the run; otherwise
   * add its data and go on while the next page number is below `pageLimit`.
   * Pages are requested consecutively from `page`, and no more of them than
   * `pageLimit - page`, or one.
   */
  function Paginate(script: seq<Reply>, uri: string, limit: Param, pageLimit: int,
                    page: nat, results: seq<Record>): (run: PageRun)
    ensures run.replies <= |script|
    ensures |run.pages| >= 1 && forall i :: 0 <= i < |run.pages| ==> run.pages[i] == page + i
    ensures |run.pages| <= if pageLimit - page > 1 then pageLimit - page else 1
    decreases |script|
  {
    var x := Retry(script);
    var sent := Repeat(PageRequest(uri, limit, page), Issued(x));
    if !x.outcome.Done? then PageRun(Abandon(x.outcome), [page], [x], [], x.replies, sent)
    else
      var data := x.outcome.value.data;
      if data == [] then PageRun(Done(results), [page], [x], [[]], x.replies, sent)
      else if page + 1 < pageLimit then
        var rest := Paginate(script[x.replies..], uri, limit, pageLimit, page + 1, results + data);
        PageRun(rest.outcome, [page] + rest.pages, [x] + rest.attempts, [data] + rest.data,
                x.replies + rest.replies, sent + rest.sent)
      else PageRun(Done(results + data), [page], [x], [data], x.replies, sent)
  }

  /** One turn of the loop: how a run from `page` continues after that page's reply. */
  lemma PaginateStep(script: seq<Reply>, uri: string, limit: Param, pageLimit: int, page: nat, results: seq<Record>)
    ensures var x, run := Retry(script), Paginate(script, uri, limit, pageLimit, page, results);
      var sent := Repeat(PageRequest(uri, limit, page), Issued(x));
      (!x.outcome.Done? ==>
        run.outcome == Abandon(x.outcome) && run.replies == x.replies && run.sent == sent) &&
      (x.outcome.Done? && x.outcome.value.data == [] ==>
        run.outcome == Done(results) && run.replies == x.replies && run.sent == sent) &&
      (x.outcome.Done? && x.outcome.value.data != [] && page + 1 >= pageLimit ==>
        run.outcome == Done(results + x.outcome.value.data) && run.replies == x.replies && run.sent == sent) &&
      (x.outcome.Done? && x.outcome.value.data != [] && page + 1 < pageLimit ==>
        var rest := Paginate(script[x.replies..], uri, limit, pageLimit, page + 1, results + x.outcome.value.data);
        run.outcome == rest.outcome && run.replies == x.replies + rest.replies && run.sent == sent + rest.sent)
  {
  }

  /** `Paginate` unfolded once, for the pages, the retry runs and the data only. */
  lemma PaginateShape(script: seq<Reply>, uri: string, limit: Param, pageLimit: int, page: nat, results: seq<Record>)
    ensures var x, run := Retry(script), Paginate(script, uri, limit, pageLimit, page, results);
      var goesOn := x.outcome.Done? && x.outcome.value.data != [] && page + 1 < pageLimit;
      (!goesOn ==>
        run.pages == [page] && run.attempts == [x] &&
        run.data == if x.outcome.Done? then [x.outcome.value.data] else []) &&
      (goesOn ==>
        var rest := Paginate(script[x.replies..], uri, limit, pageLimit, page + 1, results + x.outcome.value.data);
        run.outcome == rest.outcome && run.pages == [page] + rest.pages &&
        run.attempts == [x] + rest.attempts && run.data == [x.outcome.value.data] + rest.data)
  {
  }

  /** One data list per page answered: as many as pages requested when the run completes. */
  lemma {:induction false} PaginateAnswered(script: seq<Reply>, uri: string, limit: Param, pageLimit: int,
                                            page: nat, results: seq<Record>)
    ensures var run := Paginate(script, uri, limit, pageLimit, page, results);
      |run.data| <= |run.pages| && (run.outcome.Done? ==> |run.data| == |run.pages|)
    decreases |script|
  {
    PaginateShape(script, uri, limit, pageLimit, page, results);
    var x := Retry(script);
    if x.outcome.Done? {
      var data := x.outcome.value.data;
      if data != [] && page + 1 < pageLimit {
        PaginateAnswered(script[x.replies..], uri, limit, pageLimit, page + 1, results + data);
      }
    }
  }

  /** No page but the last is empty. */
  predicate OnlyLastEmpty(data: seq<seq<Record>>)
  {
    forall i :: 0 <= i < |data| - 1 ==> data[i] != []
  }

  /** Only the last page answered can be empty: the run stops at the first empty page. */
  lemma {:induction false} PaginateStopsAtEmpty(script: seq<Reply>, uri: string, limit: Param, pageLimit: int,
                                                page: nat, results: seq<Record>)
    ensures OnlyLastEmpty(Paginate(script, uri, limit, pageLimit, page, results).data)
    decreases |script|
  {
    PaginateShape(script, uri, limit, pageLimit, page, results);
    var x := Retry(script);
    if x.outcome.Done? {
      var data := x.outcome.value.data;
      if data != [] && page + 1 < pageLimit {
        var tail := script[x.replies..];
        PaginateStopsAtEmpty(tail, uri, limit, pageLimit, page + 1, results + data);
        var rest := Paginate(tail, uri, limit, pageLimit, page + 1, results + data);
        OnlyLastEmptyCons(data, rest.data);
      }
    }
  }

  lemma OnlyLastEmptyCons(data: seq<Record>, rest: seq<seq<Record>>)
    requires data != [] && OnlyLastEmpty(rest)
    ensures OnlyLastEmpty([data] + rest)
  {
    var all := [data] + rest;
    forall i | 0 <= i < |all| - 1 ensures all[i] != [] {
      if i > 0 {
        assert all[i] == rest[i - 1];
      }
    }
  }

  /**
   * The loop ends only on an empty page or on the page counter: a run that
   * completes before its page budget is spent ended on an empty page.
   */
  lemma {:induction false} PaginateEndsEarlyOnEmpty(script: seq<Reply>, uri: string, limit: Param, pageLimit: int,
                                                    page: nat, results: seq<Record>)
    ensures var run := Paginate(script, uri, limit, pageLimit, page, results);
      run.outcome.Done? && |run.pages| < pageLimit - page ==> run.data[|run.data| - 1] == []
    decreases |script|
  {
    PaginateShape(script, uri, limit, pageLimit, page, results);
    var run := Paginate(script, uri, limit, pageLimit, page, results);
    var x := Retry(script);
    if x.outcome.Done? {
      var data := x.outcome.value.data;
      if data != [] && page + 1 < pageLimit {
        var tail := script[x.replies..];
        var rest := Paginate(tail, uri, limit, pageLimit, page + 1, results + data);
        assert run.outcome == rest.outcome && run.pages == [page] + rest.pages && run.data == [data] + rest.data;
        if run.outcome.Done? && |run.pages| < pageLimit - page {
          PaginateEndsEarlyOnEmpty(tail, uri, limit, pageLimit, page + 1, results + data);
          PaginateAnswered(tail, uri, limit, pageLimit, page + 1, results + data);
          assert run.data[|run.data| - 1] == rest.data[|rest.data| - 1];
        }
      } else if data != [] {
        assert run.pages == [page];
      }
    }
  }

  /** Sequence concatenation is associative. */
  lemma ConcatAssoc<T>(a: seq<T>, b: seq<T>, c: seq<T>)
    ensures (a + b) + c == a + (b + c)
  {
  }

  /**
   * What the loop of `paginateRequest` keeps: the requests sent so far (`sent`), the replies
   * used so far (`consumed`) and the run still ahead from `page` with `results` together make
   * up the whole run `whole`.
   */
  ghost predicate Tracks(whole: PageRun, consumed: nat, sent: seq<Request>, script: seq<Reply>, uri: string,
                         limit: Param, pageLimit: int, page: nat, results: seq<Record>)
  {
    var tail := Paginate(script, uri, limit, pageLimit, page, results);
    whole.outcome == tail.outcome && whole.replies == consumed + tail.replies && whole.sent == sent + tail.sent
  }

  /**
   * One turn of the loop of `paginateRequest`: a page that is not answered ends the whole run
   * with that failure, an empty page or the page limit ends it with the results so far, and
   * otherwise the loop goes on with the next page.
   */
  lemma TrackTurn(whole: PageRun, consumed: nat, sent: seq<Request>, script: seq<Reply>, uri: string,
                  limit: Param, pageLimit: int, page: nat, results: seq<Record>)
    requires Tracks(whole, consumed, sent, script, uri, limit, pageLimit, page, results)
    ensures var x := Retry(script);
      var sent' := sent + Repeat(PageRequest(uri, limit, page), Issued(x));
      (!x.outcome.Done? ==>
        whole.outcome == Abandon(x.outcome) && whole.replies == consumed + x.replies && whole.sent == sent') &&
      (x.outcome.Done? && x.outcome.value.data == [] ==>
        whole.outcome == Done(results) && whole.replies == consumed + x.replies && whole.sent == sent') &&
      (x.outcome.Done? && x.outcome.value.data != [] && page + 1 >= pageLimit ==>
        whole.outcome == Done(results + x.outcome.value.data) && whole.replies == consumed + x.replies &&
        whole.sent == sent') &&
      (x.outcome.Done? && x.outcome.value.data != [] && page + 1 < pageLimit ==>
        Tracks(whole, consumed + x.replies, sent', script[x.replies..], uri, limit, pageLimit, page + 1,
               results + x.outcome.value.data))
  {
    var x := Retry(script);
    PaginateStep(script, uri, limit, pageLimit, page, results);
    var request := Repeat(PageRequest(uri, limit, page), Issued(x));
    if x.outcome.Done? && x.outcome.value.data != [] && page + 1 < pageLimit {
      var rest := Paginate(script[x.replies..], uri, limit, pageLimit, page + 1, results + x.outcome.value.data);
      ConcatAssoc(sent, request, rest.sent);
    }
  }

  /** A completed run returns the data of the pages answered, in order, after `results`. */
  lemma {:induction false} PaginateResults(script: seq<Reply>, uri: string, limit: Param, pageLimit: int,
                                           page: nat, results: seq<Record>)
    ensures var run := Paginate(script, uri, limit, pageLimit, page, results);
      run.outcome.Done? ==> run.outcome.value == results + Flatten(run.data)
    decreases |script|
  {
    PaginateShape(script, uri, limit, pageLimit, page, results);
    var x := Retry(script);
    if x.outcome.Done? {
      var data := x.outcome.value.data;
      if data != [] && page + 1 < pageLimit {
        var tail := script[x.replies..];
        PaginateResults(tail, uri, limit, pageLimit, page + 1, results + data);
        var rest := Paginate(tail, uri, limit, pageLimit, page + 1, results + data);
        var all := [data] + rest.data;
        var run := Paginate(script, uri, limit, pageLimit, page, results);
        assert run.outcome == rest.outcome && run.data == all;
        assert all[1..] == rest.data;
        assert Flatten(all) == data + Flatten(rest.data);
        ConcatAssoc(results, data, Flatten(rest.data));
      } else if data != [] {
        assert [data][1..] == [];
        assert Flatten([data]) == data + Flatten([]);
      } else {
        assert Flatten([[]]) == [] + Flatten([]);
      }
    }
  }

  /** The requests of a run, page by page: each page's request, as many times as it was issued. */
  function PageSends(uri: string, limit: Param, pages: seq<nat>, attempts: seq<Attempts>): (sent: seq<Request>)
    requires |pages| == |attempts|
    ensures pages == [] ==> sent == []
    ensures pages != [] ==> |sent| >= Issued(attempts[0]) && sent[..Issued(attempts[0])] == Repeat(PageRequest(uri, limit, pages[0]), Issued(attempts[0]))
  {
    if pages == [] then []
    else Repeat(PageRequest(uri, limit, pages[0]), Issued(attempts[0])) + PageSends(uri, limit, pages[1..], attempts[1..])
  }

  /** The replies used by consecutive retry runs. */
  function Used(attempts: seq<Attempts>): (n: nat)
  {
    if attempts == [] then 0 else attempts[0].replies + Used(attempts[1..])
  }

  /** Consecutive retry runs over `script`: each page's run starts at the reply where the previous page's stopped. */
  ghost predicate Follows(script: seq<Reply>, attempts: seq<Attempts>)
    decreases |attempts|
  {
    attempts == [] ||
    (attempts[0] == Retry(script) && Follows(script[attempts[0].replies..], attempts[1..]))
  }

  /**
   * What a run asks of the server: one retry run per page requested, each
   * over the replies the earlier pages left, each issuing its page's request
   * at least once; the requests sent are those, page by page, and the
   * replies used are theirs.
   */
  lemma {:induction false} PaginateLog(script: seq<Reply>, uri: string, limit: Param, pageLimit: int,
                                       page: nat, results: seq<Record>)
    ensures var run := Paginate(script, uri, limit, pageLimit, page, results);
      |run.attempts| == |run.pages| && Follows(script, run.attempts) &&
      (forall i :: 0 <= i < |run.attempts| ==> Issued(run.attempts[i]) >= 1) &&
      run.sent == PageSends(uri, limit, run.pages, run.attempts) &&
      run.replies == Used(run.attempts)
    decreases |script|
  {
    PaginateShape(script, uri, limit, pageLimit, page, results);
    var run := Paginate(script, uri, limit, pageLimit, page, results);
    var x := Retry(script);
    var sent := Repeat(PageRequest(uri, limit, page), Issued(x));
    if x.outcome.Done? && x.outcome.value.data != [] && page + 1 < pageLimit {
      var data := x.outcome.value.data;
      var tail := script[x.replies..];
      PaginateLog(tail, uri, limit, pageLimit, page + 1, results + data);
      var rest := Paginate(tail, uri, limit, pageLimit, page + 1, results + data);
      assert run.pages == [page] + rest.pages && run.attempts == [x] + rest.attempts;
      assert run.sent == sent + rest.sent && run.replies == x.replies + rest.replies;
      assert run.pages[1..] == rest.pages && run.attempts[1..] == rest.attempts;
      forall i | 0 <= i < |run.attempts| ensures Issued(run.attempts[i]) >= 1 {
        if i > 0 { assert run.attempts[i] == rest.attempts[i - 1]; }
      }
    } else {
      assert run.pages == [page] && run.attempts == [x] && run.sent == sent && run.replies == x.replies;
      assert run.pages[1..] == [] && run.attempts[1..] == [];
    }
  }

  /** The data of each page answered is the data of the reply that ended that page's retry run. */
  lemma {:induction false} PaginateData(script: seq<Reply>, uri: string, limit: Param, pageLimit: int,
                                        page: nat, results: seq<Record>)
    ensures var run := Paginate(script, uri, limit, pageLimit, page, results);
      |run.data| <= |run.attempts| &&
      forall i :: 0 <= i < |run.data| ==>
        run.attempts[i].outcome.Done? && run.data[i] == run.attempts[i].outcome.value.data
    decreases |script|
  {
    PaginateShape(script, uri, limit, pageLimit, page, results);
    var run := Paginate(script, uri, limit, pageLimit, page, results);
    var x := Retry(script);
    if x.outcome.Done? && x.outcome.value.data != [] && page + 1 < pageLimit {
      var data := x.outcome.value.data;
      var tail := script[x.replies..];
      PaginateData(tail, uri, limit, pageLimit, page + 1, results + data);
      var rest := Paginate(tail, uri, limit, pageLimit, page + 1, results + data);
      assert run.attempts == [x] + rest.attempts && run.data == [data] + rest.data;
      forall i | 0 <= i < |run.data|
        ensures run.attempts[i].outcome.Done? && run.data[i] == run.attempts[i].outcome.value.data
      {
        if i > 0 { assert run.attempts[i] == rest.attempts[i - 1] && run.data[i] == rest.data[i - 1]; }
      }
    }
  }

  /** With one page configured (or two), exactly one page is requested. */
  lemma OnePage(script: seq<Reply>, uri: string, limit: Param, pageLimit: int)
    requires pageLimit <= 2
    ensures Paginate(script, uri, limit, pageLimit, 1, []).pages == [1]
  {
  }

  /** An empty first page ends the run at once, with no results, whatever the page budget. */
  lemma EmptyFirstPage(script: seq<Reply>, uri: string, limit: Param, pageLimit: int)
    requires Retry(script).outcome == Done(Payload([]))
    ensures Paginate(script, uri, limit, pageLimit, 1, []).outcome == Done([])
    ensures Paginate(script, uri, limit, pageLimit, 1, []).pages == [1]
  {
  }
}
