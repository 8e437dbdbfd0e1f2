# Bigcommerce facade, modelled in Dafny

This project models the Laravel facade class `Oseintow\Bigcommerce\Bigcommerce`.
The facade wraps the Bigcommerce PHP API client. Its constructor picks a
connection mode (`oAuth` or `basicAuth`) from configuration. It keeps the store
hash, the access token and the API version, and builds request URIs of the
form `https://api.bigcommerce.com/stores/{hash}/{version}/{resource}`. The
magic `__call` routes `get`/`post`/`put`/`delete` to HTTP verb requests and any
other name to the legacy static collection client. A verb request is re-issued
while the server asks for a retry through `X-Retry-After`. `paginateRequest`
fetches pages 1, 2, … until a page comes back empty or the page limit is reached.

The model has five modules:

- `Wrappers` (wrappers.dfy): `Option`.
- `Text` (text.dfy): PHP `explode`/`implode` on one separator, proved to be
  inverses of each other. Also `LastSegment`, which is what `setStoreHash` keeps.
- `Http` (http.dfy): the two collaborators as small classes that record what
  they are asked to do.
  - `Connection` stands for the HTTP client. It records the header map and the
    requests sent, and it answers from a script of replies fixed in advance. These
    replies stand in for the network. When the script is exhausted the client
    answers nothing.
  - `CollectionResource` stands for the static legacy client. It records its
    `configure` settings and the calls made on it.
- `FacadeRules` (rules.dfy): the facade's decisions as pure functions.
  - Connection names are checked by `ParseConnection`.
  - The URI is built by `ApiUri` and parsed back by `ParseApiUri`.
  - `__call` routing is `Dispatch`.
  - The retry rule is `Retry`, over the reply script.
  - The legacy path is `CollectionOutcome`.
  - The page loop is `Paginate`.

  Lemmas state the promised properties about each of them.
- `Bigcommerce` (facade.dfy): class `Facade`, with the PHP class's fields and
  one method per modelled PHP method, plus `GetPage` for one turn of the page
  loop. Each method changes only what its `modifies` clause names.
  - Each ensures clause states the new value of every field. It does so through
    the snapshot `Fields`, in the form "old snapshot with these fields replaced".
  - The looping and recursive methods are proved against `Retry` and `Paginate`.
  - The invariant `Valid` is preserved throughout. It says that the client handle
    exists exactly in oAuth mode. That client carries `X-Auth-Client` with the
    client id. If it carries `X-Auth-Token`, that header holds the access token.
    `SetUpOAuth` sets only `X-Auth-Client`; `SetAccessToken` adds `X-Auth-Token`.

Two failure modes are modelled on top of the ordinary results:

- Calling a method on the null client handle is a PHP `Error`, not an
  `Exception`. The model calls it `NullHandle`. The facade's `catch (Exception)`
  does not catch it, and `Rewrap` lets it through.
- An exception from the client is re-thrown as the facade's own exception with
  the same message and code. This is `Rewrap`.

Two consequences of the code are worth stating, and the model keeps both:

- The page limit defaults to 1 (src/Bigcommerce/Bigcommerce.php:204). The loop
  increments the page counter (line 227) and then tests `currentPage < pageLimit`
  (line 228). A `pages` setting of `n` therefore yields at most `max(1, n − 1)`
  page requests, each re-issued while throttled. `Paginate` states this bound,
  and `OnePage` shows that a limit of 1 or 2 both give page 1 alone.
- A client handle is created only in oAuth mode (line 53). In basicAuth mode
  the constructor still calls `setAccessToken`, and its `addHeader` (line 108)
  is then called on null. `Construct` returns `Thrown(NullHandle)` in that mode.

PHP `null` strings are modelled as the empty string.

## Model

| member | source | states |
|---|---|---|
| Text.Explode | src/Bigcommerce/Bigcommerce.php:75 | `explode("/", s)` yields at least one part, no part contains the separator, and joining the parts with the separator gives back `s` |
| Text.ExplodePlain | src/Bigcommerce/Bigcommerce.php:75 | a string without the separator explodes to itself alone |
| Text.ExplodeCons | src/Bigcommerce/Bigcommerce.php:75 | `a + sep + b`, with no separator in `a`, explodes to `a` followed by the parts of `b` |
| Text.ExplodeImplode | src/Bigcommerce/Bigcommerce.php:75 | exploding the join of separator-free parts gives back exactly those parts (the other direction of the round trip) |
| Text.ImplodeLast | src/Bigcommerce/Bigcommerce.php:75-76 | the last part is a suffix of the joined string: the whole string for a single part, and preceded by a separator when there are more |
| Text.LastSegment | src/Bigcommerce/Bigcommerce.php:72-78 | the kept store hash is a suffix of the input and contains no `/`; when it is shorter than the input, it is preceded by `/` |
| Text.LastSegmentUnique | src/Bigcommerce/Bigcommerce.php:75-76 | those three properties determine the kept segment uniquely |
| Text.LastSegmentAfterLastSlash | src/Bigcommerce/Bigcommerce.php:75-76 | the kept segment is everything after the last `/` of the input |
| Text.LastSegmentOfPlain | src/Bigcommerce/Bigcommerce.php:72-78 | an input without `/` is kept unchanged |
| Text.LastSegmentTrailingSlash | src/Bigcommerce/Bigcommerce.php:72-78 | an input ending in `/` gives the empty store hash |
| Text.LastSegmentIdempotent | src/Bigcommerce/Bigcommerce.php:72-78 | setting the store hash to an already normalised hash changes nothing |
| Text.SplitFirst | src/Bigcommerce/Bigcommerce.php:170 | splitting at the first `c`: none exactly when `c` is absent, else a `c`-free head, `c`, and the rest make up the input |
| Text.SplitFirstOf | src/Bigcommerce/Bigcommerce.php:170 | splitting `a + c + b`, with no `c` in `a`, at the first `c` gives `(a, b)` |
| Http.Connection.constructor | src/Bigcommerce/Bigcommerce.php:53 | a new client has no headers, has sent nothing, and holds the given reply script |
| Http.Connection.AddHeader | src/Bigcommerce/Bigcommerce.php:57 | sets one header and leaves the other headers, the script and the sent log alone |
| Http.Connection.Send | src/Bigcommerce/Bigcommerce.php:128 | logs the request; answers the next scripted reply and consumes it, or answers nothing when the script is exhausted |
| Http.CollectionResource.constructor | src/Bigcommerce/Bigcommerce.php:7 | the legacy client starts unconfigured with no calls |
| Http.CollectionResource.Configure | src/Bigcommerce/Bigcommerce.php:62-66 | replaces the settings and makes no call |
| Http.CollectionResource.Invoke | src/Bigcommerce/Bigcommerce.php:160 | logs the static call by name and arguments, and returns its result |
| FacadeRules.Rewrap | src/Bigcommerce/Bigcommerce.php:141-143 | every exception leaves as the facade's exception with the same message and code; a result, or an `Error` such as the null handle, passes through unchanged |
| FacadeRules.RewrapIdempotent | src/Bigcommerce/Bigcommerce.php:163-165 | re-wrapping an already re-wrapped outcome changes nothing |
| FacadeRules.ParseConnection | src/Bigcommerce/Bigcommerce.php:33-41 | a name is accepted if and only if it is `"oAuth"` or `"basicAuth"`; an accepted mode's name is the input; anything else is the 403 "No connection set" error |
| FacadeRules.ParseModeName | src/Bigcommerce/Bigcommerce.php:35-41 | each mode's own name is accepted as that mode |
| FacadeRules.ApiUri | src/Bigcommerce/Bigcommerce.php:170 | the request URI is the base URL, `stores/`, the store hash, `/`, the version, `/` and the resource, concatenated; its properties are stated by `ApiUriShape`, `ApiUriRoundTrip` and `ParsedApiUri` |
| FacadeRules.ApiUriShape | src/Bigcommerce/Bigcommerce.php:168-173 | the URI starts with `https://api.bigcommerce.com/stores/`, ends with the resource, and is exactly two separators longer than its parts |
| FacadeRules.ApiUriRoundTrip | src/Bigcommerce/Bigcommerce.php:170 | store hash, version and resource can be read back from the URI whenever hash and version contain no `/` |
| FacadeRules.ParsedApiUri | src/Bigcommerce/Bigcommerce.php:170 | every URI that parses has `/`-free hash and version, and is rebuilt exactly from its parts |
| FacadeRules.VerbNamed | src/Bigcommerce/Bigcommerce.php:117-118 | a name is a verb if and only if it is one of `get`, `post`, `put`, `delete`, and its verb then carries that name |
| FacadeRules.Dispatch | src/Bigcommerce/Bigcommerce.php:115-123 | the four verb names, and only they, route to a verb request on `args[0]` with `args[1]` or null as filters; any other name routes to the legacy client with name and arguments unchanged |
| FacadeRules.DispatchVerb | src/Bigcommerce/Bigcommerce.php:117-119 | every verb's own name routes to that verb |
| FacadeRules.UriPart | src/Bigcommerce/Bigcommerce.php:170 | the route argument enters the URI as PHP's concatenation renders it: a string as itself, null as the empty string, an array as `"Array"` |
| FacadeRules.Throttled | src/Bigcommerce/Bigcommerce.php:130-131 | the two nested tests on `X-Retry-After` together hold exactly when the header is present and greater than zero |
| FacadeRules.Settle | src/Bigcommerce/Bigcommerce.php:128-143 | an unthrottled reply gives its data, and a client exception becomes the facade's exception with the same message and code |
| FacadeRules.Retry | src/Bigcommerce/Bigcommerce.php:125-143 | the call ends at the first reply without a positive `X-Retry-After` and returns that reply's settled outcome. It sleeps `X-Retry-After + 5` seconds for each throttled reply before it. It runs unanswered exactly when every reply is throttled |
| FacadeRules.RetryStep | src/Bigcommerce/Bigcommerce.php:130-135 | a throttled first reply costs one sleep of its value plus five and defers to the rest of the script; any other first reply ends the call |
| FacadeRules.RetrySkip | src/Bigcommerce/Bigcommerce.php:130-135 | any run of throttled replies before the rest leaves the outcome unchanged and only adds the replies it used |
| FacadeRules.RetrySkipSleeps | src/Bigcommerce/Bigcommerce.php:132 | the sleeps of a throttled prefix come first, followed by the sleeps of the rest |
| FacadeRules.RetriedOnce | src/Bigcommerce/Bigcommerce.php:130-135 | one throttled reply of `s` seconds followed by an ordinary one gives that second reply's outcome after one sleep of `s + 5` seconds, having used two replies |
| FacadeRules.CollectionOutcome | src/Bigcommerce/Bigcommerce.php:146-166 | version `"v3"` is refused with the 403 "does not support api version 3" error; otherwise the legacy result is returned, or its exception re-wrapped with message and code |
| FacadeRules.Version3Refused | src/Bigcommerce/Bigcommerce.php:157-158 | under `"v3"` the legacy call's result is irrelevant: the request always throws |
| FacadeRules.TokenForm | src/Bigcommerce/Bigcommerce.php:91-99 | the token form has exactly the seven keys the source posts, `grant_type` is `"authorization_code"`, and code, scope and context are passed through |
| FacadeRules.PageLimit | src/Bigcommerce/Bigcommerce.php:204 | the page limit is the `pages` setting, or 1 when it is absent |
| FacadeRules.PageSize | src/Bigcommerce/Bigcommerce.php:213 | the page size is the `limit` setting, or 50 when it is absent |
| FacadeRules.PageQuery | src/Bigcommerce/Bigcommerce.php:212-215 | a page's query has exactly the keys `limit` and `page`, holding the page size and the current page number |
| FacadeRules.Abandon | src/Bigcommerce/Bigcommerce.php:211-215 | a page that fails or goes unanswered ends the whole loop the same way: an unanswered page leaves it unanswered, and an exception leaves it as that exception |
| FacadeRules.Paginate | src/Bigcommerce/Bigcommerce.php:202-231 | at least one page is requested; the pages requested are consecutive from the first; at most `max(1, pageLimit − page)` pages are requested; no more replies are used than are scripted |
| FacadeRules.PaginateStep | src/Bigcommerce/Bigcommerce.php:210-228 | one turn of the loop, in four cases: a failed page ends the run with that failure, an empty page with the results so far, the page limit with the results plus this page; otherwise the run goes on from the next page with the results extended. Each turn sends this page's request once per attempt and uses that attempt's replies |
| FacadeRules.PaginateShape | src/Bigcommerce/Bigcommerce.php:210-228 | in the same four cases, the pages requested, the retry runs and the data collected: this page alone when the loop stops here, this page followed by the rest of the run otherwise |
| FacadeRules.PageSends | src/Bigcommerce/Bigcommerce.php:211-215 | the requests of a run start with the first page's request, repeated once per request its retry run issued |
| FacadeRules.PaginateLog | src/Bigcommerce/Bigcommerce.php:210-215 | each page requested has one retry run; the runs follow each other over the reply script; each issues its page's request at least once; the requests sent are, page by page, those copies; the replies used are the sum of the runs' replies |
| FacadeRules.PaginateData | src/Bigcommerce/Bigcommerce.php:211-225 | the data list of each page is the data of the reply that ended that page's retry run, and there is no more data than pages requested |
| FacadeRules.PaginateAnswered | src/Bigcommerce/Bigcommerce.php:210-228 | every answered page contributes one data list, and a completed run has one for every page requested |
| FacadeRules.PaginateStopsAtEmpty | src/Bigcommerce/Bigcommerce.php:217-220 | only the last page fetched can be empty: the loop stops at the first empty page |
| FacadeRules.PaginateEndsEarlyOnEmpty | src/Bigcommerce/Bigcommerce.php:217-228 | a completed run that stops before the page limit stopped on an empty page |
| FacadeRules.PaginateResults | src/Bigcommerce/Bigcommerce.php:222-230 | a completed run returns the results gathered so far followed by every page's data, in page order |
| FacadeRules.TrackTurn | src/Bigcommerce/Bigcommerce.php:210-228 | one turn of the page loop, in four cases. An unanswered or failed page ends the run with that failure. An empty page ends it with the results so far. Reaching the page limit ends it with the results plus this page. Otherwise the loop continues with the next page, the results extended by this page's data |
| FacadeRules.OnePage | src/Bigcommerce/Bigcommerce.php:204-228 | with a page limit of at most 2, including the default 1, exactly page 1 is requested |
| FacadeRules.EmptyFirstPage | src/Bigcommerce/Bigcommerce.php:218-219 | an empty first page gives an empty result after a single page |
| Bigcommerce.Facade.Valid | src/Bigcommerce/Bigcommerce.php:51-58 | the invariant every method keeps: a client exists exactly in oAuth mode, it carries `X-Auth-Client` with the client id, and any `X-Auth-Token` it carries (set at line 108) holds the access token |
| Bigcommerce.Facade.constructor | src/Bigcommerce/Bigcommerce.php:13-24 | a new object holds the declared defaults: version `"v3"`, every other field null, and no client handle |
| Bigcommerce.Facade.Construct | src/Bigcommerce/Bigcommerce.php:26-31 | an unknown connection throws "No connection set" (403) with nothing changed. In oAuth mode the object ends up with a fresh client carrying both auth headers, the oAuth credentials, the last segment of the store hash and the token. In basicAuth mode the legacy client is configured, hash and token are stored, and the call fails on the null handle |
| Bigcommerce.Facade.SetConnection | src/Bigcommerce/Bigcommerce.php:33-42 | a rejected name throws 403 "No connection set" and leaves every field unchanged; an accepted one records the mode and runs that mode's set-up |
| Bigcommerce.Facade.SetUpOAuth | src/Bigcommerce/Bigcommerce.php:51-58 | creates a fresh client whose only header is `X-Auth-Client` with the client id, stores the three oAuth settings, and changes nothing else |
| Bigcommerce.Facade.SetUpBasicAuth | src/Bigcommerce/Bigcommerce.php:60-67 | configures the legacy client with the store URL, user name and API key |
| Bigcommerce.Facade.SetStoreHash | src/Bigcommerce/Bigcommerce.php:72-78 | stores the input's last `/`-segment, changes nothing else, and returns the object itself |
| Bigcommerce.Facade.SetApiVersion | src/Bigcommerce/Bigcommerce.php:80-85 | changes only the version and returns the object itself |
| Bigcommerce.Facade.SetAccessToken | src/Bigcommerce/Bigcommerce.php:104-110 | stores the token and sets `X-Auth-Token` to it, leaving other headers, script and sent log alone, and returns the object. Without a client the token is still stored and the call fails on the null handle |
| Bigcommerce.Facade.GetAccessToken | src/Bigcommerce/Bigcommerce.php:87-102 | posts the token form to `https://login.bigcommerce.com/oauth2/token` once, with no retry and no re-wrap, and returns the reply as is |
| Bigcommerce.Facade.Call | src/Bigcommerce/Bigcommerce.php:115-123 | a verb name makes the retried verb request on the routed resource and filters: it returns `Retry`'s outcome, records the URI in `resourceUri`, consumes the replies used, sends the request once per attempt and touches nothing else, and without a client it fails on the null handle with nothing changed. Any other name gives the legacy outcome for the current version; in oAuth mode the legacy client is configured first, the legacy call is logged unless the version is `"v3"`, and the object's fields and the HTTP client are untouched |
| Bigcommerce.Facade.MakeHttpVerbRequest | src/Bigcommerce/Bigcommerce.php:125-144 | returns what `Retry` says about the reply script. The same request is sent once per reply used (plus one unanswered); the URI is recorded in `resourceUri`; nothing else changes |
| Bigcommerce.Facade.MakeCollectionRequest | src/Bigcommerce/Bigcommerce.php:146-166 | in oAuth mode the legacy client is first configured with client id, token and store hash. Then the outcome is `CollectionOutcome`, and the legacy call is made only when the version is not `"v3"` |
| Bigcommerce.Facade.GetPage | src/Bigcommerce/Bigcommerce.php:211-215 | sets the version, then makes one retried `get` with `limit` and `page` as the query; without a client it fails on the null handle with only the version changed |
| Bigcommerce.Facade.ResourceUri | src/Bigcommerce/Bigcommerce.php:168-173 | returns `ApiUri(storeHash, version, resource)`, records it in `resourceUri`, and changes nothing else |
| Bigcommerce.Facade.PaginateRequest | src/Bigcommerce/Bigcommerce.php:202-231 | runs the loop that `Paginate` describes on the client's reply script, with page limit default 1 and page size default 50. It returns that run's outcome and consumes exactly that run's replies. It sends exactly that run's requests, page by page as `PaginateLog` describes; version and `resourceUri` are the only fields it changes |

## Left out

- `verifyPeer`, `addHeader`, `removeHeader`, `getStatus`, `getHeaders` and `getHeader` (src/Bigcommerce/Bigcommerce.php:44-49, 175-200) only pass through to the HTTP client; they are not modelled.
- Reading configuration through Laravel's `Config::get` is not modelled: the values arrive as the `Config` parameter of `Construct`. The defaults in src/config/bigcommerce.php are not modelled either.
- The result shaping with `collect(...)` and `map` (src/Bigcommerce/Bigcommerce.php:138-139) is not modelled: a reply's data is returned as a sequence of records. The same holds for the `tap` helper.
- `sleep` is not modelled as time passing: the model keeps only each sleep's duration, as the `waits` output of `MakeHttpVerbRequest`.
- The network is a script of replies fixed in advance. A request that finds the script exhausted ends as `Unanswered`. In the source such a call might instead go on retrying for ever.
- `in_array`'s loose comparison of a non-string connection or method name is not modelled: names are strings.
- A non-numeric `X-Retry-After` value is not modelled: the header is an optional integer.
- A reply payload without a `data` key is not modelled: every payload has a data list.
- `makeHttpVerbRequest` is public, and PHP would accept it with a method name other than the four verbs. The model's `MakeHttpVerbRequest` takes a `Verb`.
- The legacy client's static methods are not part of this model. Their result is the `result` parameter of `Call` and `MakeCollectionRequest`.
- Bigcommerce.Facade.GetPage: the source's `get` goes through `__call`. The model calls `MakeHttpVerbRequest` directly, which is the method `__call` routes a `get` to.
- Bigcommerce.Facade.PaginateRequest: under version `"v2"` the verb request returns `collect($data)` without wrapping each value (src/Bigcommerce/Bigcommerce.php:138), so `$collection['data']` is a plain array and `->isEmpty()` at line 218 fails. The model does not tell versions apart here: it treats every page's data as a list and goes on.
- FacadeRules.Dispatch: the model follows PHP's default handling of warnings, under which a missing `$args[0]` (src/Bigcommerce/Bigcommerce.php:119) reads as null. Under Laravel's error handler that read throws an `ErrorException`, outside any `try`, and no request is made; the model instead routes the call with an empty resource.
- FacadeRules.UriPart: likewise, an array route argument renders as `"Array"` in the concatenation at line 170. Under Laravel's error handler the "Array to string conversion" warning throws inside the `try` of line 128, is re-thrown by line 142 with code 0, and neither `resourceUri` is assigned nor a request sent; the model instead sends the request to `…/Array` and records that URI.
- PHP `null` is the empty string for string fields. For the client handle it is Dafny's `null`.
