/**
 * The request handler of src/proxy.ts: the `fetch` entry point of the worker.
 *
 * A request runs through a fixed sequence of exits and leaves at the first
 * that applies: the root ping, a cache hit, a failed authorization, a failed
 * HEAD probe, and finally the size fork between a redirect to a signed URL
 * and a streamed, cached response.
 *
 * `Handle` states the whole decision as a function of the request, the
 * configuration, the cache contents and the collaborators' replies; `Fetch`
 * is the handler itself, over a `Cache` object that it reads and writes, and
 * is proved to behave as `Handle` says. The lemmas below state each exit.
 */
module Proxy {
  import opened B2
  import opened Urls

  /** Objects above this many bytes are not streamed through the worker. */
  const MaxWorkerSize: int := 100 * 1024 * 1024

  /** Validity of the signed download authorization, in seconds. */
  const SignedUrlValidSecs: int := 10 * 60

  /** The name `Cache-Control` as a `Headers` object stores it. */
  const CacheControlHeader: string := "cache-control"

  const AuthHeaderMessage: string := "Error: AUTH_HEADER is not correctly set"
  const AuthFailedMessage: string := "B2 authorization failed"
  const NotFoundMessage: string := "Not found"
  const SignedUrlFailurePrefix: string := "Failed to generate signed download url: "

  /** An inbound request: its URL, which keys the cache, and the URL's path. */
  datatype Request = Request(url: string, pathname: string)

  /** The worker's configuration. */
  datatype Env = Env(authHeader: string, bucketName: string, bucketId: string, cacheControl: string)

  /**
   * The two library encoders the handler relies on: the form encoding that
   * `URLSearchParams` applies to a value, and `encodeURIComponent`.
   */
  datatype Encoders = Encoders(searchParamValue: string -> string, uriComponent: string -> string)

  /** What the collaborators answer during one request. */
  datatype Replies = Replies(account: Account, head: HeadResponse, grant: GrantOutcome, get: GetResponse)

  /** The responses the handler returns. */
  datatype Response =
    | Text(status: int, text: string)
    | Redirect(location: string, status: int)
    | Streamed(status: int, headers: Headers, body: Bytes)

  /** The outside calls the handler makes, with their arguments, in order. */
  datatype Call =
    | CacheMatch(request: Request)
    | AuthorizeAccount(auth: string)
    | Head(url: string, token: string)
    | GetDownloadAuthorization(apiUrl: string, token: string, bucketId: string, fileName: string, validSecs: int)
    | Get(url: string, token: string)
    | CachePut(request: Request, response: Response)
  {
    /** A call that reaches B2 over the network. */
    predicate IsBackendCall()
    {
      AuthorizeAccount? || Head? || GetDownloadAuthorization? || Get?
    }
  }

  /** The outcome of one request: the response, the calls made, the cache afterwards. */
  datatype Step = Step(response: Response, trace: seq<Call>, entries: map<Request, Response>)

  /** `parseInt(headResp.headers.get("content-length") || "0")`, with NaN read as 0. */
  function ContentSize(head: HeadResponse): (size: int)
    ensures head.contentLength.Some? ==> size == head.contentLength.value
    ensures head.contentLength.None? ==> size == 0
  {
    match head.contentLength
    case Some(n) => n
    case None => 0
  }

  /** `err?.message || err` as it reads when concatenated to a string. */
  function Describe(err: ErrorValue): (text: string)
    ensures err.message != "" ==> text == err.message
    ensures err.message == "" ==> text == err.name
  {
    if err.message != "" then err.message else err.name
  }

  /** The authorization record lets the handler go on to the probe. */
  predicate Authorized(account: Account)
    ensures Authorized(account) <==>
              && (account.ok || account.status != 401)
              && account.downloadUrl !in {None, Some("")}
              && account.authorizationToken !in {None, Some("")}
  {
    !(!account.ok && account.status == 401) && Truthy(account.downloadUrl) && Truthy(account.authorizationToken)
  }

  /** The request is neither the root ping nor served from the cache. */
  predicate Miss(request: Request, entries: map<Request, Response>)
  {
    request.pathname != "/" && request !in entries
  }

  /** `b2urlWithParams` for a request under an authorized account. */
  function B2UrlWithParams(request: Request, env: Env, enc: Encoders, account: Account): (url: string)
    requires Truthy(account.downloadUrl)
    ensures ObjectUrl(account.downloadUrl.value, env.bucketName, request.pathname) + "?" <= url
    ensures url[|ObjectUrl(account.downloadUrl.value, env.bucketName, request.pathname) + "?"|..]
            == CacheControlQuery(env.cacheControl, enc.searchParamValue)
  {
    ObjectUrlWithQuery(account.downloadUrl.value, env.bucketName, request.pathname,
                       CacheControlQuery(env.cacheControl, enc.searchParamValue))
  }

  /** A response the handler stores: streamed, with the configured cache policy. */
  predicate StoredWithPolicy(response: Response, cacheControl: string)
  {
    response.Streamed? && CacheControlHeader in response.headers && response.headers[CacheControlHeader] == cacheControl
  }

  /**
   * The handler's decision for one request. The cache changes only by storing
   * the returned response under a request that missed, and only a streamed
   * response carrying the configured cache policy is stored.
   */
  function Handle(request: Request, env: Env, enc: Encoders, entries: map<Request, Response>, replies: Replies): (s: Step)
    ensures (s.trace == []) == (request.pathname == "/")
    ensures s.trace != [] ==> s.trace[0] == CacheMatch(request)
    ensures s.entries == entries || (Miss(request, entries) && s.entries == entries[request := s.response])
    ensures s.entries != entries ==> StoredWithPolicy(s.response, env.cacheControl)
    ensures Miss(request, entries) && s.response.Redirect? ==> s.response.status == 302
  {
    if request.pathname == "/" then
      Step(Text(200, "ok"), [], entries)
    else if request in entries then
      Step(entries[request], [CacheMatch(request)], entries)
    else
      var account := replies.account;
      var authorizing := [CacheMatch(request)] + [AuthorizeAccount(env.authHeader)];
      if !account.ok && account.status == 401 then
        Step(Text(401, AuthHeaderMessage), authorizing, entries)
      else if !Truthy(account.downloadUrl) || !Truthy(account.authorizationToken) then
        Step(Text(502, AuthFailedMessage), authorizing, entries)
      else
        var token := account.authorizationToken.value;
        var url := B2UrlWithParams(request, env, enc, account);
        var probing := authorizing + [Head(url, token)];
        if !IsOkStatus(replies.head.status) then
          Step(Text(404, NotFoundMessage), probing, entries)
        else if ContentSize(replies.head) > MaxWorkerSize then
          var granting := probing + [GetDownloadAuthorization(ApiUrl(account.apiUrl, account.downloadUrl.value), token,
                                                              env.bucketId, StripLeadingSlash(request.pathname),
                                                              SignedUrlValidSecs)];
          match replies.grant
          case Granted(dlAuth) =>
            Step(Redirect(SignedUrl(url, enc.uriComponent(dlAuth)), 302), granting, entries)
          case Thrown(err) =>
            Step(Text(500, SignedUrlFailurePrefix + Describe(err)), granting, entries)
        else
          var get := replies.get;
          var response := Streamed(get.status, get.headers[CacheControlHeader := env.cacheControl], get.body);
          Step(response, probing + [Get(url, token)] + [CachePut(request, response)], entries[request := response])
  }

  /** The worker's shared cache (`caches.default`): responses keyed by request. */
  class Cache {
    var entries: map<Request, Response>

    constructor ()
      ensures entries == map[]
    {
      entries := map[];
    }

    /** `cache.match(request)` */
    method Match(request: Request) returns (cached: Option<Response>)
      ensures cached.Some? <==> request in entries
      ensures cached.Some? ==> cached.value == entries[request]
    {
      if request in entries {
        cached := Some(entries[request]);
      } else {
        cached := None;
      }
    }

    /** `cache.put(request, response)`, taken as completed. */
    method Put(request: Request, response: Response)
      modifies this
      ensures entries == old(entries)[request := response]
    {
      entries := entries[request := response];
    }
  }

  /** The `fetch` handler: serves one request against the shared cache. */
  method Fetch(request: Request, env: Env, enc: Encoders, replies: Replies, cache: Cache)
    returns (response: Response, trace: seq<Call>)
    modifies cache
    ensures var s := Handle(request, env, enc, old(cache.entries), replies);
            response == s.response && trace == s.trace && cache.entries == s.entries
  {
    if request.pathname == "/" {
      return Text(200, "ok"), [];
    }

    ghost var expected := Handle(request, env, enc, cache.entries, replies);
    var cached := cache.Match(request);
    trace := [CacheMatch(request)];
    if cached.Some? {
      return cached.value, trace;
    }

    var account := replies.account;
    trace := trace + [AuthorizeAccount(env.authHeader)];
    if !account.ok && account.status == 401 {
      return Text(401, AuthHeaderMessage), trace;
    }
    if !Truthy(account.downloadUrl) || !Truthy(account.authorizationToken) {
      return Text(502, AuthFailedMessage), trace;
    }

    var token := account.authorizationToken.value;
    var b2urlWithParams := B2UrlWithParams(request, env, enc, account);

    trace := trace + [Head(b2urlWithParams, token)];
    var headResp := replies.head;
    if !IsOkStatus(headResp.status) {
      return Text(404, NotFoundMessage), trace;
    }
    var size := ContentSize(headResp);

    if size > MaxWorkerSize {
      var apiUrl := ApiUrl(account.apiUrl, account.downloadUrl.value);
      var fileName := StripLeadingSlash(request.pathname);
      trace := trace + [GetDownloadAuthorization(apiUrl, token, env.bucketId, fileName, SignedUrlValidSecs)];
      match replies.grant
      case Granted(dlAuth) =>
        var signedUrl := SignedUrl(b2urlWithParams, enc.uriComponent(dlAuth));
        return Redirect(signedUrl, 302), trace;
      case Thrown(err) =>
        return Text(500, SignedUrlFailurePrefix + Describe(err)), trace;
    }

    trace := trace + [Get(b2urlWithParams, token)];
    var b2Resp := replies.get;
    var headers := b2Resp.headers;
    headers := headers[CacheControlHeader := env.cacheControl];
    response := Streamed(b2Resp.status, headers, b2Resp.body);
    cache.Put(request, response);
    trace := trace + [CachePut(request, response)];
  }

  /** The root path is answered 200 "ok" before the cache or B2 is consulted. */
  lemma RootPing(request: Request, env: Env, enc: Encoders, entries: map<Request, Response>, replies: Replies)
    requires request.pathname == "/"
    ensures Handle(request, env, enc, entries, replies) == Step(Text(200, "ok"), [], entries)
  {
  }

  /** A cached response is returned as stored; B2 is not contacted and the cache is left alone. */
  lemma CacheHit(request: Request, env: Env, enc: Encoders, entries: map<Request, Response>, replies: Replies)
    requires request.pathname != "/" && request in entries
    ensures var s := Handle(request, env, enc, entries, replies);
            s == Step(entries[request], [CacheMatch(request)], entries)
            && forall i :: 0 <= i < |s.trace| ==> !s.trace[i].IsBackendCall()
  {
  }

  /** B2 rejecting the credential with 401 is answered 401; nothing follows the authorization. */
  lemma AuthHeaderRejected(request: Request, env: Env, enc: Encoders, entries: map<Request, Response>, replies: Replies)
    requires Miss(request, entries)
    requires !replies.account.ok && replies.account.status == 401
    ensures Handle(request, env, enc, entries, replies)
            == Step(Text(401, AuthHeaderMessage), [CacheMatch(request), AuthorizeAccount(env.authHeader)], entries)
  {
  }

  /**
   * Any other authorization record lacking the download URL or the token is
   * answered 502, and no probe follows.
   */
  lemma AuthorizationFailed(request: Request, env: Env, enc: Encoders, entries: map<Request, Response>, replies: Replies)
    requires Miss(request, entries)
    requires !(!replies.account.ok && replies.account.status == 401)
    requires !Truthy(replies.account.downloadUrl) || !Truthy(replies.account.authorizationToken)
    ensures Handle(request, env, enc, entries, replies)
            == Step(Text(502, AuthFailedMessage), [CacheMatch(request), AuthorizeAccount(env.authHeader)], entries)
  {
  }

  /** In particular every rejected authorization other than a 401 is answered 502. */
  lemma RejectedAuthorizationIsBadGateway(request: Request, env: Env, enc: Encoders, entries: map<Request, Response>,
                                          replies: Replies, status: int)
    requires Miss(request, entries)
    requires !IsOkStatus(status) && status != 401
    requires replies.account == RejectedAccount(status)
    ensures Handle(request, env, enc, entries, replies).response == Text(502, AuthFailedMessage)
  {
  }

  /**
   * An accepted authorization whose download URL or token is the empty string
   * is treated as lacking it: the empty string is falsy, so the answer is 502
   * and no probe follows.
   */
  lemma EmptyFieldIsMissing(request: Request, env: Env, enc: Encoders, entries: map<Request, Response>,
                            replies: Replies, status: int, downloadUrl: Option<string>, token: Option<string>,
                            apiUrl: Option<string>)
    requires Miss(request, entries)
    requires IsOkStatus(status) && (downloadUrl == Some("") || token == Some(""))
    requires replies.account == AcceptedAccount(status, downloadUrl, token, apiUrl)
    ensures Handle(request, env, enc, entries, replies)
            == Step(Text(502, AuthFailedMessage), [CacheMatch(request), AuthorizeAccount(env.authHeader)], entries)
  {
  }

  /** On a miss, the handler goes on to probe the object exactly when the authorization is usable. */
  lemma ProbeExactlyWhenAuthorized(request: Request, env: Env, enc: Encoders, entries: map<Request, Response>,
                                   replies: Replies)
    requires Miss(request, entries)
    ensures var s := Handle(request, env, enc, entries, replies);
            Authorized(replies.account) <==> |s.trace| >= 3 && s.trace[2].Head?
  {
    var s := Handle(request, env, enc, entries, replies);
    if Authorized(replies.account) {
      ProbeFollowsAuthorization(request, env, enc, entries, replies);
      assert s.trace[2] == s.trace[..3][2];
    } else {
      assert |s.trace| == 2;
    }
  }

  /** A failed HEAD probe is answered 404; no grant or GET follows and the cache is left alone. */
  lemma ObjectNotFound(request: Request, env: Env, enc: Encoders, entries: map<Request, Response>, replies: Replies)
    requires Miss(request, entries) && Authorized(replies.account)
    requires !IsOkStatus(replies.head.status)
    ensures var token := replies.account.authorizationToken.value;
            var url := B2UrlWithParams(request, env, enc, replies.account);
            Handle(request, env, enc, entries, replies)
            == Step(Text(404, NotFoundMessage),
                    [CacheMatch(request), AuthorizeAccount(env.authHeader), Head(url, token)], entries)
  {
    var token := replies.account.authorizationToken.value;
    var url := B2UrlWithParams(request, env, enc, replies.account);
    var probing := [CacheMatch(request)] + [AuthorizeAccount(env.authHeader)] + [Head(url, token)];
    assert Handle(request, env, enc, entries, replies) == Step(Text(404, NotFoundMessage), probing, entries);
    assert probing == [CacheMatch(request), AuthorizeAccount(env.authHeader), Head(url, token)];
  }

  /** Under a usable authorization the third call is always the HEAD probe of `b2urlWithParams`. */
  lemma ProbeFollowsAuthorization(request: Request, env: Env, enc: Encoders, entries: map<Request, Response>,
                                  replies: Replies)
    requires Miss(request, entries) && Authorized(replies.account)
    ensures var s := Handle(request, env, enc, entries, replies);
            && |s.trace| >= 3
            && s.trace[..3] == [CacheMatch(request), AuthorizeAccount(env.authHeader),
                                Head(B2UrlWithParams(request, env, enc, replies.account),
                                     replies.account.authorizationToken.value)]
  {
    var s := Handle(request, env, enc, entries, replies);
    var url := B2UrlWithParams(request, env, enc, replies.account);
    var probing := [CacheMatch(request)] + [AuthorizeAccount(env.authHeader)]
                   + [Head(url, replies.account.authorizationToken.value)];
    if !IsOkStatus(replies.head.status) {
      assert s.trace == probing;
    } else if ContentSize(replies.head) > MaxWorkerSize {
      assert s.trace == probing + [s.trace[3]];
    } else {
      assert s.trace == probing + s.trace[3..];
    }
    assert s.trace[..3] == probing;
  }

  /**
   * An accepted authorization whose download URL and token are non-empty
   * always reaches the HEAD probe, which is sent to the object URL, with the
   * configured cache policy as its `b2CacheControl` query value.
   */
  lemma AcceptedAccountReachesProbe(request: Request, env: Env, enc: Encoders, entries: map<Request, Response>,
                                    replies: Replies, status: int, downloadUrl: string, token: string,
                                    apiUrl: Option<string>)
    requires Miss(request, entries)
    requires IsOkStatus(status) && downloadUrl != "" && token != ""
    requires replies.account == AcceptedAccount(status, Some(downloadUrl), Some(token), apiUrl)
    ensures var s := Handle(request, env, enc, entries, replies);
            var objectUrl := ObjectUrl(downloadUrl, env.bucketName, request.pathname);
            && |s.trace| >= 3
            && s.trace[..2] == [CacheMatch(request), AuthorizeAccount(env.authHeader)]
            && s.trace[2] == Head(objectUrl + "?b2CacheControl=" + enc.searchParamValue(env.cacheControl), token)
  {
    ProbeFollowsAuthorization(request, env, enc, entries, replies);
    var s := Handle(request, env, enc, entries, replies);
    var url := B2UrlWithParams(request, env, enc, replies.account);
    assert s.trace[..2] == s.trace[..3][..2];
    assert s.trace[2] == s.trace[..3][2] == Head(url, token);
    assert url == ObjectUrlWithQuery(downloadUrl, env.bucketName, request.pathname,
                                     CacheControlQuery(env.cacheControl, enc.searchParamValue));
    PolicyFollowsObjectUrl(downloadUrl, env.bucketName, request.pathname, env.cacheControl, enc.searchParamValue);
  }

  /**
   * After a successful probe the handler redirects (or fails to) exactly when
   * the size exceeds 104857600 bytes, and streams and stores otherwise.
   */
  lemma SizeFork(request: Request, env: Env, enc: Encoders, entries: map<Request, Response>, replies: Replies)
    requires Miss(request, entries) && Authorized(replies.account)
    requires IsOkStatus(replies.head.status)
    ensures var s := Handle(request, env, enc, entries, replies);
            && (ContentSize(replies.head) > 104857600 <==> s.trace[|s.trace| - 1].GetDownloadAuthorization?)
            && (ContentSize(replies.head) > 104857600 <==> !s.response.Streamed?)
            && (ContentSize(replies.head) > 104857600 <==> s.entries == entries)
  {
  }

  /** A missing content-length, and a size of exactly 100 MiB, take the streaming path. */
  lemma AtThresholdStreams(request: Request, env: Env, enc: Encoders, entries: map<Request, Response>, replies: Replies)
    requires Miss(request, entries) && Authorized(replies.account)
    requires IsOkStatus(replies.head.status)
    requires replies.head.contentLength == None || replies.head.contentLength == Some(104857600)
    ensures Handle(request, env, enc, entries, replies).response.Streamed?
  {
  }

  /**
   * A large object is redirected to its B2 URL with `&Authorization=` and the
   * encoded grant token appended. The grant is requested for 600 seconds,
   * for the path without its leading slash, at the API URL or, lacking one,
   * at the download URL without a trailing `/file`.
   */
  lemma SignedRedirect(request: Request, env: Env, enc: Encoders, entries: map<Request, Response>, replies: Replies)
    requires Miss(request, entries) && Authorized(replies.account)
    requires IsOkStatus(replies.head.status) && ContentSize(replies.head) > MaxWorkerSize
    requires replies.grant.Granted?
    ensures var account := replies.account;
            var token := account.authorizationToken.value;
            var url := B2UrlWithParams(request, env, enc, account);
            var s := Handle(request, env, enc, entries, replies);
            && s.response == Redirect(url + "&Authorization=" + enc.uriComponent(replies.grant.token), 302)
            && s.entries == entries
            && |s.trace| == 4
            && s.trace[..3] == [CacheMatch(request), AuthorizeAccount(env.authHeader), Head(url, token)]
            && var grant := s.trace[3];
            && grant.GetDownloadAuthorization?
            && grant.token == token && grant.bucketId == env.bucketId && grant.validSecs == 600
            && (if |request.pathname| > 0 && request.pathname[0] == '/'
                then "/" + grant.fileName == request.pathname
                else grant.fileName == request.pathname)
            && (Truthy(account.apiUrl) ==> grant.apiUrl == account.apiUrl.value)
            && (!Truthy(account.apiUrl) ==>
                  if EndsWith(account.downloadUrl.value, "/file")
                  then grant.apiUrl + "/file" == account.downloadUrl.value
                  else grant.apiUrl == account.downloadUrl.value)
  {
  }

  /** A grant that throws is answered 500 with the error's message after a fixed prefix. */
  lemma SignedUrlFailure(request: Request, env: Env, enc: Encoders, entries: map<Request, Response>, replies: Replies)
    requires Miss(request, entries) && Authorized(replies.account)
    requires IsOkStatus(replies.head.status) && ContentSize(replies.head) > MaxWorkerSize
    requires replies.grant.Thrown?
    ensures var s := Handle(request, env, enc, entries, replies);
            && s.response == Text(500, SignedUrlFailurePrefix + Describe(replies.grant.error))
            && SignedUrlFailurePrefix <= s.response.text
            && (replies.grant.error.message != "" ==>
                  s.response.text == SignedUrlFailurePrefix + replies.grant.error.message)
            && s.entries == entries
            && |s.trace| == 4 && s.trace[3].GetDownloadAuthorization?
  {
  }

  /**
   * An object of at most 100 MiB is fetched once and returned with the B2
   * response's status, body and headers, `Cache-Control` set to the configured
   * policy; the cache then maps the request to that response and nothing else
   * in it changes.
   */
  lemma StreamAndStore(request: Request, env: Env, enc: Encoders, entries: map<Request, Response>, replies: Replies)
    requires Miss(request, entries) && Authorized(replies.account)
    requires IsOkStatus(replies.head.status) && ContentSize(replies.head) <= MaxWorkerSize
    ensures var get := replies.get;
            var token := replies.account.authorizationToken.value;
            var url := B2UrlWithParams(request, env, enc, replies.account);
            var s := Handle(request, env, enc, entries, replies);
            && s.response.Streamed?
            && s.response.status == get.status && s.response.body == get.body
            && s.response.headers[CacheControlHeader] == env.cacheControl
            && (forall h :: h in get.headers && h != CacheControlHeader
                  ==> h in s.response.headers && s.response.headers[h] == get.headers[h])
            && s.response.headers.Keys == get.headers.Keys + {CacheControlHeader}
            && request in s.entries && s.entries[request] == s.response
            && (forall r :: r != request ==> (r in s.entries <==> r in entries))
            && (forall r :: r != request && r in entries ==> s.entries[r] == entries[r])
            && s.trace == [CacheMatch(request), AuthorizeAccount(env.authHeader), Head(url, token),
                           Get(url, token), CachePut(request, s.response)]
  {
    var token := replies.account.authorizationToken.value;
    var url := B2UrlWithParams(request, env, enc, replies.account);
    var get := replies.get;
    var response := Streamed(get.status, get.headers[CacheControlHeader := env.cacheControl], get.body);
    var probing := [CacheMatch(request)] + [AuthorizeAccount(env.authHeader)] + [Head(url, token)];
    assert Handle(request, env, enc, entries, replies)
           == Step(response, probing + [Get(url, token)] + [CachePut(request, response)], entries[request := response]);
    assert probing + [Get(url, token)] + [CachePut(request, response)]
           == [CacheMatch(request), AuthorizeAccount(env.authHeader), Head(url, token),
               Get(url, token), CachePut(request, response)];
  }
}
