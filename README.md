# Caching B2 proxy worker: a Dafny model of its request handler

The worker sits in front of a Backblaze B2 bucket. For each request its
`fetch` handler (src/proxy.ts) leaves at the first exit that applies:

1. the root path `/` is answered `200 "ok"`;
2. a request found in the worker's shared cache is answered with the cached response;
3. the handler authorizes with B2: a 401 rejection is answered 401, and any other
   record lacking a download URL or a token is answered 502;
4. a HEAD probe of the object that is not ok is answered 404;
5. an object larger than 100 MiB (104857600 bytes, strictly greater) is answered
   with a 302 redirect to its B2 URL carrying a download authorization token that is
   valid for 600 seconds, or 500 if the token cannot be obtained; any other object is
   fetched, returned with `Cache-Control` set to the configured policy, and stored in
   the cache.

The model has four modules:

- `B2` (b2.dfy): the shapes of what B2 hands back. These are the record
  `authorizeAccount` resolves to, the HEAD and GET responses, and the outcome of
  `getDownloadAuthorization`, a token or a thrown error. It also covers JavaScript
  truthiness of an optional string and `Response.ok`.
- `Urls` (urls.dfy): the string derivations. These are the object URL with its
  `b2CacheControl` query, the file name with one leading `/` removed, the API URL
  fallback that drops a trailing `/file`, and the signed URL with its `&`/`?` choice.
- `Proxy` (proxy.dfy): `Handle`, the decision as a function of the request, the
  configuration, the cache contents and the collaborators' replies. It returns the
  response, the trace of outside calls in order, and the cache afterwards. `Cache` is
  the shared cache as a class whose map `Match` reads and `Put` writes. `Fetch` is the
  handler itself over a `Cache` object, proved to do what `Handle` says. One lemma
  states each exit.
- `History` (history.dfy): the cache across a run of requests served one after
  another under one configuration. In such a run a stored entry is never replaced,
  and repeating a stored request returns the same response with no call to B2.
  Starting from an empty cache, or from one whose entries already carry the
  configured policy, every entry carries that policy.

Collaborators are data. The account record, the HEAD status and parsed
content-length, the grant outcome and the GET response are inputs (`Replies`).
The two library encoders, the value encoding of `URLSearchParams` and
`encodeURIComponent`, are function-typed inputs (`Encoders`) whose results the
model does not interpret. The trace (`Call`) records each B2 call with its
arguments, and also the cache lookup and the cache store.

The handler does not check the GET's status. After a successful HEAD it caches
whatever the GET returned, an error status included, and the model does the
same: `StreamAndStore` stores a response with the GET's own status. What the
model proves is narrower: every entry the handler stores is a streamed response
under the configured policy. So a run that starts from an empty cache
(`History.PolicyFromEmptyCache`), or from one whose entries already carry that
policy (`History.PolicyPreserved`), keeps every entry under it. The platform's
cache outlives a deployment, so entries stored under an earlier configuration
are served as they were stored.

## Model

| member | source | states |
|---|---|---|
| `B2.RejectedAccount` | src/b2.ts:7-9 | a rejected authorization record is not ok, keeps B2's status, and carries no usable download URL, token or API URL |
| `B2.AcceptedAccount` | src/b2.ts:10-17 | an accepted authorization record is ok, keeps B2's 2xx status (so never 401), and carries the three JSON fields as read |
| `B2.Truthy` | src/proxy.ts:29 | an optional string field is truthy exactly when it is neither missing (`undefined`) nor the empty string |
| `B2.IsOkStatus` | src/proxy.ts:43 | `Response.ok` holds exactly for the statuses of the 2xx class |
| `Urls.ObjectUrl` | src/proxy.ts:34 | the object URL is the download URL, then `/file/`, then the bucket name and the request path |
| `Urls.CacheControlQuery` | src/proxy.ts:35-36 | the query string is the `b2CacheControl=` key followed by exactly the encoded configured policy |
| `Urls.ObjectUrlWithQuery` | src/proxy.ts:34-36 | `b2urlWithParams` starts with `downloadUrl + "/file/" + bucket + pathname + "?"`, the rest is exactly the query, and it always contains `?` |
| `Urls.PolicyFollowsObjectUrl` | src/proxy.ts:34-36 | `b2urlWithParams` is exactly the object URL followed by `?b2CacheControl=` and the encoded configured policy |
| `Urls.StripLeadingSlash` | src/proxy.ts:54 | the file name is the path itself or the path with one leading `/` removed, and the latter exactly when the path starts with `/` |
| `Urls.StripLeadingSlashPrepended` | src/proxy.ts:54 | removing the leading slash undoes prepending one |
| `Urls.StripFileSuffix` | src/proxy.ts:51 | a URL ending in `/file` loses exactly that suffix; any other URL is unchanged |
| `Urls.StripFileSuffixAppended` | src/proxy.ts:51 | stripping `/file` from `base + "/file"` gives back `base` |
| `Urls.ApiUrl` | src/proxy.ts:51 | a truthy `apiUrl` is used as is; otherwise the download URL is used, less a trailing `/file` if it has one |
| `Urls.SignedUrl` | src/proxy.ts:57-58 | the token parameter `Authorization=` is joined with `&` to a URL that already has a `?`, and with `?` to one that has none |
| `Urls.SignedObjectUrlUsesAmpersand` | src/proxy.ts:36-58 | the signed URL built on `b2urlWithParams` always joins with `&` |
| `Proxy.ContentSize` | src/proxy.ts:46 | the size is the parsed content-length when there is one, and 0 when the header is missing, empty or does not parse |
| `Proxy.Describe` | src/proxy.ts:61 | the error text is the error's message, or its name when the message is empty |
| `Proxy.Authorized` | src/proxy.ts:26-31 | the handler goes past the authorization checks exactly when the record is not a 401 rejection and its download URL and token are neither missing nor empty |
| `Proxy.B2UrlWithParams` | src/proxy.ts:34-36 | `b2urlWithParams` is the object URL, a `?`, and then exactly the `b2CacheControl` query of the configured policy |
| `Proxy.Handle` | src/proxy.ts:13-73 | only the root ping makes no call; every other request starts with a cache lookup. The cache changes only by storing the returned response under a request that missed, and only a streamed response with the configured `Cache-Control` is stored. A redirect on a miss has status 302 |
| `Proxy.Cache.Match` | src/proxy.ts:21 | a lookup finds a response exactly when the request is cached, and returns the cached response |
| `Proxy.Cache.Put` | src/proxy.ts:71 | a store maps the request to the response and leaves every other entry as it was |
| `Proxy.Fetch` | src/proxy.ts:13-73 | the handler returns the response and makes the calls `Handle` describes, and leaves the cache as `Handle` says |
| `Proxy.RootPing` | src/proxy.ts:15-17 | the path `/` gets 200 "ok", with no cache lookup, no B2 call and the cache unchanged |
| `Proxy.CacheHit` | src/proxy.ts:20-22 | a cached request gets the cached response unchanged; the lookup is the only call, none reaches B2, and the cache is unchanged |
| `Proxy.AuthHeaderRejected` | src/proxy.ts:25-28 | a not-ok authorization with status 401 gets 401 "Error: AUTH_HEADER is not correctly set" and no HEAD, grant or GET follows |
| `Proxy.AuthorizationFailed` | src/proxy.ts:29-31 | any other record lacking a truthy download URL or token gets 502 "B2 authorization failed" and no probe follows |
| `Proxy.RejectedAuthorizationIsBadGateway` | src/proxy.ts:26-31 | a rejected authorization with a status other than 401 is answered 502 |
| `Proxy.EmptyFieldIsMissing` | src/proxy.ts:29-31 | an accepted authorization whose download URL or token is the empty string gets 502 "B2 authorization failed" after only the lookup and the authorization; the cache is unchanged |
| `Proxy.ProbeExactlyWhenAuthorized` | src/proxy.ts:25-42 | on a miss, the HEAD probe is sent exactly when the authorization record is usable |
| `Proxy.ObjectNotFound` | src/proxy.ts:39-45 | a HEAD that is not ok gets 404 "Not found" after exactly the lookup, authorization and HEAD calls; no grant or GET follows and the cache is unchanged |
| `Proxy.ProbeFollowsAuthorization` | src/proxy.ts:25-42 | once authorization yields a non-empty download URL and token, the calls made begin with the cache lookup, the authorization and the HEAD of `b2urlWithParams` with the account token |
| `Proxy.AcceptedAccountReachesProbe` | src/proxy.ts:25-42 | an accepted authorization record with a non-empty download URL and token always leads to the HEAD probe, sent with that token to exactly the object URL followed by `?b2CacheControl=` and the encoded configured policy |
| `Proxy.SizeFork` | src/proxy.ts:46-49 | after an ok HEAD, the size exceeds 104857600 exactly when a grant is requested, exactly when the response is not streamed, and exactly when the cache is left unchanged |
| `Proxy.AtThresholdStreams` | src/proxy.ts:46-49 | a missing content-length, or one of exactly 104857600, takes the streaming path |
| `Proxy.SignedRedirect` | src/proxy.ts:49-59 | a large object gets a 302 to `b2urlWithParams + "&Authorization=" + enc(token)`. The grant is requested once, with the account token, the bucket id, 600 seconds, and the path less one leading `/`. It goes to the API URL or, lacking one, the download URL less a trailing `/file`. The cache is unchanged |
| `Proxy.SignedUrlFailure` | src/proxy.ts:60-62 | a thrown grant gets 500 with the body "Failed to generate signed download url: " followed by the error's description: its message, or its name when the message is empty. The cache is unchanged |
| `Proxy.StreamAndStore` | src/proxy.ts:66-72 | an object of at most 100 MiB is fetched once with the account token. The response keeps the GET's status, body and other headers, with `Cache-Control` set to the configured policy. The cache then maps the request to that same response, and no other entry changes |
| `History.Replay` | src/proxy.ts:20-71 | serving a run of requests never removes a cached request |
| `History.StoredEntryPersists` | src/proxy.ts:20-22 | a cached entry is returned unchanged after any run of later requests |
| `History.PolicyPreserved` | src/proxy.ts:66-72 | if every cached response is streamed under the configured policy, it stays so after any run of requests under that configuration |
| `History.PolicyFromEmptyCache` | src/proxy.ts:66-72 | starting from an empty cache, every entry a run of requests stores is streamed under the configured policy |
| `History.RepeatServedFromCache` | src/proxy.ts:20-22 | repeating a stored request, after any run of other requests and whatever B2 would answer, returns the same response with only a cache lookup and the cache unchanged |
| `History.StreamedIsRepeatable` | src/proxy.ts:66-72 | a streamed request is stored, so its repeat is served from the cache with no B2 call |

## Left out

- The helpers of src/b2.ts and the HEAD and GET requests: network I/O. Their results are inputs, shaped as src/b2.ts:7-17 and 34-35 build them. The text of the error thrown at src/b2.ts:34, which needs the decimal rendering of a status, is not modelled: the thrown error is an input.
- JSON fields of B2's replies that are present but not strings: every field is modelled as a string or missing.
- The encodings of `URLSearchParams` and `encodeURIComponent`: left as function inputs. `encodeURIComponent` throwing on lone surrogates is not modelled.
- `parseInt` of the content-length header: the parsed value is an input, and a missing or unparseable header is `None`. `NaN` and `0` both fail the `>` comparison, so they behave alike.
- Response body streaming, and `Response`/`Headers` internals other than setting `Cache-Control`. Header names are stored lower-cased, as `Headers` stores them.
- `resp2.clone()`: a response is a value in the model, so the copy stored is the response returned.
- The asynchrony of `ctx.waitUntil(cache.put(...))`: the store is modelled as completed before the handler returns. A store that fails or is refused by the platform is not modelled.
- History: requests are served one after another, each to completion. The Workers runtime interleaves requests at every `await`, so two requests for the same object can both miss at src/proxy.ts:21 and both store at line 71, the later replacing the earlier. That interleaving is not modelled, and `History.StoredEntryPersists` and `History.RepeatServedFromCache` hold only for runs served in sequence.
- Header names are lower-case only by convention of the model's inputs. A GET whose header map held a mixed-case `Cache-Control` key would keep it beside the `cache-control` the handler sets, which a real `Headers` object cannot hold. The model does not require the GET's header names to be lower-case.
- Cloudflare cache semantics: eviction, which responses the platform declines to store, and how request keys are matched. The cache is a map keyed by the request value.
- Exceptions thrown outside the `try` block of the handler: `cache.match` rejecting (src/proxy.ts:21), `authorizeAccount` rejecting on a network failure or on a 2xx reply that is not JSON (src/b2.ts:10), and a failed HEAD or GET request. The platform answers those, not the handler, and the model has no such outcome.
