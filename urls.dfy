/**
 * The string derivations of the request handler (src/proxy.ts): the B2 object
 * URL with its query, the file name without its leading slash, the API URL
 * fallback, and the signed URL the client is redirected to.
 */
module Urls {
  import opened B2

  /** `s.endsWith(suffix)` */
  predicate EndsWith(s: string, suffix: string)
  {
    |suffix| <= |s| && s[|s| - |suffix|..] == suffix
  }

  /** `downloadUrl + "/file/" + bucketName + pathname` */
  function ObjectUrl(downloadUrl: string, bucketName: string, pathname: string): (u: string)
    ensures downloadUrl + "/file/" <= u
    ensures u[|downloadUrl| + 6..] == bucketName + pathname
  {
    downloadUrl + "/file/" + bucketName + pathname
  }

  /**
   * The string of `new URLSearchParams({ b2CacheControl: cacheControl })`;
   * `encodeValue` is the form encoding URLSearchParams applies to a value.
   */
  function CacheControlQuery(cacheControl: string, encodeValue: string -> string): (q: string)
    ensures "b2CacheControl=" <= q
    ensures q[|"b2CacheControl="|..] == encodeValue(cacheControl)
  {
    "b2CacheControl=" + encodeValue(cacheControl)
  }

  /** `b2urlWithParams`: the object URL, a `?`, and the query. */
  function ObjectUrlWithQuery(downloadUrl: string, bucketName: string, pathname: string, query: string): (u: string)
    ensures ObjectUrl(downloadUrl, bucketName, pathname) + "?" <= u
    ensures u[|ObjectUrl(downloadUrl, bucketName, pathname) + "?"|..] == query
    ensures '?' in u
  {
    var u := ObjectUrl(downloadUrl, bucketName, pathname) + "?" + query;
    assert u[|ObjectUrl(downloadUrl, bucketName, pathname)|] == '?';
    u
  }

  /** In `b2urlWithParams` the object URL is followed by exactly `?b2CacheControl=` and the encoded policy. */
  lemma PolicyFollowsObjectUrl(downloadUrl: string, bucketName: string, pathname: string, cacheControl: string,
                               encodeValue: string -> string)
    ensures var objectUrl := ObjectUrl(downloadUrl, bucketName, pathname);
            var url := ObjectUrlWithQuery(downloadUrl, bucketName, pathname, CacheControlQuery(cacheControl, encodeValue));
            url == objectUrl + "?b2CacheControl=" + encodeValue(cacheControl)
  {
    var objectUrl := ObjectUrl(downloadUrl, bucketName, pathname);
    var query := CacheControlQuery(cacheControl, encodeValue);
    var url := ObjectUrlWithQuery(downloadUrl, bucketName, pathname, query);
    assert query == "b2CacheControl=" + encodeValue(cacheControl);
    assert url == objectUrl + "?" + query;
  }

  /** The B2 file name of a request path: one leading `/` removed, if present. */
  function StripLeadingSlash(pathname: string): (name: string)
    ensures name == pathname || "/" + name == pathname
    ensures "/" + name == pathname <==> (|pathname| > 0 && pathname[0] == '/')
  {
    if |pathname| > 0 && pathname[0] == '/' then pathname[1..] else pathname
  }

  /** `url.replace(/\/file$/, "")`: one trailing `/file` removed, if present. */
  function StripFileSuffix(url: string): (base: string)
    ensures EndsWith(url, "/file") ==> base + "/file" == url
    ensures !EndsWith(url, "/file") ==> base == url
  {
    if EndsWith(url, "/file") then url[..|url| - 5] else url
  }

  /** `account.apiUrl || account.downloadUrl.replace(/\/file$/, "")` */
  function ApiUrl(apiUrl: Option<string>, downloadUrl: string): (api: string)
    ensures Truthy(apiUrl) ==> api == apiUrl.value
    ensures !Truthy(apiUrl) && EndsWith(downloadUrl, "/file") ==> api + "/file" == downloadUrl
    ensures !Truthy(apiUrl) && !EndsWith(downloadUrl, "/file") ==> api == downloadUrl
  {
    if Truthy(apiUrl) then apiUrl.value else StripFileSuffix(downloadUrl)
  }

  /**
   * The signed URL: `url`, then `&` if it already has a `?` and `?` otherwise,
   * then the `Authorization` parameter holding the encoded token.
   */
  function SignedUrl(url: string, encodedToken: string): (signed: string)
    ensures '?' in url ==> signed == url + "&Authorization=" + encodedToken
    ensures '?' !in url ==> signed == url + "?Authorization=" + encodedToken
  {
    var sep := if '?' in url then "&" else "?";
    url + sep + "Authorization=" + encodedToken
  }

  /** Stripping the suffix undoes appending it: the fallback recovers the base URL. */
  lemma StripFileSuffixAppended(base: string)
    ensures StripFileSuffix(base + "/file") == base
  {
  }

  /** Stripping the leading slash undoes prepending it. */
  lemma StripLeadingSlashPrepended(name: string)
    ensures StripLeadingSlash("/" + name) == name
  {
  }

  /**
   * The signed URL built on a `b2urlWithParams` always joins with `&`,
   * whatever the object URL and the query are.
   */
  lemma SignedObjectUrlUsesAmpersand(downloadUrl: string, bucketName: string, pathname: string, query: string,
                                     encodedToken: string)
    ensures var u := ObjectUrlWithQuery(downloadUrl, bucketName, pathname, query);
            SignedUrl(u, encodedToken) == u + "&Authorization=" + encodedToken
  {
  }
}
