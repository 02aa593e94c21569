/**
 * The values the request handler receives from Backblaze B2.
 *
 * The helpers of src/b2.ts and the HEAD and GET requests are network I/O and
 * are not modelled; what they resolve to is given to the handler as data.
 * This module fixes the shapes of those values and the two pieces of
 * JavaScript semantics the handler applies to them: truthiness of an optional
 * string field, and `Response.ok`.
 */
module B2 {

  datatype Option<+T> = None | Some(value: T)

  /** A response body, as the bytes it streams. */
  type Bytes = seq<bv8>

  /**
   * A `Headers` object. The Fetch API stores header names lower-cased, so a
   * name is a key of this map only in its lower-case spelling.
   */
  type Headers = map<string, string>

  /**
   * JavaScript truthiness of an optional string read from B2's JSON reply:
   * a missing field (`undefined`) and the empty string are both falsy.
   */
  predicate Truthy(field: Option<string>)
    ensures Truthy(field) <==> field !in {None, Some("")}
  {
    field.Some? && field.value != ""
  }

  /** `Response.ok`: the status lies in the range 200-299. */
  predicate IsOkStatus(status: int)
    ensures IsOkStatus(status) <==> status / 100 == 2
  {
    200 <= status <= 299
  }

  /**
   * The record `authorizeAccount` resolves to. A rejected authorization
   * carries only `ok` and `status`; an accepted one also carries the three
   * fields read from the JSON reply, each of which may be missing.
   */
  datatype Account = Account(
    ok: bool,
    status: int,
    downloadUrl: Option<string>,
    authorizationToken: Option<string>,
    apiUrl: Option<string>)

  /** The record `authorizeAccount` builds when B2 answers with a non-2xx status. */
  function RejectedAccount(status: int): (a: Account)
    requires !IsOkStatus(status)
    ensures !a.ok && a.status == status
    ensures !Truthy(a.downloadUrl) && !Truthy(a.authorizationToken) && !Truthy(a.apiUrl)
  {
    Account(false, status, None, None, None)
  }

  /** The record `authorizeAccount` builds from a 2xx reply and its JSON fields. */
  function AcceptedAccount(status: int, downloadUrl: Option<string>, authorizationToken: Option<string>,
                           apiUrl: Option<string>): (a: Account)
    requires IsOkStatus(status)
    ensures a.ok && a.status == status && a.status != 401
    ensures a.downloadUrl == downloadUrl && a.authorizationToken == authorizationToken && a.apiUrl == apiUrl
  {
    Account(true, status, downloadUrl, authorizationToken, apiUrl)
  }

  /**
   * What the HEAD probe yields: its status, and `parseInt` of its
   * content-length header. `None` stands for a header that is missing or
   * empty (the handler then parses "0") and for one that does not parse (NaN);
   * both compare false against the size limit, exactly as 0 does.
   */
  datatype HeadResponse = HeadResponse(status: int, contentLength: Option<int>)

  /** What the full GET of the object yields. */
  datatype GetResponse = GetResponse(status: int, headers: Headers, body: Bytes)

  /** A thrown JavaScript `Error`: its `name` and its `message`. */
  datatype ErrorValue = ErrorValue(name: string, message: string)

  /**
   * How `getDownloadAuthorization` settles: with the download authorization
   * token of B2's reply, or by throwing (a non-2xx reply, or a failed request).
   */
  datatype GrantOutcome = Granted(token: string) | Thrown(error: ErrorValue)
}
