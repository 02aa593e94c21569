/**
 * The shared cache across a run of requests served one after another, each
 * to completion.
 *
 * The handler is the only writer of the cache, and it writes only on a miss.
 * Hence, in such a run under one configuration, an entry once stored is
 * never replaced by later requests (eviction, which belongs to the platform,
 * is not modelled); starting from an empty cache, or from one whose entries
 * already carry the configured cache policy, every entry is a streamed
 * response with that policy; and repeating a request that was stored returns
 * the stored response without contacting B2.
 */
module History {
  import opened B2
  import opened Proxy

  /** One request together with what the collaborators answered while it was served. */
  datatype Exchange = Exchange(request: Request, replies: Replies)

  /** The cache after serving `exchanges` in order, starting from `entries`. */
  function Replay(entries: map<Request, Response>, env: Env, enc: Encoders, exchanges: seq<Exchange>)
    : (after: map<Request, Response>)
    ensures entries.Keys <= after.Keys
    decreases |exchanges|
  {
    if exchanges == [] then entries
    else
      var step := Handle(exchanges[0].request, env, enc, entries, exchanges[0].replies);
      Replay(step.entries, env, enc, exchanges[1..])
  }

  /** Every cached response is a streamed one with the configured cache policy. */
  ghost predicate PolicyApplied(entries: map<Request, Response>, cacheControl: string)
  {
    forall r :: r in entries ==> StoredWithPolicy(entries[r], cacheControl)
  }

  /** A stored entry survives any run of later requests unchanged. */
  lemma {:induction false} StoredEntryPersists(entries: map<Request, Response>, env: Env, enc: Encoders,
                                               exchanges: seq<Exchange>, request: Request)
    requires request in entries
    ensures request in Replay(entries, env, enc, exchanges)
    ensures Replay(entries, env, enc, exchanges)[request] == entries[request]
    decreases |exchanges|
  {
    if exchanges != [] {
      var step := Handle(exchanges[0].request, env, enc, entries, exchanges[0].replies);
      assert step.entries[request] == entries[request];
      StoredEntryPersists(step.entries, env, enc, exchanges[1..], request);
    }
  }

  /** Serving any run of requests keeps every cache entry under the configured policy. */
  lemma {:induction false} PolicyPreserved(entries: map<Request, Response>, env: Env, enc: Encoders,
                                           exchanges: seq<Exchange>)
    requires PolicyApplied(entries, env.cacheControl)
    ensures PolicyApplied(Replay(entries, env, enc, exchanges), env.cacheControl)
    decreases |exchanges|
  {
    if exchanges != [] {
      var step := Handle(exchanges[0].request, env, enc, entries, exchanges[0].replies);
      assert PolicyApplied(step.entries, env.cacheControl) by {
        forall r | r in step.entries
          ensures StoredWithPolicy(step.entries[r], env.cacheControl)
        {
          if r !in entries || step.entries[r] != entries[r] {
            assert step.entries != entries;
          }
        }
      }
      PolicyPreserved(step.entries, env, enc, exchanges[1..]);
    }
  }

  /** Starting from an empty cache, every entry a run stores carries the configured policy. */
  lemma PolicyFromEmptyCache(env: Env, enc: Encoders, exchanges: seq<Exchange>)
    ensures PolicyApplied(Replay(map[], env, enc, exchanges), env.cacheControl)
  {
    PolicyPreserved(map[], env, enc, exchanges);
  }

  /**
   * Once a request is in the cache, serving it again, after any run of other
   * requests and whatever B2 would answer, returns the response it got the
   * first time, with a cache lookup as the only call and the cache unchanged.
   */
  lemma RepeatServedFromCache(request: Request, env: Env, enc: Encoders, entries: map<Request, Response>,
                              first: Replies, exchanges: seq<Exchange>, again: Replies)
    requires request.pathname != "/"
    requires request in Handle(request, env, enc, entries, first).entries
    ensures var s1 := Handle(request, env, enc, entries, first);
            var later := Replay(s1.entries, env, enc, exchanges);
            var s2 := Handle(request, env, enc, later, again);
            s2.response == s1.response && s2.trace == [CacheMatch(request)] && s2.entries == later
  {
    var s1 := Handle(request, env, enc, entries, first);
    assert s1.entries[request] == s1.response;
    StoredEntryPersists(s1.entries, env, enc, exchanges, request);
  }

  /** A request for an object of at most 100 MiB is stored, so a repeat is served from the cache. */
  lemma StreamedIsRepeatable(request: Request, env: Env, enc: Encoders, entries: map<Request, Response>,
                             first: Replies, exchanges: seq<Exchange>, again: Replies)
    requires Miss(request, entries) && Authorized(first.account)
    requires IsOkStatus(first.head.status) && ContentSize(first.head) <= MaxWorkerSize
    ensures var s1 := Handle(request, env, enc, entries, first);
            var s2 := Handle(request, env, enc, Replay(s1.entries, env, enc, exchanges), again);
            s1.response.Streamed? && s2.response == s1.response && s2.trace == [CacheMatch(request)]
  {
    RepeatServedFromCache(request, env, enc, entries, first, exchanges, again);
  }
}
