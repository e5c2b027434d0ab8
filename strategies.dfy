/** The three caching strategies, each as the decision it makes once the cache lookup and the
    network call have produced their results. A strategy's result says what the page receives and
    which operations it issued on the store and the network, in order. */
module Strategies {
  import opened Wrappers
  import opened Http
  import opened Router

  /** One operation on a collaborator: a lookup in the store, a network fetch, or a write of a
      (cloned) response under the request key. */
  datatype Effect = CacheMatch | NetworkFetch | CachePut(response: Response)

  /** What `respondWith` receives: a response, a rejected promise, or a promise resolved with
      `undefined`. */
  datatype Reply = Respond(response: Response) | Rejected | Undefined

  datatype Step = Step(reply: Reply, effects: seq<Effect>)

  /** The response a list of operations last wrote, if any. */
  function WrittenBy(effects: seq<Effect>): (w: Option<Response>)
    ensures w.None? <==> forall i :: 0 <= i < |effects| ==> !effects[i].CachePut?
    ensures w.Some? ==> CachePut(w.value) in effects
  {
    if effects == [] then None
    else if effects[|effects| - 1].CachePut? then Some(effects[|effects| - 1].response)
    else WrittenBy(effects[..|effects| - 1])
  }

  /** The request issues no store operation at all. */
  predicate TouchesNoCache(effects: seq<Effect>)
  {
    forall i :: 0 <= i < |effects| ==> effects[i] == NetworkFetch
  }

  /** The write-back shared by the tile and generic paths: only an ok response is stored. */
  function WriteBack(net: NetOutcome): (e: seq<Effect>)
    ensures WrittenBy(e) == if net.Fetched? && Ok(net.response) then Some(net.response) else None
    ensures multiset(e)[NetworkFetch] == 0
  {
    if net.Fetched? && Ok(net.response) then [CachePut(net.response)] else []
  }

  /** Network only, with a JSON fallback on connection failure; the store is never consulted. */
  function RunNetworkOnly(net: NetOutcome): (s: Step)
    ensures s.effects == [NetworkFetch]
    ensures TouchesNoCache(s.effects) && multiset(s.effects)[NetworkFetch] == 1
    ensures net.Fetched? ==> s.reply == Respond(net.response)
    ensures net.NetworkError? ==> s.reply == Respond(OfflineFallback())
  {
    match net
    case Fetched(r) => Step(Respond(r), [NetworkFetch])
    case NetworkError => Step(Respond(OfflineFallback()), [NetworkFetch])
  }

  /** Cache first: a hit is answered without the network; a miss is fetched and written back when ok.
      A network error on a miss is not caught. */
  function RunCacheFirst(cached: Option<Response>, net: NetOutcome): (s: Step)
    ensures cached.Some? ==> s.reply == Respond(cached.value) && NetworkFetch !in s.effects
    ensures cached.Some? ==> WrittenBy(s.effects).None?
    ensures cached.None? ==> NetworkFetch in s.effects
    ensures multiset(s.effects)[NetworkFetch] == if cached.Some? then 0 else 1
    ensures cached.None? && net.Fetched? ==> s.reply == Respond(net.response)
    ensures cached.None? && net.NetworkError? ==> s.reply == Rejected
    ensures cached.None? ==> WrittenBy(s.effects) == if net.Fetched? && Ok(net.response) then Some(net.response) else None
    ensures |s.effects| > 0 && s.effects[0] == CacheMatch
  {
    match cached
    case Some(c) => Step(Respond(c), [CacheMatch])
    case None =>
      var reply := if net.Fetched? then Respond(net.response) else Rejected;
      Step(reply, [CacheMatch, NetworkFetch] + WriteBack(net))
  }

  /** Stale-while-revalidate: the network is always asked; a cached entry is answered at once and
      refreshed in the background, otherwise the page waits for the network, and on a network error
      gets the (absent) cached value. */
  function RunStaleWhileRevalidate(cached: Option<Response>, net: NetOutcome): (s: Step)
    ensures cached.Some? ==> s.reply == Respond(cached.value)
    ensures cached.None? && net.Fetched? ==> s.reply == Respond(net.response)
    ensures cached.None? && net.NetworkError? ==> s.reply == Undefined
    ensures NetworkFetch in s.effects && multiset(s.effects)[NetworkFetch] == 1
    ensures WrittenBy(s.effects) == if net.Fetched? && Ok(net.response) then Some(net.response) else None
    ensures |s.effects| > 0 && s.effects[0] == CacheMatch
  {
    var fetched := if net.Fetched? then Respond(net.response) else
                     if cached.Some? then Respond(cached.value) else Undefined;
    var reply := if cached.Some? then Respond(cached.value) else fetched;
    Step(reply, [CacheMatch, NetworkFetch] + WriteBack(net))
  }

  /** Dispatch on the strategy label. Only the API path skips the lookup, and no path writes
      anything but the ok response the network returned. */
  function Execute(strategy: Strategy, cached: Option<Response>, net: NetOutcome): (s: Step)
    ensures strategy == NetworkOnlyWithFallback <==> TouchesNoCache(s.effects)
    ensures strategy != NetworkOnlyWithFallback ==> |s.effects| > 0 && s.effects[0] == CacheMatch
    // at most one network attempt, and no retry
    ensures multiset(s.effects)[NetworkFetch] <= 1
    ensures WrittenBy(s.effects).Some? ==> net.Fetched? && WrittenBy(s.effects).value == net.response
                                            && Ok(net.response)
  {
    match strategy
    case NetworkOnlyWithFallback => RunNetworkOnly(net)
    case CacheFirst => RunCacheFirst(cached, net)
    case StaleWhileRevalidate => RunStaleWhileRevalidate(cached, net)
  }

  /** Whatever the strategy, a response that is not ok is never written to the store. */
  lemma NeverWritesNotOk(strategy: Strategy, cached: Option<Response>, net: NetOutcome)
    ensures var w := WrittenBy(Execute(strategy, cached, net).effects);
            w.Some? ==> net.Fetched? && w.value == net.response && Ok(w.value)
  {
  }

  /** The API path neither reads nor writes the store, so its result cannot depend on it. */
  lemma ApiIgnoresStore(c1: Option<Response>, c2: Option<Response>, net: NetOutcome)
    ensures Execute(NetworkOnlyWithFallback, c1, net) == Execute(NetworkOnlyWithFallback, c2, net)
    ensures TouchesNoCache(Execute(NetworkOnlyWithFallback, c1, net).effects)
  {
  }

  /** A cache-first hit does not depend on the network at all. */
  lemma CacheHitIgnoresNetwork(r: Response, n1: NetOutcome, n2: NetOutcome)
    ensures Execute(CacheFirst, Some(r), n1) == Execute(CacheFirst, Some(r), n2)
  {
  }

  /** With a cached entry, stale-while-revalidate answers the same whatever the network does. */
  lemma StaleAnswerIgnoresNetwork(r: Response, n1: NetOutcome, n2: NetOutcome)
    ensures Execute(StaleWhileRevalidate, Some(r), n1).reply == Execute(StaleWhileRevalidate, Some(r), n2).reply
  {
  }
}
