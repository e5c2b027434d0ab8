/** The fetch handler as a transition over one request-key -> response map: the view of the store
    once activation has left the current partition as the only one. */
module Store {
  import opened Wrappers
  import opened Http
  import opened Text
  import opened Config
  import opened Router
  import opened Strategies

  type Entries = map<string, Response>

  function Lookup(store: Entries, key: string): Option<Response>
  {
    if key in store then Some(store[key]) else None
  }

  /** The store after the writes a step issued under the request key: other keys keep their
      entries, the request key holds the last response the log wrote, and with no write nothing
      changes. */
  function Commit(store: Entries, key: string, effects: seq<Effect>): (r: Entries)
    ensures forall k :: k != key ==> Lookup(r, k) == Lookup(store, k)
    ensures key in r ==> (key in store && r[key] == store[key]) || CachePut(r[key]) in effects
    ensures WrittenBy(effects).None? ==> r == store
    ensures WrittenBy(effects).Some? ==> key in r && r[key] == WrittenBy(effects).value
  {
    match WrittenBy(effects)
    case Some(r) => store[key := r]
    case None => store
  }

  /** No entry holds a response that is not ok. */
  ghost predicate AllOk(store: Entries)
  {
    forall k :: k in store ==> Ok(store[k])
  }

  /** One fetch event: store x hostname x request key x network outcome -> reply x store. */
  function Transition(store: Entries, hostname: string, key: string, net: NetOutcome): (t: (Reply, Entries))
    // only the request key can change, and only to the ok response the network returned
    ensures forall k :: k != key ==> Lookup(t.1, k) == Lookup(store, k)
    ensures t.1 == store || (net.Fetched? && Ok(net.response) && t.1 == store[key := net.response])
    // the API path leaves the store alone
    ensures Includes(hostname, API_HOST) ==> t.1 == store
  {
    var step := Execute(Classify(hostname), Lookup(store, key), net);
    NeverWritesNotOk(Classify(hostname), Lookup(store, key), net);
    (step.reply, Commit(store, key, step.effects))
  }

  /** The store never acquires a response that is not ok: error pages do not poison it. */
  lemma TransitionKeepsAllOk(store: Entries, hostname: string, key: string, net: NetOutcome)
    requires AllOk(store)
    ensures AllOk(Transition(store, hostname, key, net).1)
  {
  }

  /** The API path: the network's response unchanged, or the JSON fallback, and no store change. */
  lemma ApiPath(store: Entries, hostname: string, key: string, net: NetOutcome)
    requires Includes(hostname, API_HOST)
    ensures Transition(store, hostname, key, net)
         == (Respond(if net.Fetched? then net.response else OfflineFallback()), store)
  {
  }

  /** A cache-first hit answers from the store and changes nothing. */
  lemma TileHit(store: Entries, hostname: string, key: string, net: NetOutcome)
    requires Classify(hostname) == CacheFirst && key in store
    ensures Transition(store, hostname, key, net) == (Respond(store[key]), store)
  {
  }

  /** A cache-first miss returns what the network returned; it is stored only when ok. */
  lemma TileMiss(store: Entries, hostname: string, key: string, r: Response)
    requires Classify(hostname) == CacheFirst && key !in store
    ensures Transition(store, hostname, key, Fetched(r))
         == (Respond(r), if Ok(r) then store[key := r] else store)
    ensures Transition(store, hostname, key, NetworkError) == (Rejected, store)
  {
  }

  /** Round trip: after a miss that stored an ok tile, the same request is a hit that answers the
      stored response without any network traffic. */
  lemma TileRoundTrip(store: Entries, hostname: string, key: string, r: Response, later: NetOutcome)
    requires Classify(hostname) == CacheFirst && key !in store && Ok(r)
    ensures var first := Transition(store, hostname, key, Fetched(r));
            first.0 == Respond(r)
            && Transition(first.1, hostname, key, later) == (Respond(r), first.1)
            && NetworkFetch !in Execute(CacheFirst, Lookup(first.1, key), later).effects
  {
  }

  /** Stale-while-revalidate with an entry: the entry is answered; an ok refresh replaces it. */
  lemma StaleHit(store: Entries, hostname: string, key: string, net: NetOutcome)
    requires Classify(hostname) == StaleWhileRevalidate && key in store
    ensures Transition(store, hostname, key, net).0 == Respond(store[key])
    ensures Transition(store, hostname, key, net).1
         == if net.Fetched? && Ok(net.response) then store[key := net.response] else store
  {
  }

  /** Stale-while-revalidate without an entry: the network's answer, ok or not, or undefined. */
  lemma StaleMiss(store: Entries, hostname: string, key: string, net: NetOutcome)
    requires Classify(hostname) == StaleWhileRevalidate && key !in store
    ensures Transition(store, hostname, key, net).0
         == if net.Fetched? then Respond(net.response) else Undefined
    ensures Transition(store, hostname, key, net).1
         == if net.Fetched? && Ok(net.response) then store[key := net.response] else store
  {
  }
}
