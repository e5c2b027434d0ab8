/** The worker's three event handlers, each collapsed into one synchronous step over the storage:
    install seeds the current partition, activate purges the others, fetch routes a request. */
module Worker {
  import opened Wrappers
  import opened Http
  import opened Config
  import opened Router
  import opened Strategies
  import opened Store
  import opened Caches

  /** Install: open the current partition, then `addAll` the manifest. */
  method OnInstall(cs: CacheStorage, outcomes: seq<NetOutcome>) returns (installed: bool)
    requires cs.Valid() && |outcomes| == |PRECACHE_URLS|
    modifies cs
    ensures cs.Valid() && CACHE_NAME in cs.parts
    ensures installed <==> AllFetchedOk(outcomes)
    ensures cs.names == if CACHE_NAME in old(cs.parts) then old(cs.names) else old(cs.names) + [CACHE_NAME]
    ensures cs.parts == old(cs.parts)[CACHE_NAME :=
              if installed then PartOf(old(cs.parts), CACHE_NAME) + Batch(PRECACHE_URLS, outcomes)
              else PartOf(old(cs.parts), CACHE_NAME)]
    ensures installed ==> forall i :: 0 <= i < |PRECACHE_URLS| ==>
              cs.parts[CACHE_NAME][PRECACHE_URLS[i]] == outcomes[i].response
    ensures StoredOk(old(cs.parts)) ==> StoredOk(cs.parts)
  {
    ManifestIsDistinct();
    installed := Precache(cs, CACHE_NAME, PRECACHE_URLS, outcomes);
  }

  /** Open partition `name` and `addAll` the distinct `urls` into it. The partition exists
      afterwards even when the batch fails; it then holds exactly what it held before. */
  method Precache(cs: CacheStorage, name: string, urls: seq<string>, outcomes: seq<NetOutcome>)
      returns (installed: bool)
    requires cs.Valid() && |outcomes| == |urls| && NoDuplicates(urls)
    modifies cs
    ensures cs.Valid() && name in cs.parts
    ensures installed <==> AllFetchedOk(outcomes)
    ensures cs.names == if name in old(cs.parts) then old(cs.names) else old(cs.names) + [name]
    ensures cs.parts == old(cs.parts)[name :=
              if installed then PartOf(old(cs.parts), name) + Batch(urls, outcomes)
              else PartOf(old(cs.parts), name)]
    ensures installed ==> forall i :: 0 <= i < |urls| ==> cs.parts[name][urls[i]] == outcomes[i].response
    ensures StoredOk(old(cs.parts)) ==> StoredOk(cs.parts)
  {
    ghost var before := cs.parts;
    ghost var prior := PartOf(before, name);
    if name in before {
      UpdateSame(before, name);
    }
    cs.Open(name);
    assert cs.parts == before[name := prior];
    installed := cs.AddAll(name, urls, outcomes);
    if installed {
      var batch := Batch(urls, outcomes);
      UpdateTwice(before, name, prior, prior + batch);
      BatchLookup(urls, outcomes);
      assert forall i :: 0 <= i < |urls| ==> urls[i] in batch && batch[urls[i]] == outcomes[i].response;
      if StoredOk(before) {
        StoredOkUpdate(before, name, prior + batch);
      }
    } else if StoredOk(before) {
      StoredOkUpdate(before, name, prior);
    }
  }

  /** Activate: delete, one by one, every partition whose name is not the current version tag. */
  method OnActivate(cs: CacheStorage)
    requires cs.Valid()
    modifies cs
    ensures cs.Valid()
    ensures cs.names == Kept(old(cs.names), CACHE_NAME)
    ensures cs.names == if CACHE_NAME in old(cs.parts) then [CACHE_NAME] else []
    ensures cs.parts == Retained(old(cs.parts), CACHE_NAME)
    ensures StoredOk(old(cs.parts)) ==> StoredOk(cs.parts)
  {
    var keys := cs.names;
    ghost var before := cs.parts;
    var stale := Stale(keys, CACHE_NAME);
    var i := 0;
    MinusNothing(keys);
    while i < |stale|
      invariant 0 <= i <= |stale|
      invariant cs.Valid()
      invariant cs.names == Minus(keys, stale[..i])
      invariant forall n :: n in cs.parts ==> n in before && cs.parts[n] == before[n]
    {
      var _ := cs.Delete(stale[i]);
      DeleteNext(keys, stale, i);
      i := i + 1;
    }
    assert stale[..i] == stale;
    MinusIsKept(keys, stale, CACHE_NAME);
    KeptOfDistinct(keys, CACHE_NAME);
    RetainedIsOnly(before, cs.parts, CACHE_NAME);
  }

  /** Fetch: classify the hostname, look the request up (except on the API path), run the strategy,
      and write an ok response to the current partition, opening it if need be. */
  method OnFetch(cs: CacheStorage, hostname: string, key: string, net: NetOutcome) returns (reply: Reply)
    requires cs.Valid()
    modifies cs
    ensures cs.Valid()
    ensures var step := Execute(Classify(hostname), old(cs.Match(key)), net);
            && reply == step.reply
            && cs.names == (if WrittenBy(step.effects).None? || CACHE_NAME in old(cs.parts) then old(cs.names)
                            else old(cs.names) + [CACHE_NAME])
            && cs.parts == match WrittenBy(step.effects)
                           case None => old(cs.parts)
                           case Some(r) => old(cs.parts)[CACHE_NAME := PartOf(old(cs.parts), CACHE_NAME)[key := r]]
    ensures StoredOk(old(cs.parts)) ==> StoredOk(cs.parts)
    // once activation has left only the current partition, the handler is the single-map transition
    ensures old(cs.names) == [CACHE_NAME] ==>
              cs.names == [CACHE_NAME]
              && (reply, cs.parts[CACHE_NAME]) == Transition(old(cs.parts[CACHE_NAME]), hostname, key, net)
  {
    ghost var before := cs.parts;
    ghost var seen := cs.Match(key);
    var strategy := Classify(hostname);
    var cached: Option<Response> := None;
    if strategy != NetworkOnlyWithFallback {
      cached := cs.Match(key);
    }
    var step := Execute(strategy, cached, net);
    assert step == Execute(strategy, seen, net);
    NeverWritesNotOk(strategy, cached, net);
    match WrittenBy(step.effects) {
      case Some(r) =>
        ghost var prior := PartOf(before, CACHE_NAME);
        if CACHE_NAME in before {
          UpdateSame(before, CACHE_NAME);
        }
        cs.Open(CACHE_NAME);
        assert cs.parts == before[CACHE_NAME := prior];
        cs.Put(CACHE_NAME, key, r);
        UpdateTwice(before, CACHE_NAME, prior, prior[key := r]);
        if StoredOk(before) {
          StoredOkUpdate(before, CACHE_NAME, prior[key := r]);
        }
      case None =>
    }
    reply := step.reply;
    if old(cs.names) == [CACHE_NAME] {
      MatchOnlyPartition(old(cs.names), before, key);
    }
  }

  /** The manifest names every resource once (their lengths already differ). */
  lemma ManifestIsDistinct()
    ensures NoDuplicates(PRECACHE_URLS)
  {
    var lengths := [2, 12, 15, 48, 47];
    assert forall i :: 0 <= i < |PRECACHE_URLS| ==> |PRECACHE_URLS[i]| == lengths[i];
    assert forall i, j :: 0 <= i < j < |PRECACHE_URLS| ==> lengths[i] != lengths[j];
  }

  /** With one partition, `caches.match` is a lookup in it. */
  lemma MatchOnlyPartition(names: seq<string>, parts: map<string, Entries>, key: string)
    requires names == [CACHE_NAME] && CACHE_NAME in parts
    ensures MatchIn(names, parts, key) == Lookup(parts[CACHE_NAME], key)
  {
  }

  /** Upgrading from `flex-mikra-v0`: only the old generation is deleted, the current one is kept. */
  lemma UpgradeFromV0()
    ensures Stale(["flex-mikra-v0", "flex-mikra-v1"], CACHE_NAME) == ["flex-mikra-v0"]
    ensures Kept(["flex-mikra-v0", "flex-mikra-v1"], CACHE_NAME) == ["flex-mikra-v1"]
  {
  }

  /** Activation never deletes the current partition, and a second activation deletes nothing. */
  lemma ActivationIsIdempotent(names: seq<string>, parts: map<string, Entries>)
    ensures CACHE_NAME !in Stale(names, CACHE_NAME)
    ensures Stale(Kept(names, CACHE_NAME), CACHE_NAME) == []
    ensures Kept(Kept(names, CACHE_NAME), CACHE_NAME) == Kept(names, CACHE_NAME)
    ensures Retained(Retained(parts, CACHE_NAME), CACHE_NAME) == Retained(parts, CACHE_NAME)
  {
    KeptIdempotent(names, CACHE_NAME);
  }

  /** Scenario: install, activate, then two requests for the same tile; the second is answered from
      the partition without the network, which is offline by then. */
  method TileScenario(install: seq<NetOutcome>, hostname: string, key: string, tile: Response)
      returns (first: Reply, second: Reply)
    requires |install| == |PRECACHE_URLS|
    requires Classify(hostname) == CacheFirst && Ok(tile) && key !in PRECACHE_URLS
    ensures first == Respond(tile) && second == Respond(tile)
  {
    var cs := new CacheStorage();
    var _ := OnInstall(cs, install);
    OnActivate(cs);
    assert cs.names == [CACHE_NAME];
    assert key !in cs.parts[CACHE_NAME];
    first := OnFetch(cs, hostname, key, Fetched(tile));
    second := OnFetch(cs, hostname, key, NetworkError);
  }
}
