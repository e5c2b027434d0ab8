/** The request classifier: the hostname alone picks one of three strategies, first match wins. */
module Router {
  import opened Text
  import opened Config

  datatype Strategy = NetworkOnlyWithFallback | CacheFirst | StaleWhileRevalidate

  /** The API test comes first, the tile test second, everything else falls through. */
  function Classify(hostname: string): (s: Strategy)
    ensures s == NetworkOnlyWithFallback <==> Includes(hostname, API_HOST)
    ensures s == CacheFirst <==> !Includes(hostname, API_HOST) && Includes(hostname, TILE_HOST)
    ensures s == StaleWhileRevalidate <==> !Includes(hostname, API_HOST) && !Includes(hostname, TILE_HOST)
  {
    if Includes(hostname, API_HOST) then NetworkOnlyWithFallback
    else if Includes(hostname, TILE_HOST) then CacheFirst
    else StaleWhileRevalidate
  }

  /** The order of the tests matters: a hostname naming both authorities goes to the network. */
  lemma ApiWinsOverTiles(pre: string, mid: string, post: string)
    ensures Classify(pre + API_HOST + mid + TILE_HOST + post) == NetworkOnlyWithFallback
    ensures Classify(pre + TILE_HOST + mid + API_HOST + post) == NetworkOnlyWithFallback
  {
    assert pre + API_HOST + mid + TILE_HOST + post == pre + API_HOST + (mid + TILE_HOST + post);
    IncludesInfix(pre, API_HOST, mid + TILE_HOST + post);
    assert pre + TILE_HOST + mid + API_HOST + post == (pre + TILE_HOST + mid) + API_HOST + post;
    IncludesInfix(pre + TILE_HOST + mid, API_HOST, post);
  }

  /** Every tile server, whatever its subdomain, is served cache first. */
  lemma TileSubdomainsAreCacheFirst(sub: string)
    requires !Includes(sub + "." + TILE_HOST, API_HOST)
    ensures Classify(sub + "." + TILE_HOST) == CacheFirst
  {
    IncludesInfix(sub + ".", TILE_HOST, "");
    assert sub + "." + TILE_HOST + "" == sub + "." + TILE_HOST;
  }

  /** The API host itself goes to the network. */
  lemma ApiHostIsNetworkOnly()
    ensures Classify(API_HOST) == NetworkOnlyWithFallback
  {
    IncludesInfix("", API_HOST, "");
    assert "" + API_HOST + "" == API_HOST;
  }

  /** A tile server is served cache first. */
  lemma TileServerIsCacheFirst()
    ensures Classify("a.tile.openstreetmap.org") == CacheFirst
  {
    var h := "a.tile.openstreetmap.org";
    assert h == "a" + "." + TILE_HOST;
    TileServerIsNotApi();
    TileSubdomainsAreCacheFirst("a");
  }

  /** The library CDN is served stale-while-revalidate. */
  lemma CdnIsStaleWhileRevalidate()
    ensures Classify("unpkg.com") == StaleWhileRevalidate
  {
    assert |"unpkg.com"| < |API_HOST| && |"unpkg.com"| < |TILE_HOST|;
  }

  /** A tile server's name has no `b`, so it cannot include the API authority. */
  lemma TileServerIsNotApi()
    ensures !Includes("a.tile.openstreetmap.org", API_HOST)
  {
    assert API_HOST[13] == 'b';
    MissingCharExcludes("a.tile.openstreetmap.org", API_HOST, 'b');
  }

  /** Substring matching accepts look-alike hosts: a foreign domain whose name merely contains the
      API authority is treated as the API. */
  lemma LookalikeHostIsApi()
    ensures Classify("api.mercadolibre.com.example.net") == NetworkOnlyWithFallback
  {
    IncludesInfix("", API_HOST, ".example.net");
    assert "" + API_HOST + ".example.net" == "api.mercadolibre.com.example.net";
  }
}
