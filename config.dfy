/** The constants compiled into the worker. */
module Config {

  /** The version tag naming the current cache partition. */
  const CACHE_NAME: string := "flex-mikra-v1"

  /** The resources stored at install time, in order. */
  const PRECACHE_URLS: seq<string> := [
    "./",
    "./index.html",
    "./manifest.json",
    "https://unpkg.com/leaflet@1.9.4/dist/leaflet.css",
    "https://unpkg.com/leaflet@1.9.4/dist/leaflet.js"
  ]

  /** Hostname fragment of the live-data API (never cached). */
  const API_HOST: string := "api.mercadolibre.com"

  /** Hostname fragment of the map-tile servers (cache first). */
  const TILE_HOST: string := "tile.openstreetmap.org"
}
