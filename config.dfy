/**
 * `lib/config.ts`: the read side of the persisted settings. The getters look
 * at the browser's local storage when there is a window, and otherwise fall
 * back to fixed defaults. The build-time environment variable
 * `NEXT_PUBLIC_API_ENDPOINT` is a parameter, with "" for unset.
 */
module Config {
  import Text

  const ApiEndpoints: seq<string> := [
    "https://my-go-api-onion0904-2d2c780f.koyeb.app/query",
    "http://localhost:8080/query",
    "https://api.example.com/graphql"
  ]

  /** Exported list of selectable endpoints; it is the same list. */
  const ApiEndpointsList: seq<string> := ApiEndpoints

  const UseMockDataKey := "carshare_use_mock_data"
  const ApiEndpointKey := "carshare_api_endpoint"

  /** Where the code runs: no window (server rendering) or a browser with its local storage. */
  datatype Host = Server | Browser(storage: map<string, string>)

  /** `localStorage.getItem(key)`, with "" standing for a missing key where only truthiness matters. */
  function Saved(h: Host, key: string): string {
    if h.Browser? && key in h.storage then h.storage[key] else ""
  }

  /** Mock mode is on unless a stored flag says otherwise; only the exact text "true" turns it on. */
  function GetUseMockData(h: Host): (r: bool)
    ensures h.Server? ==> r
    ensures h.Browser? && UseMockDataKey !in h.storage ==> r
    ensures h.Browser? && UseMockDataKey in h.storage ==> (r <==> h.storage[UseMockDataKey] == "true")
  {
    if h.Server? then true
    else if UseMockDataKey in h.storage then h.storage[UseMockDataKey] == "true"
    else true
  }

  /** The first non-empty of: stored endpoint, environment endpoint, first listed endpoint. */
  function GetApiEndpoint(h: Host, env: string): (r: string)
    ensures r != ""
    ensures r in ApiEndpoints || r == env || r == Saved(h, ApiEndpointKey)
    ensures h.Server? ==> r == ApiEndpoints[0]
    ensures h.Browser? && Saved(h, ApiEndpointKey) != "" ==> r == Saved(h, ApiEndpointKey)
    ensures h.Browser? && Saved(h, ApiEndpointKey) == "" && env != "" ==> r == env
    ensures Saved(h, ApiEndpointKey) == "" && env == "" ==> r == ApiEndpoints[0]
  {
    if h.Server? then ApiEndpoints[0]
    else Text.Or(Text.Or(Saved(h, ApiEndpointKey), env), ApiEndpoints[0])
  }

  /** `API_ENDPOINT` and `USE_MOCK_DATA`: the two getters evaluated once, when the module loads. */
  datatype Snapshot = Snapshot(apiEndpoint: string, useMockData: bool)

  function LoadSnapshot(h: Host, env: string): (c: Snapshot)
    ensures c.apiEndpoint != ""
    ensures c.useMockData == GetUseMockData(h) && c.apiEndpoint == GetApiEndpoint(h, env)
  {
    Snapshot(GetApiEndpoint(h, env), GetUseMockData(h))
  }

  lemma EndpointList()
    ensures ApiEndpointsList == ApiEndpoints && |ApiEndpointsList| == 3
    ensures forall i, j :: 0 <= i < j < |ApiEndpoints| ==> ApiEndpoints[i] != ApiEndpoints[j]
  {
  }

  /**
   * The snapshot is not refreshed: after the mock flag is written as "false"
   * the getter reports false while the snapshot taken before still reports true.
   */
  lemma SnapshotGoesStale(storage: map<string, string>)
    requires UseMockDataKey !in storage
    ensures LoadSnapshot(Browser(storage), "").useMockData
    ensures !GetUseMockData(Browser(storage[UseMockDataKey := "false"]))
  {
  }
}
