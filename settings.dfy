/**
 * `lib/settings-context.tsx`: the settings state behind `SettingsProvider`.
 * There are two fields, each persisted under its own key of the browser's
 * local storage. The provider loads them once on mount, and its setters
 * update the field and the stored text together.
 */
module Settings {
  import Config

  const DefaultApiEndpoints: seq<string> := [
    "https://my-go-api-onion0904-2d2c780f.koyeb.app/query",
    "http://localhost:8080/query",
    "https://api.example.com/graphql"
  ]

  datatype Prefs = Prefs(useMockData: bool, apiEndpoint: string)

  const Defaults := Prefs(true, DefaultApiEndpoints[0])

  /** `value.toString()` for a boolean. */
  function BoolText(b: bool): (t: string)
    ensures (t == "true") == b
  {
    if b then "true" else "false"
  }

  /**
   * The mount-time load from `storage` over the current prefs `p`. A present
   * flag decides mock mode; a stored endpoint is taken only when non-empty.
   */
  function Loaded(p: Prefs, hasWindow: bool, storage: map<string, string>): (r: Prefs)
    ensures !hasWindow ==> r == p
    ensures hasWindow && Config.UseMockDataKey in storage ==>
      (r.useMockData <==> storage[Config.UseMockDataKey] == "true")
    ensures Config.UseMockDataKey !in storage ==> r.useMockData == p.useMockData
    ensures r.apiEndpoint == p.apiEndpoint ||
      (hasWindow && Config.ApiEndpointKey in storage && r.apiEndpoint == storage[Config.ApiEndpointKey] != "")
  {
    if !hasWindow then p
    else
      var mock := if Config.UseMockDataKey in storage then storage[Config.UseMockDataKey] == "true" else p.useMockData;
      var endpoint := if Config.ApiEndpointKey in storage && storage[Config.ApiEndpointKey] != "" then storage[Config.ApiEndpointKey] else p.apiEndpoint;
      Prefs(mock, endpoint)
  }

  class SettingsStore {
    var useMockData: bool
    var apiEndpoint: string
    /** The browser's local storage, shared with everything else on the page. */
    var storage: map<string, string>
    /** False while rendering on the server, where storage is not touched. */
    const hasWindow: bool

    function Current(): Prefs
      reads this
    {
      Prefs(useMockData, apiEndpoint)
    }

    /** Mounting the provider: defaults first, then the load from storage. */
    constructor (hasWindow: bool, storage: map<string, string>)
      ensures this.hasWindow == hasWindow && this.storage == storage
      ensures Current() == Loaded(Defaults, hasWindow, storage)
    {
      this.hasWindow := hasWindow;
      this.storage := storage;
      useMockData := true;
      apiEndpoint := DefaultApiEndpoints[0];
      new;
      Load();
    }

    method Load()
      modifies this
      ensures Current() == Loaded(old(Current()), hasWindow, storage)
      ensures storage == old(storage)
    {
      if hasWindow {
        if Config.UseMockDataKey in storage {
          useMockData := storage[Config.UseMockDataKey] == "true";
        }
        if Config.ApiEndpointKey in storage && storage[Config.ApiEndpointKey] != "" {
          apiEndpoint := storage[Config.ApiEndpointKey];
        }
      }
    }

    method SetUseMockData(value: bool)
      modifies this
      ensures Current() == old(Current()).(useMockData := value)
      ensures storage == if hasWindow then old(storage)[Config.UseMockDataKey := BoolText(value)] else old(storage)
    {
      useMockData := value;
      if hasWindow {
        storage := storage[Config.UseMockDataKey := BoolText(value)];
      }
    }

    method SetApiEndpoint(value: string)
      modifies this
      ensures Current() == old(Current()).(apiEndpoint := value)
      ensures storage == if hasWindow then old(storage)[Config.ApiEndpointKey := value] else old(storage)
    {
      apiEndpoint := value;
      if hasWindow {
        storage := storage[Config.ApiEndpointKey := value];
      }
    }

    /** Both setters with the defaults, then both keys removed. */
    method ResetToDefaults()
      modifies this
      ensures Current() == Defaults
      ensures storage == if hasWindow then old(storage) - {Config.UseMockDataKey, Config.ApiEndpointKey} else old(storage)
    {
      SetUseMockData(true);
      SetApiEndpoint(DefaultApiEndpoints[0]);
      if hasWindow {
        storage := storage - {Config.UseMockDataKey, Config.ApiEndpointKey};
      }
    }
  }

  /** A written mock flag reads back as written, and leaves the endpoint's load alone. */
  lemma LoadAfterSetUseMockData(p: Prefs, storage: map<string, string>, value: bool)
    ensures Loaded(p, true, storage[Config.UseMockDataKey := BoolText(value)])
      == Loaded(p, true, storage).(useMockData := value)
  {
  }

  /** A written endpoint reads back when non-empty; an empty one is ignored on load. */
  lemma LoadAfterSetApiEndpoint(p: Prefs, storage: map<string, string>, value: string)
    ensures value != "" ==>
      Loaded(p, true, storage[Config.ApiEndpointKey := value]) == Loaded(p, true, storage).(apiEndpoint := value)
    ensures value == "" ==>
      Loaded(p, true, storage[Config.ApiEndpointKey := value]) == Loaded(p, true, storage - {Config.ApiEndpointKey})
  {
  }

  /** After a reset nothing is stored, so a load keeps whatever state it starts from. */
  lemma LoadAfterReset(p: Prefs, storage: map<string, string>)
    ensures Loaded(p, true, storage - {Config.UseMockDataKey, Config.ApiEndpointKey}) == p
  {
  }

  /** The provider's default list is the config's list. */
  lemma DefaultsMatchConfig()
    ensures DefaultApiEndpoints == Config.ApiEndpoints
    ensures Defaults == Prefs(Config.GetUseMockData(Config.Server), Config.GetApiEndpoint(Config.Server, ""))
  {
  }

  /**
   * The provider's load from the defaults and the config getters read the
   * same storage the same way, as long as no environment endpoint is set.
   */
  lemma LoadAgreesWithConfig(hasWindow: bool, storage: map<string, string>)
    ensures var h := if hasWindow then Config.Browser(storage) else Config.Server;
      Loaded(Defaults, hasWindow, storage) == Prefs(Config.GetUseMockData(h), Config.GetApiEndpoint(h, ""))
  {
  }
}
