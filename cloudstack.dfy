/** The adapter object of cloudstack.go: configuration, construction, the
    capability gates and zone resolution with its cache. */
module CloudStack {
  import opened Wrappers
  import opened Remote
  import opened CloudProvider

  /** The `[Global]` section of the provider configuration. */
  datatype CSConfig = CSConfig(
    apiURL: string,
    apiKey: string,
    secretKey: string,
    sslNoVerify: bool,
    projectID: string,
    zone: string)

  /** The configuration with every field at its zero value. */
  const ZERO_CONFIG: CSConfig := CSConfig("", "", "", false, "", "")

  /** The configuration reader: `None` is a nil reader; `Some(parsed)` is a
      present reader together with what the INI parser made of it. */
  function ReadConfig(config: Option<Result<CSConfig, string>>): (r: Result<CSConfig, Error>)
    ensures config.None? ==> r == Ok(ZERO_CONFIG)
    ensures config.Some? && config.value.Err? ==> r == Err(ConfigParse(config.value.error))
    ensures config.Some? && config.value.Ok? ==> r == Ok(config.value.value)
  {
    match config
    case None => Ok(ZERO_CONFIG)
    case Some(Err(cause)) => Err(ConfigParse(cause))
    case Some(Ok(cfg)) => Ok(cfg)
  }

  /** The three settings without which no client is built. */
  predicate HasCredentials(cfg: CSConfig) {
    cfg.apiURL != "" && cfg.apiKey != "" && cfg.secretKey != ""
  }

  /** An authenticated API client handle, as `NewAsyncClient` builds it. */
  datatype Client = Client(apiURL: string, apiKey: string, secretKey: string, verifySSL: bool)

  /** What `GetZone` returns and what the zone cache holds afterwards, given
      the cached zone, the remote platform and the outcome of `os.Hostname()`. */
  function ZoneStep(cached: string, remote: Oracle, hostname: Result<string, string>): (out: (Result<Zone, Error>, string))
    ensures out.0.Ok? ==> out.0.value == Zone(out.1, out.1)
    ensures out.0.Err? ==> out.1 == cached
    ensures cached != "" ==> out == (Ok(Zone(cached, cached)), cached)
    ensures cached == "" && hostname.Err? ==> out.0 == Err(HostnameUnavailable(hostname.error))
    ensures cached == "" && hostname.Ok? ==>
      match remote(ByName(hostname.value, AnyProject))
      case Found(vm) => out.1 == vm.zonename && out.0.Ok?
      case Failed(count, cause) => out.0.Err? && (out.0.error.NotFound? <==> count == 0)
  {
    if cached != "" then (Ok(Zone(cached, cached)), cached)
    else
      match hostname
      case Err(cause) => (Err(HostnameUnavailable(cause)), cached)
      case Ok(host) =>
        match remote(ByName(host, AnyProject))
        case Failed(count, cause) =>
          if count == 0 then (Err(NotFound("could not find instance for retrieving the zone", cause)), cached)
          else (Err(Retrieval("error getting instance for retrieving the zone", cause)), cached)
        case Found(vm) => (Ok(Zone(vm.zonename, vm.zonename)), vm.zonename)
  }

  /** `CSCloud`: the client handle, the project scope and the zone cache. */
  class CSCloud {
    var client: Option<Client>
    var projectID: string
    var zone: string

    /** The struct literal `&CSCloud{projectID: ..., zone: ...}`, no client yet. */
    constructor (projectID: string, zone: string)
      ensures this.client == None && this.projectID == projectID && this.zone == zone
    {
      this.client := None;
      this.projectID := projectID;
      this.zone := zone;
    }

    function LoadBalancer(): (r: Option<CSCloud>)
      reads this`client
      ensures r.Some? <==> client.Some?
      ensures r.Some? ==> r.value == this
    {
      if client.None? then None else Some(this)
    }

    function Instances(): (r: Option<CSCloud>)
      reads this`client
      ensures r.Some? <==> client.Some?
      ensures r.Some? ==> r.value == this
    {
      if client.None? then None else Some(this)
    }

    function InstancesV2(): (r: Option<CSCloud>)
      reads this`client
      ensures r.Some? <==> client.Some?
      ensures r.Some? ==> r.value == this
    {
      if client.None? then None else Some(this)
    }

    function Zones(): (r: Option<CSCloud>)
      reads this`client
      ensures r.Some? <==> client.Some?
      ensures r.Some? ==> r.value == this
    {
      if client.None? then None else Some(this)
    }

    /** Unsupported with or without a client (a warning is logged when one exists). */
    function Clusters(): (r: Option<CSCloud>)
      ensures r.None?
    {
      None
    }

    /** Unsupported with or without a client (a warning is logged when one exists). */
    function Routes(): (r: Option<CSCloud>)
      ensures r.None?
    {
      None
    }

    function ProviderName(): (name: string)
      ensures name == "external-cloudstack"
    {
      PROVIDER_NAME
    }

    function HasClusterID(): (has: bool)
      ensures has
    {
      true
    }

    /** The zone the adapter runs in: the cached zone when there is one,
        otherwise the zone of the instance named after the local host, looked
        up without project scope and then cached. */
    method GetZone(remote: Oracle, hostname: Result<string, string>) returns (r: Result<Zone, Error>)
      requires zone == "" ==> client.Some?
      modifies this`zone
      ensures (r, zone) == ZoneStep(old(zone), remote, hostname)
    {
      if zone == "" {
        if hostname.Err? {
          return Err(HostnameUnavailable(hostname.error));
        }
        var lookup := remote(ByName(hostname.value, AnyProject));
        if lookup.Failed? {
          if lookup.count == 0 {
            return Err(NotFound("could not find instance for retrieving the zone", lookup.cause));
          }
          return Err(Retrieval("error getting instance for retrieving the zone", lookup.cause));
        }
        zone := lookup.instance.zonename;
      }
      r := Ok(Zone(zone, zone));
    }

    /** The zone of the instance with the given provider ID, looked up afresh
        in the project; the zone cache is neither read nor written. */
    function GetZoneByProviderID(remote: Oracle, providerID: string): (r: Result<Zone, Error>)
      reads this`client, this`projectID
      requires client.Some?
      ensures r.Ok? <==> remote(ByID(providerID, InProject(projectID))).Found?
      ensures r.Ok? ==> var vm := remote(ByID(providerID, InProject(projectID))).instance;
        r.value.failureDomain == vm.zonename && r.value.region == vm.zonename
      ensures r.Err? ==> var count := remote(ByID(providerID, InProject(projectID))).count;
        (r.error == NotFound("could not find node by ID", providerID) <==> count == 0)
    {
      match remote(ByID(providerID, InProject(projectID)))
      case Failed(count, cause) =>
        if count == 0 then Err(NotFound("could not find node by ID", providerID))
        else Err(Retrieval("error retrieving zone", cause))
      case Found(vm) => Ok(Zone(vm.zonename, vm.zonename))
    }

    /** The zone of the instance with the given node name, looked up afresh in
        the project; the zone cache is neither read nor written. */
    function GetZoneByNodeName(remote: Oracle, nodeName: string): (r: Result<Zone, Error>)
      reads this`client, this`projectID
      requires client.Some?
      ensures r.Ok? <==> remote(ByName(nodeName, InProject(projectID))).Found?
      ensures r.Ok? ==> var vm := remote(ByName(nodeName, InProject(projectID))).instance;
        r.value.failureDomain == vm.zonename && r.value.region == vm.zonename
      ensures r.Err? ==> var count := remote(ByName(nodeName, InProject(projectID))).count;
        (r.error == NotFound("could not find node", nodeName) <==> count == 0)
    {
      match remote(ByName(nodeName, InProject(projectID)))
      case Failed(count, cause) =>
        if count == 0 then Err(NotFound("could not find node", nodeName))
        else Err(Retrieval("error retrieving zone", cause))
      case Found(vm) => Ok(Zone(vm.zonename, vm.zonename))
    }
  }

  /** `newCSCloud`: copies project and zone from the configuration and builds
      a client only when all three credentials are present; without a client
      construction fails. */
  method NewCSCloud(cfg: CSConfig) returns (r: Result<CSCloud, Error>)
    ensures r.Ok? <==> HasCredentials(cfg)
    ensures r.Err? ==> r.error == NoProviderConfig
    ensures r.Ok? ==> fresh(r.value)
    ensures r.Ok? ==> r.value.projectID == cfg.projectID && r.value.zone == cfg.zone
    ensures r.Ok? ==> r.value.client == Some(Client(cfg.apiURL, cfg.apiKey, cfg.secretKey, !cfg.sslNoVerify))
  {
    var cs := new CSCloud(cfg.projectID, cfg.zone);
    if cfg.apiURL != "" && cfg.apiKey != "" && cfg.secretKey != "" {
      cs.client := Some(Client(cfg.apiURL, cfg.apiKey, cfg.secretKey, !cfg.sslNoVerify));
    }
    if cs.client.None? {
      return Err(NoProviderConfig);
    }
    r := Ok(cs);
  }

  /** Without a configuration file the provider cannot be constructed. */
  lemma NilConfigHasNoCredentials()
    ensures ReadConfig(None).Ok? && !HasCredentials(ReadConfig(None).value)
  {
  }

  /** A cached zone is served without a lookup: the result does not depend on
      the remote platform or the host name, and the cache keeps its value. */
  lemma CachedZoneNeedsNoLookup(cached: string, r1: Oracle, r2: Oracle, h1: Result<string, string>, h2: Result<string, string>)
    requires cached != ""
    ensures ZoneStep(cached, r1, h1) == ZoneStep(cached, r2, h2) == (Ok(Zone(cached, cached)), cached)
  {
  }

  /** An empty cache is filled by exactly one lookup, of the local host name
      with no project scope: two platforms that agree on that one query give
      the same result and the same new cache. */
  lemma EmptyCacheLooksUpHostOnly(r1: Oracle, r2: Oracle, host: string)
    requires r1(ByName(host, AnyProject)) == r2(ByName(host, AnyProject))
    ensures ZoneStep("", r1, Ok(host)) == ZoneStep("", r2, Ok(host))
  {
  }

  /** Once a lookup has filled the cache with a non-empty zone, every later
      resolution returns the same zone, whatever the platform answers then. */
  lemma ZoneCacheIsSticky(cached: string, r1: Oracle, h1: Result<string, string>, r2: Oracle, h2: Result<string, string>)
    requires ZoneStep(cached, r1, h1).0.Ok?
    requires ZoneStep(cached, r1, h1).1 != ""
    ensures ZoneStep(ZoneStep(cached, r1, h1).1, r2, h2) == ZoneStep(cached, r1, h1)
  {
  }
}
