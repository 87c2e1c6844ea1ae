/** The `LinuxSSHTool` object: its constructor loads the configuration and
    then the server list, and nothing changes either afterwards. The
    server lookups that both dispatch loops perform live here too. */
module Neutron {
  import opened Values
  import opened Config
  import opened Inventory

  datatype Tool = Tool(config: Record, servers: seq<Record>)

  /** Why the constructor ends the process with exit status 1. */
  datatype StartupError = BadConfig(reason: ConfigError) | BadServerList(cause: LoadError)

  /** `LinuxSSHTool.__init__` over already parsed files: `ssh` is the `ssh`
      entry of the configuration, `entries` the `servers` list of the
      inventory. The server list is only read once the configuration has
      been accepted, and it is normalised with the accepted section. */
  method Startup(ssh: Option<Record>, entries: seq<Entry>) returns (r: Result<Tool, StartupError>)
    ensures LoadConfig(ssh).Err? ==> r == Err(BadConfig(LoadConfig(ssh).error))
    ensures r.Ok? <==> LoadConfig(ssh).Ok? && forall i :: 0 <= i < |entries| ==> !entries[i].Malformed?
    ensures r.Ok? ==>
      && r.value.config == LoadConfig(ssh).value
      && "user" in r.value.config
      && |r.value.servers| == |entries|
      && forall i :: 0 <= i < |entries| ==>
           NormalizeEntry(r.value.config, entries[i]) == Some(r.value.servers[i])
    ensures LoadConfig(ssh).Ok? && r.Err? ==>
      && r.error.BadServerList?
      && r.error.cause.index < |entries|
      && entries[r.error.cause.index].Malformed?
      && forall i :: 0 <= i < r.error.cause.index ==> !entries[i].Malformed?
  {
    var config := LoadConfig(ssh);
    if config.Err? {
      return Err(BadConfig(config.error));
    }
    var servers := LoadServers(config.value, entries);
    if servers.Err? {
      return Err(BadServerList(servers.error));
    }
    return Ok(Tool(config.value, servers.value));
  }

  /** `server['host']` and `server['port']` both succeed. After
      normalisation every server has a port, but a record entry need not
      have a host. */
  predicate Addressable(server: Record)
  {
    "host" in server && "port" in server
  }

  /** How many servers, from the first, can be looked up before the first
      one that cannot. */
  function Reachable(servers: seq<Record>): (n: nat)
    ensures n <= |servers|
    ensures forall k :: 0 <= k < n ==> Addressable(servers[k])
    ensures n < |servers| ==> !Addressable(servers[n])
  {
    if servers == [] || !Addressable(servers[0]) then 0 else 1 + Reachable(servers[1..])
  }
}
