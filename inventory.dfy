/** `LinuxSSHTool.load_servers`: the `servers` list of the inventory, made of
    bare host names and mappings, becomes a list of mappings that all carry
    a `port`. */
module Inventory {
  import opened Values

  /** One element of the parsed `servers` list. Anything that is neither a
      string nor a mapping (a number, null, a nested list) is Malformed. */
  datatype Entry = HostName(name: string) | HostRecord(fields: Record) | Malformed

  /** The entry at `index` could not be read; the tool stops with exit status 1. */
  datatype LoadError = UnreadableEntry(index: nat)

  /** `config.get('port', 22)`: the configured port, or 22 when the key is absent. */
  function DefaultPort(config: Record): (port: Scalar)
    ensures "port" in config ==> port == config["port"]
    ensures "port" !in config ==> port == Number(22)
  {
    GetOr(config, "port", Number(22))
  }

  /** The normalisation of one entry; None for an entry the source fails on. */
  function NormalizeEntry(config: Record, e: Entry): (r: Option<Record>)
    ensures r.None? <==> e.Malformed?
    ensures e.HostName? ==>
      r == Some(map["host" := Text(e.name), "port" := if "port" in config then config["port"] else Number(22)])
    ensures e.HostRecord? ==>
      && r.Some?
      && r.value.Keys == e.fields.Keys + {"port"}
      && (forall k :: k in e.fields && k != "port" ==> r.value[k] == e.fields[k])
      && r.value["port"] == (if "port" in e.fields then e.fields["port"]
                             else if "port" in config then config["port"] else Number(22))
  {
    match e
    case HostName(name) => Some(map["host" := Text(name), "port" := DefaultPort(config)])
    case HostRecord(fields) => Some(fields["port" := GetOr(fields, "port", DefaultPort(config))])
    case Malformed => None
  }

  /** Normalisation is idempotent: a normalised server, read back as a
      record entry, normalises to itself whatever the configuration. */
  lemma NormalizeIdempotent(config: Record, config': Record, e: Entry)
    requires !e.Malformed?
    ensures NormalizeEntry(config', HostRecord(NormalizeEntry(config, e).value))
            == NormalizeEntry(config, e)
  {
    var r := NormalizeEntry(config, e).value;
    var r' := NormalizeEntry(config', HostRecord(r)).value;
    assert r'.Keys == r.Keys;
    assert forall k :: k in r ==> r'[k] == r[k];
    assert r' == r;
  }

  /** The loop of `load_servers`: one output per entry, in declaration order,
      or the index of the first entry the loop fails on. */
  method LoadServers(config: Record, entries: seq<Entry>) returns (r: Result<seq<Record>, LoadError>)
    ensures r.Ok? <==> forall i :: 0 <= i < |entries| ==> !entries[i].Malformed?
    ensures r.Ok? ==>
      && |r.value| == |entries|
      && forall i :: 0 <= i < |entries| ==> NormalizeEntry(config, entries[i]) == Some(r.value[i])
    ensures r.Err? ==>
      && r.error.index < |entries|
      && entries[r.error.index].Malformed?
      && forall i :: 0 <= i < r.error.index ==> !entries[i].Malformed?
  {
    var normalized: seq<Record> := [];
    var i := 0;
    while i < |entries|
      invariant 0 <= i <= |entries|
      invariant |normalized| == i
      invariant forall k :: 0 <= k < i ==>
        !entries[k].Malformed? && NormalizeEntry(config, entries[k]) == Some(normalized[k])
    {
      match entries[i] {
        case HostName(name) =>
          normalized := normalized + [map["host" := Text(name), "port" := DefaultPort(config)]];
        case HostRecord(fields) =>
          // the source writes the port into the record it was given
          var s := fields["port" := GetOr(fields, "port", DefaultPort(config))];
          normalized := normalized + [s];
        case Malformed =>
          return Err(UnreadableEntry(i));
      }
      i := i + 1;
    }
    return Ok(normalized);
  }
}
