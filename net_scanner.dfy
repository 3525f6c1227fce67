/** `NetScanner`: port scans and ping sweeps through nmap, and a reachability
    probe over HTTP. nmap and HTTP are abstract: a scan is given what nmap
    answered (or the text of what it raised), a probe what the request did.
    What is modelled in full is how the answers are filtered. */
module Scanner {
  import opened Wrappers
  import opened Dicts
  import opened PyValues
  import opened Outcomes
  import opened Seqs

  /** A dict keyed by strings, as nmap reports a host or a port. */
  type Fields = Dict<string, Value>

  /** One host of `scan_result['scan']`: its address (the key), the entries
      of its dict other than `tcp`, and its `tcp` dict when it has one, as
      (port number, port data) pairs in dict order. */
  datatype HostScan = HostScan(address: string, fields: Fields, tcp: Option<seq<(int, Fields)>>)

  /** What `nm.scan` returned: the whole result dict, and the hosts of its
      `scan` entry in dict order. */
  datatype NmapResult = NmapResult(raw: Value, hosts: seq<HostScan>)

  /** The two ways the scanner calls nmap. */
  datatype NmapCall = PortScan(host: Value, ports: Value) | PingSweep(subnet: Value)

  type Nmap = NmapCall -> Result<NmapResult, string>

  /** An HTTP response: `elapsed.total_seconds()` (a float, kept as its
      text) and `status_code`. */
  datatype Response = Response(elapsed: Value, statusCode: int)

  /** What `requests.get` did: answered, raised a `RequestException`, or
      raised something else. */
  datatype Probe = Answered(response: Response) | RequestFailed(error: string) | Raised(error: string)

  type Http = string -> Probe

  // ----- `_parse_scan_results` ----------------------------------------------

  /** One entry of `open_ports`. */
  datatype OpenPort = OpenPort(port: int, service: Value, version: Value)

  /** The entry of an open port: its service and version default to
      'unknown'. */
  function PortEntry(port: int, data: Fields): (e: OpenPort)
    ensures e.port == port
    ensures e.service == (if "name" in Keys(data) then Get(data, "name").value else Str("unknown"))
    ensures e.version == (if "version" in Keys(data) then Get(data, "version").value else Str("unknown"))
  {
    OpenPort(port, GetOr(data, "name", Str("unknown")), GetOr(data, "version", Str("unknown")))
  }

  predicate IsOpen(data: Fields) {
    Get(data, "state") == Some(Str("open"))
  }

  /** What one port adds: its entry when its state is 'open', nothing for
      any other state, and the `KeyError` when it has no state. */
  function PortOutcome(port: int, data: Fields): (r: Result<seq<OpenPort>, string>)
    ensures r.Err? <==> "state" !in Keys(data)
    ensures r.Ok? && IsOpen(data) ==> r.value == [PortEntry(port, data)]
    ensures r.Ok? && !IsOpen(data) ==> r.value == []
  {
    match Subscript(data, "state")
    case Err(e) => Err(e)
    case Ok(state) => Ok(if state == Str("open") then [PortEntry(port, data)] else [])
  }

  function PortOutcomes(ports: seq<(int, Fields)>): (outcomes: seq<Result<seq<OpenPort>, string>>)
    ensures |outcomes| == |ports|
    ensures forall j :: 0 <= j < |ports| ==> outcomes[j] == PortOutcome(ports[j].0, ports[j].1)
  {
    seq(|ports|, j requires 0 <= j < |ports| => PortOutcome(ports[j].0, ports[j].1))
  }

  /** What one host adds: nothing without a `tcp` entry, otherwise its open
      ports in port order. */
  function HostOutcome(h: HostScan): (r: Result<seq<OpenPort>, string>)
    ensures h.tcp.None? ==> r == Ok([])
  {
    if h.tcp.None? then Ok([]) else Collect(PortOutcomes(h.tcp.value))
  }

  function HostOutcomes(hosts: seq<HostScan>): (outcomes: seq<Result<seq<OpenPort>, string>>)
    ensures |outcomes| == |hosts|
    ensures forall i :: 0 <= i < |hosts| ==> outcomes[i] == HostOutcome(hosts[i])
  {
    Map(HostOutcome, hosts)
  }

  /** The open ports of a scan, in host order and then port order, or the
      `KeyError` of the first port without a state. */
  function OpenPorts(hosts: seq<HostScan>): Result<seq<OpenPort>, string> {
    Collect(HostOutcomes(hosts))
  }

  /** The inner loop of `_parse_scan_results`: one host's open ports. */
  method ParseHostPorts(h: HostScan) returns (r: Result<seq<OpenPort>, string>)
    ensures r == HostOutcome(h)
  {
    if h.tcp.None? {
      return Ok([]);
    }
    var ports := h.tcp.value;
    ghost var outcomes := PortOutcomes(ports);
    var found: seq<OpenPort> := [];
    for j := 0 to |ports|
      invariant Collect(outcomes[..j]) == Ok(found)
    {
      var (port, data) := ports[j];
      assert outcomes[j] == PortOutcome(port, data);
      var state := Subscript(data, "state");
      if state.Err? {
        CollectStops(outcomes, j);
        return Err(state.error);
      }
      CollectStep(outcomes, j, found);
      if state.value == Str("open") {
        found := found + [PortEntry(port, data)];
      } else {
        assert found + outcomes[j].value == found;
      }
    }
    CollectWhole(outcomes, found);
    return Ok(found);
  }

  /** `_parse_scan_results`. */
  method ParseScanResults(hosts: seq<HostScan>) returns (r: Result<seq<OpenPort>, string>)
    ensures r == OpenPorts(hosts)
  {
    ghost var outcomes := HostOutcomes(hosts);
    var openPorts: seq<OpenPort> := [];
    for i := 0 to |hosts|
      invariant Collect(outcomes[..i]) == Ok(openPorts)
    {
      assert outcomes[i] == HostOutcome(hosts[i]);
      var more := ParseHostPorts(hosts[i]);
      if more.Err? {
        CollectStops(outcomes, i);
        return Err(more.error);
      }
      CollectStep(outcomes, i, openPorts);
      openPorts := openPorts + more.value;
    }
    CollectWhole(outcomes, openPorts);
    return Ok(openPorts);
  }

  /** Port `j` of host `i`'s `tcp` dict is open and `e` is its entry. */
  predicate OpenPortAt(hosts: seq<HostScan>, i: int, j: int, e: OpenPort) {
    && 0 <= i < |hosts| && hosts[i].tcp.Some? && 0 <= j < |hosts[i].tcp.value|
    && IsOpen(hosts[i].tcp.value[j].1)
    && e == PortEntry(hosts[i].tcp.value[j].0, hosts[i].tcp.value[j].1)
  }

  /** Every entry of the parsed list is the entry of an open port. */
  lemma OpenPortsSound(hosts: seq<HostScan>, e: OpenPort)
    requires OpenPorts(hosts).Ok? && e in OpenPorts(hosts).value
    ensures exists i, j :: OpenPortAt(hosts, i, j, e)
  {
    var outcomes := HostOutcomes(hosts);
    CollectSources(outcomes, e);
    var i :| 0 <= i < |outcomes| && outcomes[i].Ok? && e in outcomes[i].value;
    var ports := hosts[i].tcp.value;
    CollectSources(PortOutcomes(ports), e);
    var j :| 0 <= j < |ports| && PortOutcomes(ports)[j].Ok? && e in PortOutcomes(ports)[j].value;
    assert OpenPortAt(hosts, i, j, e);
  }

  /** Every open port of every host has its entry in the parsed list. */
  lemma OpenPortsComplete(hosts: seq<HostScan>, i: int, j: int, e: OpenPort)
    requires OpenPorts(hosts).Ok? && OpenPortAt(hosts, i, j, e)
    ensures e in OpenPorts(hosts).value
  {
    CollectReports(HostOutcomes(hosts), i);
    CollectReports(PortOutcomes(hosts[i].tcp.value), j);
  }

  /** A port is in the parsed list exactly when it is open. */
  lemma OpenPortsExactly(hosts: seq<HostScan>, e: OpenPort)
    requires OpenPorts(hosts).Ok?
    ensures e in OpenPorts(hosts).value <==> exists i, j :: OpenPortAt(hosts, i, j, e)
  {
    if e in OpenPorts(hosts).value {
      OpenPortsSound(hosts, e);
    }
    if exists i, j :: OpenPortAt(hosts, i, j, e) {
      var i, j :| OpenPortAt(hosts, i, j, e);
      OpenPortsComplete(hosts, i, j, e);
    }
  }

  /** The scan raises exactly when some tcp port of some host has no state. */
  lemma OpenPortsFailIff(hosts: seq<HostScan>)
    ensures OpenPorts(hosts).Err? <==>
            exists i, j :: 0 <= i < |hosts| && hosts[i].tcp.Some? && 0 <= j < |hosts[i].tcp.value| &&
                           "state" !in Keys(hosts[i].tcp.value[j].1)
  {
    var outcomes := HostOutcomes(hosts);
    CollectOkIff(outcomes);
    forall i | 0 <= i < |hosts| && hosts[i].tcp.Some?
      ensures outcomes[i].Err? <==>
              exists j :: 0 <= j < |hosts[i].tcp.value| && "state" !in Keys(hosts[i].tcp.value[j].1)
    {
      CollectOkIff(PortOutcomes(hosts[i].tcp.value));
    }
  }

  /** Hosts contribute in host order, each with its own open ports. */
  lemma OpenPortsConcat(a: seq<HostScan>, b: seq<HostScan>)
    requires OpenPorts(a).Ok? && OpenPorts(b).Ok?
    ensures OpenPorts(a + b) == Ok(OpenPorts(a).value + OpenPorts(b).value)
  {
    MapConcat(HostOutcome, a, b);
    CollectConcat(HostOutcomes(a), HostOutcomes(b));
  }

  /** A host without a `tcp` entry contributes nothing, wherever it is. */
  lemma HostWithoutTcpIgnored(a: seq<HostScan>, h: HostScan, b: seq<HostScan>)
    requires h.tcp.None? && OpenPorts(a).Ok? && OpenPorts(b).Ok?
    ensures OpenPorts(a + [h] + b) == OpenPorts(a + b)
  {
    var o := HostOutcomes([h]);
    assert o[..0] == [];
    CollectStep(o, 0, []);
    assert o[..1] == o;
    OpenPortsConcat(a, [h]);
    assert OpenPorts(a).value + OpenPorts([h]).value == OpenPorts(a).value;
    OpenPortsConcat(a, b);
    OpenPortsConcat(a + [h], b);
  }

  function TcpSizes(hosts: seq<HostScan>): (caps: seq<nat>)
    ensures |caps| == |hosts|
    ensures forall i :: 0 <= i < |hosts| ==> caps[i] == if hosts[i].tcp.Some? then |hosts[i].tcp.value| else 0
  {
    seq(|hosts|, i requires 0 <= i < |hosts| => if hosts[i].tcp.Some? then |hosts[i].tcp.value| else 0)
  }

  /** A host adds at most one entry per tcp port. */
  lemma HostOutcomeWithin(h: HostScan)
    requires HostOutcome(h).Ok?
    ensures |HostOutcome(h).value| <= if h.tcp.Some? then |h.tcp.value| else 0
  {
    if h.tcp.Some? {
      var ports := h.tcp.value;
      CollectWithin(PortOutcomes(ports), seq(|ports|, j => 1));
      OnesSum(|ports|);
    }
  }

  lemma {:induction false} OnesSum(n: nat)
    ensures SumNat(seq(n, j => 1)) == n
  {
    if n > 0 {
      assert seq(n, j => 1)[..n - 1] == seq(n - 1, j => 1);
      OnesSum(n - 1);
    }
  }

  /** The list is never longer than the number of tcp ports scanned. */
  lemma OpenPortsWithin(hosts: seq<HostScan>)
    requires OpenPorts(hosts).Ok?
    ensures |OpenPorts(hosts).value| <= SumNat(TcpSizes(hosts))
  {
    var outcomes := HostOutcomes(hosts);
    forall i | 0 <= i < |outcomes| && outcomes[i].Ok?
      ensures |outcomes[i].value| <= TcpSizes(hosts)[i]
    {
      HostOutcomeWithin(hosts[i]);
    }
    CollectWithin(outcomes, TcpSizes(hosts));
  }

  // ----- `_parse_network_scan` ----------------------------------------------

  /** One entry of `hosts`: its `hostnames` default to `[]`; `status` is
      always "up". */
  datatype UpHost = UpHost(ip: string, hostname: Value)

  function UpEntry(h: HostScan): (u: UpHost)
    ensures u.ip == h.address
    ensures u.hostname == (if "hostnames" in Keys(h.fields) then Get(h.fields, "hostnames").value else List([]))
  {
    UpHost(h.address, GetOr(h.fields, "hostnames", List([])))
  }

  /** `scan_result['scan'][host]['status']['state']`, or what indexing raises. */
  function HostState(h: HostScan): (r: Result<Value, string>)
    ensures "status" !in Keys(h.fields) ==> r == Err(KeyErrorText("status"))
    ensures "status" in Keys(h.fields) ==> r == StrIndex(Get(h.fields, "status").value, "state")
  {
    match Subscript(h.fields, "status")
    case Err(e) => Err(e)
    case Ok(status) => StrIndex(status, "state")
  }

  predicate IsUp(h: HostScan) {
    HostState(h) == Ok(Str("up"))
  }

  function UpOutcome(h: HostScan): (r: Result<seq<UpHost>, string>)
    ensures r.Err? <==> HostState(h).Err?
    ensures r.Ok? && IsUp(h) ==> r.value == [UpEntry(h)]
    ensures r.Ok? && !IsUp(h) ==> r.value == []
  {
    match HostState(h)
    case Err(e) => Err(e)
    case Ok(state) => Ok(if state == Str("up") then [UpEntry(h)] else [])
  }

  function UpOutcomes(hosts: seq<HostScan>): (outcomes: seq<Result<seq<UpHost>, string>>)
    ensures |outcomes| == |hosts|
    ensures forall i :: 0 <= i < |hosts| ==> outcomes[i] == UpOutcome(hosts[i])
  {
    Map(UpOutcome, hosts)
  }

  /** The hosts that are up, in scan order, or what reading the first
      unreadable state raised. */
  function UpHosts(hosts: seq<HostScan>): Result<seq<UpHost>, string> {
    Collect(UpOutcomes(hosts))
  }

  /** `_parse_network_scan`. */
  method ParseNetworkScan(hosts: seq<HostScan>) returns (r: Result<seq<UpHost>, string>)
    ensures r == UpHosts(hosts)
  {
    ghost var outcomes := UpOutcomes(hosts);
    var up: seq<UpHost> := [];
    for i := 0 to |hosts|
      invariant Collect(outcomes[..i]) == Ok(up)
    {
      var state := HostState(hosts[i]);
      assert outcomes[i] == UpOutcome(hosts[i]);
      if state.Err? {
        CollectStops(outcomes, i);
        return Err(state.error);
      }
      CollectStep(outcomes, i, up);
      if state.value == Str("up") {
        up := up + [UpEntry(hosts[i])];
      } else {
        assert up + outcomes[i].value == up;
      }
    }
    CollectWhole(outcomes, up);
    return Ok(up);
  }

  /** A host is listed exactly when its state is 'up'. */
  lemma UpHostsExactly(hosts: seq<HostScan>, u: UpHost)
    requires UpHosts(hosts).Ok?
    ensures u in UpHosts(hosts).value <==> exists i :: 0 <= i < |hosts| && IsUp(hosts[i]) && u == UpEntry(hosts[i])
  {
    var outcomes := UpOutcomes(hosts);
    if u in UpHosts(hosts).value {
      CollectSources(outcomes, u);
    }
    if exists i :: 0 <= i < |hosts| && IsUp(hosts[i]) && u == UpEntry(hosts[i]) {
      var i :| 0 <= i < |hosts| && IsUp(hosts[i]) && u == UpEntry(hosts[i]);
      CollectReports(outcomes, i);
    }
  }

  /** The sweep raises exactly when some host's state cannot be read. */
  lemma UpHostsFailIff(hosts: seq<HostScan>)
    ensures UpHosts(hosts).Err? <==> exists i :: 0 <= i < |hosts| && HostState(hosts[i]).Err?
  {
    CollectOkIff(UpOutcomes(hosts));
  }

  /** Hosts are listed in scan order. */
  lemma UpHostsConcat(a: seq<HostScan>, b: seq<HostScan>)
    requires UpHosts(a).Ok? && UpHosts(b).Ok?
    ensures UpHosts(a + b) == Ok(UpHosts(a).value + UpHosts(b).value)
  {
    MapConcat(UpOutcome, a, b);
    CollectConcat(UpOutcomes(a), UpOutcomes(b));
  }

  // ----- the public operations -------------------------------------------------

  /** The dicts of `open_ports`. */
  function OpenPortValues(ports: seq<OpenPort>): (vs: seq<Value>)
    ensures |vs| == |ports|
    ensures forall k :: 0 <= k < |ports| ==>
              vs[k] == Object([("port", Int(ports[k].port)), ("service", ports[k].service), ("version", ports[k].version)])
  {
    seq(|ports|, k requires 0 <= k < |ports| =>
      Object([("port", Int(ports[k].port)), ("service", ports[k].service), ("version", ports[k].version)]))
  }

  /** The dicts of `hosts`, each with status "up". */
  function UpHostValues(hosts: seq<UpHost>): (vs: seq<Value>)
    ensures |vs| == |hosts|
    ensures forall k :: 0 <= k < |hosts| ==>
              vs[k] == Object([("ip", Str(hosts[k].ip)), ("hostname", hosts[k].hostname), ("status", Str("up"))])
  {
    seq(|hosts|, k requires 0 <= k < |hosts| =>
      Object([("ip", Str(hosts[k].ip)), ("hostname", hosts[k].hostname), ("status", Str("up"))]))
  }

  /** The answer of `scan_ports` for what nmap answered. */
  function ScanEnvelope(scan: Result<NmapResult, string>): (r: Envelope)
    ensures scan.Err? ==> r == Error(scan.error)
    ensures scan.Ok? && OpenPorts(scan.value.hosts).Err? ==> r == Error(OpenPorts(scan.value.hosts).error)
    ensures scan.Ok? && OpenPorts(scan.value.hosts).Ok? ==>
              r == Success([("scan_result", scan.value.raw),
                            ("open_ports", List(OpenPortValues(OpenPorts(scan.value.hosts).value)))])
  {
    match scan
    case Err(e) => Error(e)
    case Ok(result) =>
      match OpenPorts(result.hosts)
      case Err(e) => Error(e)
      case Ok(ports) => Success([("scan_result", result.raw), ("open_ports", List(OpenPortValues(ports)))])
  }

  /** `scan_ports`. */
  method ScanPorts(host: Value, ports: Value, nmap: Nmap) returns (r: Envelope)
    ensures r == ScanEnvelope(nmap(PortScan(host, ports)))
  {
    var scan := nmap(PortScan(host, ports));
    if scan.Err? {
      return Error(scan.error);
    }
    var openPorts := ParseScanResults(scan.value.hosts);
    if openPorts.Err? {
      return Error(openPorts.error);
    }
    return Success([("scan_result", scan.value.raw), ("open_ports", List(OpenPortValues(openPorts.value)))]);
  }

  /** `check_connectivity`: an answer or a failed request both succeed,
      reporting whether the host was reachable; anything else the request
      raised is left to the caller. */
  function Connectivity(host: Value, http: Http): (r: Result<Envelope, string>)
    ensures http("http://" + PyStr(host)).Raised? <==> r.Err?
    ensures r.Ok? ==> r.value.Success? && |r.value.payload| == 1 && r.value.payload[0].0 == "connectivity"
    ensures http("http://" + PyStr(host)).Answered? ==>
              r.Ok? && r.value.payload[0].1.Object? && r.value.payload[0].1.fields != [] &&
              r.value.payload[0].1.fields[0] == ("reachable", Bool(true))
    ensures http("http://" + PyStr(host)).RequestFailed? ==>
              r.Ok? && r.value.payload[0].1 ==
                Object([("reachable", Bool(false)), ("error", Str(http("http://" + PyStr(host)).error))])
  {
    match http("http://" + PyStr(host))
    case Answered(response) =>
      Ok(Success([("connectivity", Object([("reachable", Bool(true)),
                                           ("response_time", response.elapsed),
                                           ("status_code", Int(response.statusCode))]))]))
    case RequestFailed(e) =>
      Ok(Success([("connectivity", Object([("reachable", Bool(false)), ("error", Str(e))]))]))
    case Raised(e) => Err(e)
  }

  /** The answer of `analyze_network` for what nmap answered. */
  function NetworkEnvelope(scan: Result<NmapResult, string>): (r: Envelope)
    ensures scan.Err? ==> r == Error(scan.error)
    ensures scan.Ok? && UpHosts(scan.value.hosts).Err? ==> r == Error(UpHosts(scan.value.hosts).error)
    ensures scan.Ok? && UpHosts(scan.value.hosts).Ok? ==>
              r == Success([("hosts", List(UpHostValues(UpHosts(scan.value.hosts).value)))])
  {
    match scan
    case Err(e) => Error(e)
    case Ok(result) =>
      match UpHosts(result.hosts)
      case Err(e) => Error(e)
      case Ok(up) => Success([("hosts", List(UpHostValues(up)))])
  }

  /** `analyze_network`. */
  method AnalyzeNetwork(subnet: Value, nmap: Nmap) returns (r: Envelope)
    ensures r == NetworkEnvelope(nmap(PingSweep(subnet)))
  {
    var scan := nmap(PingSweep(subnet));
    if scan.Err? {
      return Error(scan.error);
    }
    var up := ParseNetworkScan(scan.value.hosts);
    if up.Err? {
      return Error(up.error);
    }
    return Success([("hosts", List(UpHostValues(up.value)))]);
  }

  /** `execute`: three operations, each reading its parameters; a missing
      `host` or `subnet` is reported as an error, and an unknown operation
      answers `None`. */
  method Execute(operation: string, params: Dict<string, Value>, nmap: Nmap, http: Http)
    returns (r: Option<Envelope>)
    ensures operation !in {"scan_ports", "check_connectivity", "analyze_network"} ==> r == None
    ensures operation == "scan_ports" && "host" !in Keys(params) ==> r == Some(Error(KeyErrorText("host")))
    ensures operation == "scan_ports" && "host" in Keys(params) ==>
              r == Some(ScanEnvelope(nmap(PortScan(Get(params, "host").value, GetOr(params, "ports", Str("1-1024"))))))
    ensures operation == "check_connectivity" && "host" !in Keys(params) ==> r == Some(Error(KeyErrorText("host")))
    ensures operation == "check_connectivity" && "host" in Keys(params) ==>
              var c := Connectivity(Get(params, "host").value, http);
              r == Some(if c.Ok? then c.value else Error(c.error))
    ensures operation == "analyze_network" && "subnet" !in Keys(params) ==> r == Some(Error(KeyErrorText("subnet")))
    ensures operation == "analyze_network" && "subnet" in Keys(params) ==>
              r == Some(NetworkEnvelope(nmap(PingSweep(Get(params, "subnet").value))))
  {
    if operation == "scan_ports" {
      var host := Subscript(params, "host");
      if host.Err? {
        return Some(Error(host.error));
      }
      var e := ScanPorts(host.value, GetOr(params, "ports", Str("1-1024")), nmap);
      return Some(e);
    } else if operation == "check_connectivity" {
      var host := Subscript(params, "host");
      if host.Err? {
        return Some(Error(host.error));
      }
      var c := Connectivity(host.value, http);
      return Some(if c.Ok? then c.value else Error(c.error));
    } else if operation == "analyze_network" {
      var subnet := Subscript(params, "subnet");
      if subnet.Err? {
        return Some(Error(subnet.error));
      }
      var e := AnalyzeNetwork(subnet.value, nmap);
      return Some(e);
    }
    return None;
  }
}
