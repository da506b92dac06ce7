/**
 * `PortScanner` (scanners/port_scanner.py): one TCP probe per (host, port),
 * the open ports of a host collected in the order of the port list, a log
 * line for every host with at least one open port.
 */
module PortScanning {
  import opened Wrappers
  import opened PyStr

  /**
   * A port value as the scanner receives it. The scanner is written for
   * integers; the command line hands it the strings of `--ports`.
   */
  datatype Port = PortInt(n: int) | PortStr(text: string)

  /** Python truthiness of a port value (`if future.result():`). */
  predicate Truthy(p: Port) {
    match p
    case PortInt(n) => n != 0
    case PortStr(text) => text != ""
  }

  /** `str(port)`. */
  function PortText(p: Port): string {
    match p
    case PortInt(n) => IntToString(n)
    case PortStr(text) => text
  }

  /** `', '.join(map(str, ports))`. */
  function JoinPorts(ports: seq<Port>): string {
    Join(seq(|ports|, i requires 0 <= i < |ports| => PortText(ports[i])), ", ")
  }

  /** What the operating system answers to a connect: an error code, or a failure that raises. */
  datatype ConnectOutcome = Returned(code: int) | Raised

  /** The largest port number an `AF_INET` address may carry. */
  const MaxPort: int := 65535

  /**
   * `sock.connect_ex((host, port))`. CPython parses the address before it
   * connects: a port that is not an `int` raises TypeError and one outside
   * 0-65535 raises OverflowError; only then does `connect` answer.
   */
  function ConnectEx(host: string, port: Port, connect: (string, int) -> ConnectOutcome): (r: ConnectOutcome)
    ensures port.PortStr? ==> r == Raised
    ensures port.PortInt? && !(0 <= port.n <= MaxPort) ==> r == Raised
  {
    match port
    case PortStr(_) => Raised
    case PortInt(n) => if 0 <= n <= MaxPort then connect(host, n) else Raised
  }

  /**
   * `scan_port`: the port when `connect_ex` returned 0, otherwise None; the
   * exceptions of `connect_ex` are caught and also give None.
   */
  function ScanPort(host: string, port: Port, connect: (string, int) -> ConnectOutcome): (r: Option<Port>)
    ensures r.Some? <==> port.PortInt? && 0 <= port.n <= MaxPort && connect(host, port.n) == Returned(0)
    ensures r.Some? ==> r.value == port
  {
    match ConnectEx(host, port, connect)
    case Returned(code) => if code == 0 then Some(port) else None
    case Raised => None
  }

  /** The ports `scan_subdomain` collects for `host`, in the order of `ports`. */
  function OpenPorts(host: string, ports: seq<Port>, connect: (string, int) -> ConnectOutcome): seq<Port>
  {
    if ports == [] then []
    else
      var r := ScanPort(host, ports[|ports| - 1], connect);
      OpenPorts(host, ports[..|ports| - 1], connect) + (if r.Some? && Truthy(r.value) then [r.value] else [])
  }

  /** The line `scan_subdomain` logs for a host with open ports. */
  function OpenPortsLine(host: string, open: seq<Port>): string {
    host + " - Open ports: " + JoinPorts(open)
  }

  /** `scan_subdomain`: probe every port of the list in order, keep the truthy results. */
  method ScanSubdomain(host: string, ports: seq<Port>, connect: (string, int) -> ConnectOutcome)
    returns (open: seq<Port>, logged: Option<string>)
    ensures open == OpenPorts(host, ports, connect)
    ensures logged == if open != [] then Some(OpenPortsLine(host, open)) else None
  {
    open := [];
    var i := 0;
    while i < |ports|
      invariant 0 <= i <= |ports|
      invariant open == OpenPorts(host, ports[..i], connect)
    {
      assert ports[..i + 1][..i] == ports[..i];
      var result := ScanPort(host, ports[i], connect);
      if result.Some? && Truthy(result.value) {
        open := open + [result.value];
      }
      i := i + 1;
    }
    assert ports[..i] == ports;
    logged := if open != [] then Some(OpenPortsLine(host, open)) else None;
  }

  /**
   * A port is listed exactly when it is an integer port of the list between
   * 1 and 65535 whose probe returned 0 (port 0 is falsy and dropped).
   */
  lemma {:induction false} OpenPortsMember(host: string, ports: seq<Port>, connect: (string, int) -> ConnectOutcome, p: Port)
    ensures p in OpenPorts(host, ports, connect)
        <==> p in ports && p.PortInt? && 0 < p.n <= MaxPort && connect(host, p.n) == Returned(0)
    decreases |ports|
  {
    if ports != [] {
      var init := ports[..|ports| - 1];
      OpenPortsMember(host, init, connect, p);
      assert ports == init + [ports[|ports| - 1]];
    }
  }

  /** Scanning a concatenated port list concatenates the results: the port order is kept. */
  lemma {:induction false} OpenPortsAppend(host: string, a: seq<Port>, b: seq<Port>, connect: (string, int) -> ConnectOutcome)
    ensures OpenPorts(host, a + b, connect) == OpenPorts(host, a, connect) + OpenPorts(host, b, connect)
    decreases |b|
  {
    if b != [] {
      var initB := b[..|b| - 1];
      assert (a + b)[..|a + b| - 1] == a + initB;
      OpenPortsAppend(host, a, initB, connect);
    } else {
      assert a + b == a;
    }
  }

  /** Ports given as strings never show up open: every probe dies in `connect_ex`'s TypeError. */
  lemma {:induction false} StringPortsNeverOpen(host: string, ports: seq<Port>, connect: (string, int) -> ConnectOutcome)
    requires forall i :: 0 <= i < |ports| ==> ports[i].PortStr?
    ensures OpenPorts(host, ports, connect) == []
    decreases |ports|
  {
    if ports != [] {
      StringPortsNeverOpen(host, ports[..|ports| - 1], connect);
    }
  }

  /**
   * What `run` produces: a log line per host with at least one open port,
   * in no particular order; a host with none is absent.
   */
  function ScanReport(hosts: set<string>, ports: seq<Port>, connect: (string, int) -> ConnectOutcome): map<string, seq<Port>>
  {
    map h | h in hosts && OpenPorts(h, ports, connect) != [] :: OpenPorts(h, ports, connect)
  }

  /** With string ports the report is empty whatever the hosts and the network. */
  lemma StringPortsReportNothing(hosts: set<string>, ports: seq<Port>, connect: (string, int) -> ConnectOutcome)
    requires forall i :: 0 <= i < |ports| ==> ports[i].PortStr?
    ensures ScanReport(hosts, ports, connect) == map[]
  {
    forall h | h in hosts ensures OpenPorts(h, ports, connect) == [] {
      StringPortsNeverOpen(h, ports, connect);
    }
  }

  /** `run`: scan every host of the set; the set itself is left as it is. */
  method Run(hosts: set<string>, ports: seq<Port>, connect: (string, int) -> ConnectOutcome)
    returns (report: map<string, seq<Port>>)
    ensures report == ScanReport(hosts, ports, connect)
  {
    report := map[];
    var pending := hosts;
    while pending != {}
      invariant pending <= hosts
      invariant report == ScanReport(hosts - pending, ports, connect)
      decreases pending
    {
      var host :| host in pending;
      var open, logged := ScanSubdomain(host, ports, connect);
      if logged.Some? {
        report := report[host := open];
      }
      pending := pending - {host};
    }
  }
}
