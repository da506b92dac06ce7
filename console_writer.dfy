/**
 * `write_to_console` (output/console_writer.py): clean and sort the hosts,
 * split them into wildcard, valid and invalid lists by walking the sorted
 * list, then print a summary and the three sections.
 */
module ConsoleWriter {
  import opened Wrappers
  import opened PyStr
  import opened Sorting
  import opened Helpers
  import opened PortScanning

  /** `is_wildcard`: the host starts with `*.`. */
  function IsWildcard(s: string): (r: bool)
    ensures r <==> |s| >= 2 && s[0] == '*' && s[1] == '.'
  {
    StartsWith(s, "*.")
  }

  /** What `dns.resolver.resolve(host, 'A')` does with the system resolver. */
  datatype DnsOutcome =
    | Resolved
    | NoAnswer
    | NXDomain
    | Timeout
    | NoNameservers
    | OtherError(name: string)  // any other exception: not caught, it propagates

  /** The four resolver exceptions `is_valid_subdomain` turns into False. */
  predicate IsNegative(d: DnsOutcome) {
    d.NoAnswer? || d.NXDomain? || d.Timeout? || d.NoNameservers?
  }

  /**
   * `is_valid_subdomain`: False for a wildcard without asking the resolver;
   * otherwise True on an answer, False on the four negative outcomes, and
   * the exception itself for anything else.
   */
  function IsValidSubdomain(s: string, dns: string -> DnsOutcome): (r: Result<bool, string>)
    ensures IsWildcard(s) ==> r == Ok(false)
    ensures !IsWildcard(s) ==> (r == Ok(true) <==> dns(s) == Resolved)
    ensures !IsWildcard(s) ==> (r == Ok(false) <==> IsNegative(dns(s)))
    ensures r.Err? <==> !IsWildcard(s) && dns(s).OtherError?
  {
    if IsWildcard(s) then Ok(false)
    else
      match dns(s)
      case Resolved => Ok(true)
      case OtherError(name) => Err(name)
      case _ => Ok(false)
  }

  datatype Partition = Partition(valid: seq<string>, invalid: seq<string>, wildcard: seq<string>)

  /**
   * The lists the loop of `write_to_console` builds from `hosts`, or the
   * first resolver exception it meets. Defined on the prefix the loop has
   * walked.
   */
  function Classify(hosts: seq<string>, dns: string -> DnsOutcome): Result<Partition, string> {
    if hosts == [] then Ok(Partition([], [], []))
    else
      match Classify(hosts[..|hosts| - 1], dns)
      case Err(e) => Err(e)
      case Ok(p) => Place(p, hosts[|hosts| - 1], dns)
  }

  /** One iteration of the loop: append `h` to the list it belongs in. */
  function Place(p: Partition, h: string, dns: string -> DnsOutcome): Result<Partition, string> {
    if IsWildcard(h) then Ok(p.(wildcard := p.wildcard + [h]))
    else
      match IsValidSubdomain(h, dns)
      case Err(e) => Err(e)
      case Ok(valid) =>
        if valid then Ok(p.(valid := p.valid + [h])) else Ok(p.(invalid := p.invalid + [h]))
  }

  /** The walk over one more host of `hosts`. */
  lemma ClassifyStep(hosts: seq<string>, dns: string -> DnsOutcome, i: nat, p: Partition)
    requires i < |hosts| && Classify(hosts[..i], dns) == Ok(p)
    ensures Classify(hosts[..i + 1], dns) == Place(p, hosts[i], dns)
    ensures Queried(hosts[..i + 1], dns)
         == Queried(hosts[..i], dns) + (if IsWildcard(hosts[i]) then [] else [hosts[i]])
  {
    assert hosts[..i + 1][..i] == hosts[..i];
  }

  /** The hosts the loop hands to the resolver, in order, up to the first failure. */
  function Queried(hosts: seq<string>, dns: string -> DnsOutcome): seq<string> {
    if hosts == [] then []
    else
      var init := hosts[..|hosts| - 1];
      var h := hosts[|hosts| - 1];
      if Classify(init, dns).Err? || IsWildcard(h) then Queried(init, dns)
      else Queried(init, dns) + [h]
  }

  /**
   * Printing of the open ports is guarded by `if port_results and subdomain
   * in port_results`: a non-empty mapping that has the host.
   */
  predicate PortsShown(portResults: Option<map<string, seq<Port>>>, h: string) {
    portResults.Some? && |portResults.value| > 0 && h in portResults.value
  }

  function ValidLine(h: string, portResults: Option<map<string, seq<Port>>>): string {
    if PortsShown(portResults, h) then h + " (Open Ports: " + JoinPorts(portResults.value[h]) + ")"
    else h
  }

  function ValidLines(hosts: seq<string>, portResults: Option<map<string, seq<Port>>>): (lines: seq<string>)
    ensures |lines| == |hosts|
  {
    seq(|hosts|, i requires 0 <= i < |hosts| => ValidLine(hosts[i], portResults))
  }

  /** What the `print` calls emit, one string per call (each call adds a newline). */
  function Report(total: nat, p: Partition, portResults: Option<map<string, seq<Port>>>): seq<string> {
    ["\n[+] Found " + NatToString(total) + " unique subdomains:\n",
     "[+] Valid Subdomains (" + NatToString(|p.valid|) + "):"]
    + ValidLines(p.valid, portResults)
    + ["\n[+] Invalid Subdomains (" + NatToString(|p.invalid|) + "):"]
    + p.invalid
    + ["\n[+] Wildcard Subdomains (" + NatToString(|p.wildcard|) + "):"]
    + p.wildcard
  }

  /** The printed report for `subdomains`, or the exception that escapes. */
  function ConsoleOutput(subdomains: set<string>, portResults: Option<map<string, seq<Port>>>, dns: string -> DnsOutcome)
    : Result<seq<string>, string>
  {
    var sorted := SortedList(Cleaned(subdomains));
    match Classify(sorted, dns)
    case Err(e) => Err(e)
    case Ok(p) => Ok(Report(|sorted|, p, portResults))
  }

  lemma ConsoleOutputOk(subdomains: set<string>, portResults: Option<map<string, seq<Port>>>, dns: string -> DnsOutcome,
                        sorted: seq<string>, p: Partition)
    requires sorted == SortedList(Cleaned(subdomains)) && Classify(sorted, dns) == Ok(p)
    ensures ConsoleOutput(subdomains, portResults, dns) == Ok(Report(|sorted|, p, portResults))
  {
  }

  lemma ConsoleOutputErr(subdomains: set<string>, portResults: Option<map<string, seq<Port>>>, dns: string -> DnsOutcome,
                         sorted: seq<string>, e: string)
    requires sorted == SortedList(Cleaned(subdomains)) && Classify(sorted, dns) == Err(e)
    ensures ConsoleOutput(subdomains, portResults, dns) == Err(e)
  {
  }

  /**
   * `write_to_console`. `queried` lists the hosts passed to the resolver, in
   * call order.
   */
  method WriteToConsole(subdomains: set<string>, portResults: Option<map<string, seq<Port>>>, dns: string -> DnsOutcome)
    returns (out: Result<seq<string>, string>, queried: seq<string>)
    ensures out == ConsoleOutput(subdomains, portResults, dns)
    ensures queried == Queried(SortedList(Cleaned(subdomains)), dns)
  {
    var cleaned := CleanSubdomains(subdomains);
    var unique := cleaned;
    var sorted := SortedList(unique);
    var p := Partition([], [], []);
    queried := [];
    var i := 0;
    while i < |sorted|
      invariant 0 <= i <= |sorted|
      invariant Classify(sorted[..i], dns) == Ok(p)
      invariant queried == Queried(sorted[..i], dns)
    {
      var h := sorted[i];
      ClassifyStep(sorted, dns, i, p);
      if IsWildcard(h) {
        p := p.(wildcard := p.wildcard + [h]);
      } else {
        queried := queried + [h];
        var valid := IsValidSubdomain(h, dns);
        if valid.Err? {
          ClassifyErrSticks(sorted, dns, i + 1);
          assert sorted[..|sorted|] == sorted;
          ConsoleOutputErr(subdomains, portResults, dns, sorted, valid.error);
          out := Err(valid.error);
          return;
        }
        if valid.value {
          p := p.(valid := p.valid + [h]);
        } else {
          p := p.(invalid := p.invalid + [h]);
        }
      }
      i := i + 1;
    }
    assert sorted[..i] == sorted;
    ConsoleOutputOk(subdomains, portResults, dns, sorted, p);
    out := Ok(Report(|sorted|, p, portResults));
  }

  /** Once the walk has failed, later hosts change neither the error nor the queries. */
  lemma {:induction false} ClassifyErrSticks(hosts: seq<string>, dns: string -> DnsOutcome, k: nat)
    requires k <= |hosts| && Classify(hosts[..k], dns).Err?
    ensures Classify(hosts, dns) == Classify(hosts[..k], dns)
    ensures Queried(hosts, dns) == Queried(hosts[..k], dns)
    decreases |hosts| - k
  {
    if k < |hosts| {
      assert hosts[..k + 1][..k] == hosts[..k];
      ClassifyErrSticks(hosts, dns, k + 1);
    } else {
      assert hosts[..k] == hosts;
    }
  }

  /**
   * The partition: every host lands in exactly one list; wildcards are the
   * hosts starting with `*.`, valid ones had an answer, invalid ones one of
   * the four negative outcomes; and the three lengths add up.
   */
  lemma {:induction false} ClassifyPartition(hosts: seq<string>, dns: string -> DnsOutcome, p: Partition)
    requires Classify(hosts, dns) == Ok(p)
    ensures forall h :: h in hosts <==> h in p.valid || h in p.invalid || h in p.wildcard
    ensures forall h :: h in p.wildcard ==> IsWildcard(h)
    ensures forall h :: h in p.valid ==> !IsWildcard(h) && dns(h) == Resolved
    ensures forall h :: h in p.invalid ==> !IsWildcard(h) && IsNegative(dns(h))
    ensures |p.valid| + |p.invalid| + |p.wildcard| == |hosts|
    decreases |hosts|
  {
    if hosts != [] {
      var init := hosts[..|hosts| - 1];
      var h := hosts[|hosts| - 1];
      assert hosts == init + [h];
      var q :| Classify(init, dns) == Ok(q);
      ClassifyPartition(init, dns, q);
    }
  }

  /** The three lists are pairwise disjoint. */
  lemma ClassifyDisjoint(hosts: seq<string>, dns: string -> DnsOutcome, p: Partition)
    requires Classify(hosts, dns) == Ok(p)
    ensures forall h :: !(h in p.valid && h in p.invalid)
    ensures forall h :: !(h in p.valid && h in p.wildcard)
    ensures forall h :: !(h in p.invalid && h in p.wildcard)
  {
    ClassifyPartition(hosts, dns, p);
  }

  /** Walking a sorted list fills each of the three lists in ascending order. */
  lemma {:induction false} ClassifySorted(hosts: seq<string>, dns: string -> DnsOutcome, p: Partition)
    requires StrictlySorted(hosts) && Classify(hosts, dns) == Ok(p)
    ensures StrictlySorted(p.valid) && StrictlySorted(p.invalid) && StrictlySorted(p.wildcard)
    decreases |hosts|
  {
    if hosts != [] {
      var init := hosts[..|hosts| - 1];
      var h := hosts[|hosts| - 1];
      var q :| Classify(init, dns) == Ok(q);
      ClassifySorted(init, dns, q);
      ClassifyPartition(init, dns, q);
      forall x | x in init ensures Less(x, h) {
        var i :| 0 <= i < |init| && init[i] == x;
      }
      forall i | 0 <= i < |q.valid| ensures Less(q.valid[i], h) { assert q.valid[i] in q.valid; }
      forall i | 0 <= i < |q.invalid| ensures Less(q.invalid[i], h) { assert q.invalid[i] in q.invalid; }
      forall i | 0 <= i < |q.wildcard| ensures Less(q.wildcard[i], h) { assert q.wildcard[i] in q.wildcard; }
      SortedAppend(q.valid, h);
      SortedAppend(q.invalid, h);
      SortedAppend(q.wildcard, h);
    }
  }

  /** The walk fails exactly when some non-wildcard host meets an unexpected resolver exception. */
  lemma {:induction false} ClassifyFails(hosts: seq<string>, dns: string -> DnsOutcome)
    ensures Classify(hosts, dns).Err?
        <==> exists i :: 0 <= i < |hosts| && !IsWildcard(hosts[i]) && dns(hosts[i]).OtherError?
    decreases |hosts|
  {
    if hosts != [] {
      var init := hosts[..|hosts| - 1];
      ClassifyFails(init, dns);
      if exists i :: 0 <= i < |init| && !IsWildcard(init[i]) && dns(init[i]).OtherError? {
        var i :| 0 <= i < |init| && !IsWildcard(init[i]) && dns(init[i]).OtherError?;
        assert hosts[i] == init[i];
      }
      if exists i :: 0 <= i < |hosts| && !IsWildcard(hosts[i]) && dns(hosts[i]).OtherError? {
        var i :| 0 <= i < |hosts| && !IsWildcard(hosts[i]) && dns(hosts[i]).OtherError?;
        if i < |init| { assert init[i] == hosts[i]; }
      }
    }
  }

  /**
   * No wildcard host is ever passed to the resolver; every queried host is one
   * of the hosts; a walk that succeeds queries every non-wildcard host.
   */
  lemma {:induction false} QueriedHosts(hosts: seq<string>, dns: string -> DnsOutcome)
    ensures forall h :: h in Queried(hosts, dns) ==> h in hosts && !IsWildcard(h)
    ensures Classify(hosts, dns).Ok? ==>
              forall h :: h in Queried(hosts, dns) <==> h in hosts && !IsWildcard(h)
    decreases |hosts|
  {
    if hosts != [] {
      var init := hosts[..|hosts| - 1];
      assert hosts == init + [hosts[|hosts| - 1]];
      QueriedHosts(init, dns);
    }
  }

  /** The resolver's answers for wildcard hosts never matter. */
  lemma {:induction false} ClassifyIgnoresWildcardAnswers(hosts: seq<string>, d1: string -> DnsOutcome, d2: string -> DnsOutcome)
    requires forall i :: 0 <= i < |hosts| && !IsWildcard(hosts[i]) ==> d1(hosts[i]) == d2(hosts[i])
    ensures Classify(hosts, d1) == Classify(hosts, d2)
    decreases |hosts|
  {
    if hosts != [] {
      var init := hosts[..|hosts| - 1];
      assert forall i :: 0 <= i < |init| ==> init[i] == hosts[i];
      ClassifyIgnoresWildcardAnswers(init, d1, d2);
    }
  }

  /**
   * The printed total is the number of distinct cleaned hosts, which is the
   * sum of the three section counts; the sections list the partition.
   */
  lemma ConsoleTotals(subdomains: set<string>, portResults: Option<map<string, seq<Port>>>, dns: string -> DnsOutcome, lines: seq<string>)
    requires ConsoleOutput(subdomains, portResults, dns) == Ok(lines)
    ensures exists p :: Classify(SortedList(Cleaned(subdomains)), dns) == Ok(p)
              && |p.valid| + |p.invalid| + |p.wildcard| == |Cleaned(subdomains)|
              && lines[0] == "\n[+] Found " + NatToString(|Cleaned(subdomains)|) + " unique subdomains:\n"
              && StrictlySorted(p.valid) && StrictlySorted(p.invalid) && StrictlySorted(p.wildcard)
  {
    var sorted := SortedList(Cleaned(subdomains));
    var p :| Classify(sorted, dns) == Ok(p);
    ClassifyPartition(sorted, dns, p);
    ClassifySorted(sorted, dns, p);
  }

  /** A valid host's line carries its open ports exactly when `PortsShown` holds. */
  lemma ValidLineAnnotation(h: string, portResults: Option<map<string, seq<Port>>>)
    ensures ValidLine(h, portResults) == h <==> !PortsShown(portResults, h)
  {
    if PortsShown(portResults, h) {
      assert |ValidLine(h, portResults)| > |h|;
    }
  }
}
