/**
 * `write_to_file` (output/file_writer.py): clean and sort the hosts, write a
 * header naming the domain, then one line per host. The file is modelled as
 * the sequence of strings handed to `f.write`.
 */
module FileWriter {
  import opened Wrappers
  import opened PyStr
  import opened Sorting
  import opened Helpers

  /**
   * `host.split('.')[-2]`: the second-to-last dot-separated label, or None
   * where Python raises IndexError (fewer than two labels).
   */
  function HeaderLabel(host: string): (r: Option<string>)
    ensures r.Some? <==> |Split(host, ".")| >= 2
  {
    var labels := Split(host, ".");
    if |labels| >= 2 then Some(labels[|labels| - 2]) else None
  }

  /** The first `f.write`: the suffix is always `.com`, whatever the host's own suffix. */
  function Header(name: string): string {
    "# Subdomains for " + name + ".com\n\n"
  }

  /** The writes of the host loop: each host followed by a newline. */
  function HostLines(hosts: seq<string>): (lines: seq<string>)
    ensures |lines| == |hosts|
  {
    seq(|hosts|, i requires 0 <= i < |hosts| => hosts[i] + "\n")
  }

  datatype FileOutcome =
    | Written(writes: seq<string>, message: string)  // the writes, then the printed confirmation
    | IndexError                                      // `sorted_subdomains[0]` or `[-2]` out of range

  function SavedMessage(filename: string): string {
    "[+] Results saved to " + filename
  }

  /** What `write_to_file(filename, subdomains)` writes and prints, or the exception it raises. */
  function FileReport(filename: string, subdomains: set<string>): FileOutcome {
    var sorted := SortedList(Cleaned(subdomains));
    if sorted == [] then IndexError
    else
      match HeaderLabel(sorted[0])
      case None => IndexError
      case Some(name) => Written([Header(name)] + HostLines(sorted), SavedMessage(filename))
  }

  /** The loop's writes after one more host. */
  lemma HostLinesSnoc(hosts: seq<string>, i: nat)
    requires i < |hosts|
    ensures HostLines(hosts[..i + 1]) == HostLines(hosts[..i]) + [hosts[i] + "\n"]
  {
  }

  lemma FileReportWritten(filename: string, subdomains: set<string>, sorted: seq<string>, name: string)
    requires sorted == SortedList(Cleaned(subdomains)) && sorted != [] && HeaderLabel(sorted[0]) == Some(name)
    ensures FileReport(filename, subdomains) == Written([Header(name)] + HostLines(sorted), SavedMessage(filename))
  {
  }

  /** `write_to_file`: the header write, then the loop of host writes. */
  method WriteToFile(filename: string, subdomains: set<string>) returns (out: FileOutcome)
    ensures out == FileReport(filename, subdomains)
  {
    var cleaned := CleanSubdomains(subdomains);
    var sorted := SortedList(cleaned);
    if sorted == [] {
      return IndexError;
    }
    var name := HeaderLabel(sorted[0]);
    if name.None? {
      return IndexError;
    }
    var writes := [Header(name.value)];
    var i := 0;
    while i < |sorted|
      invariant 0 <= i <= |sorted|
      invariant writes == [Header(name.value)] + HostLines(sorted[..i])
    {
      HostLinesSnoc(sorted, i);
      writes := writes + [sorted[i] + "\n"];
      i := i + 1;
    }
    assert sorted[..i] == sorted;
    FileReportWritten(filename, subdomains, sorted, name.value);
    out := Written(writes, SavedMessage(filename));
  }

  /** Index `[-2]` always exists: every cleaned host contains a dot. */
  lemma HeaderLabelDefined(subdomains: set<string>, h: string)
    requires h in Cleaned(subdomains)
    ensures HeaderLabel(h).Some?
  {
    CleanedShape(subdomains, h);
    SplitOnPresentChar(h, '.');
  }

  /** The file fails with IndexError exactly when nothing survives cleaning. */
  lemma IndexErrorIffEmpty(filename: string, subdomains: set<string>)
    ensures FileReport(filename, subdomains).IndexError? <==> Cleaned(subdomains) == {}
  {
    var sorted := SortedList(Cleaned(subdomains));
    if sorted != [] {
      HeaderLabelDefined(subdomains, sorted[0]);
    }
  }

  /**
   * After the header come the cleaned hosts in ascending order, each exactly
   * once, each followed by a newline; the header names the smallest host's
   * second-to-last label.
   */
  lemma WrittenLines(filename: string, subdomains: set<string>, writes: seq<string>, message: string)
    requires FileReport(filename, subdomains) == Written(writes, message)
    ensures |writes| == |Cleaned(subdomains)| + 1
    ensures exists hosts :: StrictlySorted(hosts) && (forall h :: h in hosts <==> h in Cleaned(subdomains))
              && |Split(hosts[0], ".")| >= 2
              && writes[0] == Header(Split(hosts[0], ".")[|Split(hosts[0], ".")| - 2])
              && writes[1..] == HostLines(hosts)
    ensures message == SavedMessage(filename)
  {
    var hosts := SortedList(Cleaned(subdomains));
    assert writes[1..] == HostLines(hosts);
  }

  /** A host outside the cleaned set is never written. */
  lemma OnlyCleanedWritten(filename: string, subdomains: set<string>, writes: seq<string>, message: string, i: nat)
    requires FileReport(filename, subdomains) == Written(writes, message)
    requires 1 <= i < |writes|
    ensures exists h :: h in Cleaned(subdomains) && writes[i] == h + "\n"
  {
    var hosts := SortedList(Cleaned(subdomains));
    assert writes[i] == hosts[i - 1] + "\n";
    assert hosts[i - 1] in hosts;
  }

  /**
   * For a three-label host `x.y.z` the header names `y` and ends in `.com`,
   * so `www.example.org` is reported as `example.com`.
   */
  lemma HeaderOfThreeLabels(x: string, y: string, z: string)
    requires '.' !in x && '.' !in y && '.' !in z
    ensures HeaderLabel(x + "." + y + "." + z) == Some(y)
  {
    assert x + "." + y + "." + z == x + ['.'] + (y + ['.'] + z);
    SplitAfterCharFree(x, y + ['.'] + z, '.');
    SplitAfterCharFree(y, z, '.');
    MissingCharLacks(z, ".", 0);
    SplitWithoutSep(z, ".");
  }
}
