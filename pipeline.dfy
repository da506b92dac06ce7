/**
 * `main` (main.py): load the configuration, override it from the command
 * line, load the engine plugins, run the selected engines, optionally add
 * brute-force hits, then write the file, print the report and scan ports.
 * Everything the run does that can be seen from outside is an `Event`.
 */
module Pipeline {
  import opened Wrappers
  import opened PyStr
  import opened PluginLoader
  import opened SubBrute
  import opened FileWriter
  import opened ConsoleWriter
  import opened PortScanning

  /** The parsed command line. */
  datatype Args = Args(
    domain: string,
    engines: string,           // `--engines`, comma-separated
    output: Option<string>,    // `--output`
    ports: Option<string>,     // `--ports`, comma-separated
    bruteforce: bool,
    verbose: bool,
    noColor: bool)

  /** What `load_config("config.yaml")` does: the keys `main` later reads, or an exception. */
  datatype ConfigLoad =
    | Loaded(apiKeys: Option<map<string, string>>, threads: Option<int>)  // None: key absent
    | ConfigNotFound
    | ConfigBroken

  /** What awaiting one engine's `enumerate()` gives. */
  datatype EnumOutcome = Found(hosts: set<string>) | EnumRaised

  /** Everything outside the program that the run consults. */
  datatype World = World(
    config: ConfigLoad,
    listing: Option<seq<string>>,                                   // `os.listdir("engines")`
    importModule: string -> ImportOutcome,
    construct: (EngineClass, string, Option<string>) -> bool,       // false: the constructor raised
    enumerate: (EngineClass, string, Option<string>) -> EnumOutcome,
    wordlist: Option<string>,                                       // the wordlist file's content
    bruteDns: (seq<string>, string) -> DnsAnswer,
    consoleDns: string -> DnsOutcome,
    connect: (string, int) -> ConnectOutcome)

  /** The observable steps of a run: log lines, prints, the file and the scan report. */
  datatype Event =
    | ConfigMissingLogged
    | ConfigErrorLogged
    | NoColorImportCrash                  // `from output.console_writer import no_color` fails
    | EngineLoaded(engine: EngineClass)
    | PluginErrorLogged
    | EngineInitErrorLogged(name: string)
    | EnumerationErrorLogged
    | BruteHitLogged(host: string)        // `Found subdomain: {host}`
    | BruteForceErrorLogged
    | FileWritten(path: string, writes: seq<string>, message: string)
    | FileErrorLogged
    | ConsolePrinted(lines: seq<string>)
    | ConsoleErrorLogged(error: string)
    | PortsScanned(report: map<string, seq<Port>>)

  const PluginDir: string := "engines"
  const WordlistPath: string := "utils/wordlists/subdomains.txt"
  const BruteResolvers: seq<string> := ["8.8.8.8", "8.8.4.4"]
  const DefaultThreads: int := 30

  /** The distinct elements of `xs` in order of first occurrence, as a dict's keys. */
  function Dedup(xs: seq<string>): seq<string> {
    if xs == [] then []
    else
      var init := Dedup(xs[..|xs| - 1]);
      var x := xs[|xs| - 1];
      if x in init then init else init + [x]
  }

  /** `{engine: True for engine in args.engines.split(",")}`, in insertion order. */
  function EngineSelection(arg: string): seq<(string, bool)> {
    var names := Dedup(Split(arg, ","));
    seq(|names|, i requires 0 <= i < |names| => (names[i], true))
  }

  /** `args.ports.split(",") if args.ports else None`. */
  function ParsePorts(arg: Option<string>): Option<seq<string>> {
    if arg.None? || arg.value == "" then None else Some(Split(arg.value, ","))
  }

  /** The `config` dict, restricted to the keys `main` reads. */
  class Config {
    var domain: string
    var engines: seq<(string, bool)>
    var outputFile: Option<string>
    var ports: Option<seq<string>>
    var verbose: bool
    var apiKeys: Option<map<string, string>>
    var threads: Option<int>

    /**
     * The loaded configuration. The keys the overrides replace are given
     * neutral values: they are always overwritten before they are read.
     */
    constructor (apiKeys: Option<map<string, string>>, threads: Option<int>)
      ensures this.apiKeys == apiKeys && this.threads == threads
      ensures domain == "" && engines == [] && outputFile == None && ports == None && !verbose
    {
      this.apiKeys := apiKeys;
      this.threads := threads;
      domain := "";
      engines := [];
      outputFile := None;
      ports := None;
      verbose := false;
    }

    /** The five assignments overriding the configuration from the command line. */
    method ApplyOverrides(args: Args)
      modifies this
      ensures domain == args.domain
      ensures engines == EngineSelection(args.engines)
      ensures outputFile == args.output
      ensures ports == ParsePorts(args.ports)
      ensures verbose == args.verbose
      ensures apiKeys == old(apiKeys) && threads == old(threads)
    {
      domain := args.domain;
      engines := EngineSelection(args.engines);
      outputFile := args.output;
      ports := if args.ports.Some? && args.ports.value != "" then Some(Split(args.ports.value, ",")) else None;
      verbose := args.verbose;
    }
  }

  /**
   * What the stages after the engine loop read: `config["domain"]`,
   * `config["output_file"]`, `config["ports"]`, `config.get("threads", 30)`
   * and `args.bruteforce`.
   */
  datatype Settings = Settings(domain: string, outputFile: Option<string>, ports: Option<seq<string>>,
                               threads: int, bruteforce: bool)

  /** The settings after the overrides, for the `threads` key the configuration holds. */
  function Overridden(args: Args, threads: Option<int>): Settings {
    Settings(args.domain, args.output, ParsePorts(args.ports), ThreadsOf(threads), args.bruteforce)
  }

  /** A queued `engine.enumerate()` call. */
  datatype Task = Task(name: string, engine: EngineClass, apiKey: Option<string>)

  /** The tasks queued and the names whose initialisation failed, both in dict order. */
  datatype Selected = Selected(tasks: seq<Task>, failed: seq<string>)

  /** `config["api_keys"].get(name)` once `api_keys` is known to exist. */
  function KeyFor(keys: map<string, string>, name: string): Option<string> {
    if name in keys then Some(keys[name]) else None
  }

  /**
   * One iteration of the engine loop. A missing `api_keys` raises KeyError
   * inside the `try`, so it is logged like a failing constructor.
   */
  function SelectOne(acc: Selected, entry: (string, bool), plugins: map<string, EngineClass>, domain: string,
                     apiKeys: Option<map<string, string>>, construct: (EngineClass, string, Option<string>) -> bool)
    : Selected
  {
    var name := entry.0;
    if !(entry.1 && name in plugins) then acc
    else if apiKeys.None? then acc.(failed := acc.failed + [name])
    else
      var key := KeyFor(apiKeys.value, name);
      if construct(plugins[name], domain, key) then acc.(tasks := acc.tasks + [Task(name, plugins[name], key)])
      else acc.(failed := acc.failed + [name])
  }

  function Selection(engines: seq<(string, bool)>, plugins: map<string, EngineClass>, domain: string,
                     apiKeys: Option<map<string, string>>, construct: (EngineClass, string, Option<string>) -> bool)
    : Selected
  {
    if engines == [] then Selected([], [])
    else SelectOne(Selection(engines[..|engines| - 1], plugins, domain, apiKeys, construct),
                   engines[|engines| - 1], plugins, domain, apiKeys, construct)
  }

  /** The loop of main.py that fills `tasks`. */
  method SelectEngines(engines: seq<(string, bool)>, plugins: map<string, EngineClass>, domain: string,
                       apiKeys: Option<map<string, string>>, construct: (EngineClass, string, Option<string>) -> bool)
    returns (tasks: seq<Task>, failed: seq<string>)
    ensures Selected(tasks, failed) == Selection(engines, plugins, domain, apiKeys, construct)
  {
    tasks, failed := [], [];
    var i := 0;
    while i < |engines|
      invariant 0 <= i <= |engines|
      invariant Selected(tasks, failed) == Selection(engines[..i], plugins, domain, apiKeys, construct)
    {
      var (name, enabled) := engines[i];
      assert engines[..i + 1][..i] == engines[..i];
      if enabled && name in plugins {
        if apiKeys.None? {
          failed := failed + [name];
        } else {
          var key := if name in apiKeys.value then Some(apiKeys.value[name]) else None;
          if construct(plugins[name], domain, key) {
            tasks := tasks + [Task(name, plugins[name], key)];
          } else {
            failed := failed + [name];
          }
        }
      }
      i := i + 1;
    }
    assert engines[..i] == engines;
  }

  /** `set().union(*await asyncio.gather(*tasks))`, or None when any task raises. */
  function Gathered(tasks: seq<Task>, domain: string, enumerate: (EngineClass, string, Option<string>) -> EnumOutcome)
    : Option<set<string>>
  {
    if tasks == [] then Some({})
    else
      var t := tasks[|tasks| - 1];
      match Gathered(tasks[..|tasks| - 1], domain, enumerate)
      case None => None
      case Some(found) =>
        match enumerate(t.engine, domain, t.apiKey)
        case EnumRaised => None
        case Found(hosts) => Some(found + hosts)
  }

  /** `config.get("threads", 30)`. */
  function ThreadsOf(threads: Option<int>): int {
    if threads.Some? then threads.value else DefaultThreads
  }

  function HitEvents(hosts: seq<string>): seq<Event> {
    seq(|hosts|, i requires 0 <= i < |hosts| => BruteHitLogged(hosts[i]))
  }

  /** The brute-force stage: the set after it, and its log lines. */
  function BruteStage(bruteforce: bool, domain: string, threads: int, w: World, found: set<string>)
    : (set<string>, seq<Event>)
  {
    if !bruteforce then (found, [])
    else
      var b := Brute(domain, WordlistPath, BruteResolvers, threads);
      match EnumerateResult(b, w.wordlist, w.bruteDns)
      case Err(_) => (found, [BruteForceErrorLogged])
      case Ok(hits) => (found + hits, HitEvents(EnumerateLog(b, w.wordlist, w.bruteDns)))
  }

  /** `if config["output_file"]:` then `write_to_file`, its failure logged. */
  function FileStage(output: Option<string>, subdomains: set<string>): seq<Event> {
    if output.None? || output.value == "" then []
    else
      match FileReport(output.value, subdomains)
      case Written(writes, message) => [FileWritten(output.value, writes, message)]
      case IndexError => [FileErrorLogged]
  }

  /** `write_to_console(subdomains, ...)`: called without `port_results`. */
  function ConsoleStage(subdomains: set<string>, dns: string -> DnsOutcome): seq<Event> {
    match ConsoleOutput(subdomains, None, dns)
    case Ok(lines) => [ConsolePrinted(lines)]
    case Err(e) => [ConsoleErrorLogged(e)]
  }

  /** The port strings as passed to `connect_ex`: never converted to integers. */
  function PortsOf(ports: seq<string>): seq<Port> {
    seq(|ports|, i requires 0 <= i < |ports| => PortStr(ports[i]))
  }

  /** `if config.get("ports"):` then `PortScanner(subdomains, ports).run()`. */
  function PortStage(ports: Option<seq<string>>, subdomains: set<string>, connect: (string, int) -> ConnectOutcome)
    : seq<Event>
  {
    if ports.None? || ports.value == [] then []
    else [PortsScanned(ScanReport(subdomains, PortsOf(ports.value), connect))]
  }

  /** Everything after the engines have been gathered into `found`. */
  function OutputEvents(s: Settings, w: World, found: set<string>): seq<Event> {
    var brute := BruteStage(s.bruteforce, s.domain, s.threads, w, found);
    brute.1 + FileStage(s.outputFile, brute.0) + ConsoleStage(brute.0, w.consoleDns)
    + PortStage(s.ports, brute.0, w.connect)
  }

  function LoadedEvents(announced: seq<EngineClass>): seq<Event> {
    seq(|announced|, i requires 0 <= i < |announced| => EngineLoaded(announced[i]))
  }

  function InitErrorEvents(failed: seq<string>): seq<Event> {
    seq(|failed|, i requires 0 <= i < |failed| => EngineInitErrorLogged(failed[i]))
  }

  /** The engine stage, after plugins have loaded. */
  function EngineEvents(engines: seq<(string, bool)>, s: Settings, apiKeys: Option<map<string, string>>, w: World,
                        plugins: map<string, EngineClass>): seq<Event>
  {
    var sel := Selection(engines, plugins, s.domain, apiKeys, w.construct);
    InitErrorEvents(sel.failed)
    + match Gathered(sel.tasks, s.domain, w.enumerate)
      case None => [EnumerationErrorLogged]
      case Some(found) => OutputEvents(s, w, found)
  }

  /** The whole run of `main` (after the banner) for a command line and a world. */
  function RunEvents(args: Args, w: World): seq<Event> {
    match w.config
    case ConfigNotFound => [ConfigMissingLogged]
    case ConfigBroken => [ConfigErrorLogged]
    case Loaded(apiKeys, threads) =>
      if args.noColor then [NoColorImportCrash]
      else
        var announced := if w.listing.None? then [] else Announced(w.listing.value, PluginDir, w.importModule);
        LoadedEvents(announced)
        + match LoadResult(w.listing, PluginDir, w.importModule)
          case Err(_) => [PluginErrorLogged]
          case Ok(plugins) => EngineEvents(EngineSelection(args.engines), Overridden(args, threads), apiKeys, w, plugins)
  }

  /** Lines 118-127 of `main`: brute force, its hits added to the set. */
  method RunBruteForce(bruteforce: bool, domain: string, threads: int, w: World, found: set<string>)
    returns (subdomains: set<string>, events: seq<Event>)
    ensures (subdomains, events) == BruteStage(bruteforce, domain, threads, w, found)
  {
    subdomains, events := found, [];
    if bruteforce {
      var brute, _, logged := Enumerate(Brute(domain, WordlistPath, BruteResolvers, threads), w.wordlist, w.bruteDns);
      if brute.Ok? {
        subdomains := subdomains + brute.value;
        events := HitEvents(logged);
      } else {
        events := [BruteForceErrorLogged];
      }
    }
  }

  /** Lines 130-134 of `main`. */
  method RunFileOutput(output: Option<string>, subdomains: set<string>) returns (events: seq<Event>)
    ensures events == FileStage(output, subdomains)
  {
    events := [];
    if output.Some? && output.value != "" {
      var written := WriteToFile(output.value, subdomains);
      if written.Written? {
        events := [FileWritten(output.value, written.writes, written.message)];
      } else {
        events := [FileErrorLogged];
      }
    }
  }

  /** Lines 137-140 of `main`. */
  method RunConsoleOutput(subdomains: set<string>, dns: string -> DnsOutcome) returns (events: seq<Event>)
    ensures events == ConsoleStage(subdomains, dns)
  {
    var console, _ := WriteToConsole(subdomains, None, dns);
    if console.Ok? {
      events := [ConsolePrinted(console.value)];
    } else {
      events := [ConsoleErrorLogged(console.error)];
    }
  }

  /** Lines 143-148 of `main`. */
  method RunPortScan(ports: Option<seq<string>>, subdomains: set<string>, connect: (string, int) -> ConnectOutcome)
    returns (events: seq<Event>)
    ensures events == PortStage(ports, subdomains, connect)
  {
    events := [];
    if ports.Some? && ports.value != [] {
      var report := Run(subdomains, PortsOf(ports.value), connect);
      events := [PortsScanned(report)];
    }
  }

  /** Lines 117-148 of `main`, from the gathered set on. */
  method OutputStages(s: Settings, w: World, found: set<string>) returns (events: seq<Event>)
    ensures events == OutputEvents(s, w, found)
  {
    var subdomains, bruteEvents := RunBruteForce(s.bruteforce, s.domain, s.threads, w, found);
    var fileEvents := RunFileOutput(s.outputFile, subdomains);
    var consoleEvents := RunConsoleOutput(subdomains, w.consoleDns);
    var portEvents := RunPortScan(s.ports, subdomains, w.connect);
    events := bruteEvents + fileEvents + consoleEvents + portEvents;
  }

  /** Lines 100-115 of `main` and what follows them. */
  method RunEngines(engines: seq<(string, bool)>, s: Settings, apiKeys: Option<map<string, string>>, w: World,
                    plugins: map<string, EngineClass>) returns (events: seq<Event>)
    ensures events == EngineEvents(engines, s, apiKeys, w, plugins)
  {
    var tasks, failed := SelectEngines(engines, plugins, s.domain, apiKeys, w.construct);
    events := InitErrorEvents(failed);
    var gathered := Gathered(tasks, s.domain, w.enumerate);
    if gathered.None? {
      events := events + [EnumerationErrorLogged];
      return;
    }
    var rest := OutputStages(s, w, gathered.value);
    events := events + rest;
  }

  /**
   * `main`, from loading the configuration on. The later stages read the
   * overridden keys back from `config`.
   */
  method Orchestrate(args: Args, w: World) returns (events: seq<Event>)
    ensures events == RunEvents(args, w)
  {
    if w.config.ConfigNotFound? {
      return [ConfigMissingLogged];
    } else if w.config.ConfigBroken? {
      return [ConfigErrorLogged];
    }
    var config := new Config(w.config.apiKeys, w.config.threads);
    config.ApplyOverrides(args);
    if args.noColor {
      return [NoColorImportCrash];
    }
    var loaded, announced := LoadPlugins(w.listing, PluginDir, w.importModule);
    events := LoadedEvents(announced);
    if loaded.Err? {
      events := events + [PluginErrorLogged];
      return;
    }
    var settings := Settings(config.domain, config.outputFile, config.ports, ThreadsOf(config.threads), args.bruteforce);
    var rest := RunEngines(config.engines, settings, config.apiKeys, w, loaded.value);
    events := events + rest;
  }

  /** The dict keys are distinct and are exactly the pieces of `--engines`. */
  lemma {:induction false} DedupDistinct(xs: seq<string>)
    ensures forall i, j :: 0 <= i < j < |Dedup(xs)| ==> Dedup(xs)[i] != Dedup(xs)[j]
    ensures forall x :: x in Dedup(xs) <==> x in xs
    decreases |xs|
  {
    if xs != [] {
      var init := xs[..|xs| - 1];
      DedupDistinct(init);
      assert xs == init + [xs[|xs| - 1]];
    }
  }

  /** An engine name is a key of the selection exactly when it is a piece of `--engines`; all are enabled, none twice. */
  lemma EngineSelectionNames(arg: string)
    ensures var sel := EngineSelection(arg);
      (forall i, j :: 0 <= i < j < |sel| ==> sel[i].0 != sel[j].0)
      && (forall i :: 0 <= i < |sel| ==> sel[i].1)
      && (forall n :: (exists i :: 0 <= i < |sel| && sel[i].0 == n) <==> n in Split(arg, ","))
  {
    var names := Dedup(Split(arg, ","));
    DedupDistinct(Split(arg, ","));
    var sel := EngineSelection(arg);
    forall n ensures (exists i :: 0 <= i < |sel| && sel[i].0 == n) <==> n in Split(arg, ",") {
      if n in names {
        var i :| 0 <= i < |names| && names[i] == n;
        assert sel[i].0 == n;
      }
    }
  }

  /** The dict holds `(name, True)`. */
  predicate Enabled(engines: seq<(string, bool)>, name: string) {
    exists i :: 0 <= i < |engines| && engines[i] == (name, true)
  }

  /**
   * A task is queued only for an enabled name that is a plugin, when
   * `api_keys` exists and the constructor succeeds, with that plugin's class
   * and the name's key; a failure is logged only for an enabled plugin name
   * whose initialisation raised; every enabled plugin name ends up in one of
   * the two. Names that are not plugins appear in neither.
   */
  lemma {:induction false} SelectionMember(engines: seq<(string, bool)>, plugins: map<string, EngineClass>, domain: string,
                                            apiKeys: Option<map<string, string>>,
                                            construct: (EngineClass, string, Option<string>) -> bool, name: string)
    ensures var sel := Selection(engines, plugins, domain, apiKeys, construct);
      (forall t :: t in sel.tasks ==>
         Enabled(engines, t.name) && t.name in plugins && apiKeys.Some? && t.engine == plugins[t.name]
         && t.apiKey == KeyFor(apiKeys.value, t.name) && construct(t.engine, domain, t.apiKey))
      && (forall n :: n in sel.failed ==>
         Enabled(engines, n) && n in plugins && (apiKeys.None? || !construct(plugins[n], domain, KeyFor(apiKeys.value, n))))
      && (Enabled(engines, name) && name in plugins ==> name in sel.failed || exists t :: t in sel.tasks && t.name == name)
    decreases |engines|
  {
    if engines != [] {
      var init := engines[..|engines| - 1];
      var last := engines[|engines| - 1];
      SelectionMember(init, plugins, domain, apiKeys, construct, name);
      forall n | Enabled(init, n) ensures Enabled(engines, n) {
        var i :| 0 <= i < |init| && init[i] == (n, true);
        assert engines[i] == init[i];
      }
      if Enabled(engines, name) && last != (name, true) {
        var i :| 0 <= i < |engines| && engines[i] == (name, true);
        assert init[i] == engines[i];
      }
      assert Enabled(engines, last.0) <== last.1 by {
        if last.1 { assert engines[|engines| - 1] == (last.0, true); }
      }
    }
  }

  /** Some task's engine returned `x`. */
  predicate Contributes(tasks: seq<Task>, domain: string, enumerate: (EngineClass, string, Option<string>) -> EnumOutcome, x: string) {
    exists i :: 0 <= i < |tasks| && enumerate(tasks[i].engine, domain, tasks[i].apiKey).Found?
                && x in enumerate(tasks[i].engine, domain, tasks[i].apiKey).hosts
  }

  /** Some task's engine raised. */
  predicate AnyRaised(tasks: seq<Task>, domain: string, enumerate: (EngineClass, string, Option<string>) -> EnumOutcome) {
    exists i :: 0 <= i < |tasks| && enumerate(tasks[i].engine, domain, tasks[i].apiKey).EnumRaised?
  }

  /**
   * Gathering fails exactly when some engine raises; otherwise the set is the
   * union of all engines' results (empty with no engines).
   */
  lemma {:induction false} GatheredMember(tasks: seq<Task>, domain: string,
                                           enumerate: (EngineClass, string, Option<string>) -> EnumOutcome, x: string)
    ensures Gathered(tasks, domain, enumerate).None? <==> AnyRaised(tasks, domain, enumerate)
    ensures Gathered(tasks, domain, enumerate).Some? ==>
              (x in Gathered(tasks, domain, enumerate).value <==> Contributes(tasks, domain, enumerate, x))
    decreases |tasks|
  {
    if tasks != [] {
      var init := tasks[..|tasks| - 1];
      var n := |tasks| - 1;
      GatheredMember(init, domain, enumerate, x);
      assert forall i :: 0 <= i < |init| ==> init[i] == tasks[i];
      if AnyRaised(tasks, domain, enumerate) && !AnyRaised(init, domain, enumerate) {
        var i :| 0 <= i < |tasks| && enumerate(tasks[i].engine, domain, tasks[i].apiKey).EnumRaised?;
        assert i == n;
      }
      if Contributes(tasks, domain, enumerate, x) && !Contributes(init, domain, enumerate, x) {
        var i :| 0 <= i < |tasks| && enumerate(tasks[i].engine, domain, tasks[i].apiKey).Found?
                 && x in enumerate(tasks[i].engine, domain, tasks[i].apiKey).hosts;
        assert i == n;
      }
    }
  }

  /** The gathered set does not depend on the order in which engines were queued. */
  lemma GatheredOrderFree(t1: seq<Task>, t2: seq<Task>, domain: string,
                          enumerate: (EngineClass, string, Option<string>) -> EnumOutcome)
    requires forall t :: t in t1 <==> t in t2
    ensures Gathered(t1, domain, enumerate) == Gathered(t2, domain, enumerate)
  {
    GatheredMember(t1, domain, enumerate, "");
    GatheredMember(t2, domain, enumerate, "");
    assert AnyRaised(t1, domain, enumerate) == AnyRaised(t2, domain, enumerate) by {
      if AnyRaised(t1, domain, enumerate) {
        var i :| 0 <= i < |t1| && enumerate(t1[i].engine, domain, t1[i].apiKey).EnumRaised?;
        assert t1[i] in t2;
      }
      if AnyRaised(t2, domain, enumerate) {
        var i :| 0 <= i < |t2| && enumerate(t2[i].engine, domain, t2[i].apiKey).EnumRaised?;
        assert t2[i] in t1;
      }
    }
    if Gathered(t1, domain, enumerate).Some? {
      forall x ensures x in Gathered(t1, domain, enumerate).value <==> x in Gathered(t2, domain, enumerate).value {
        GatheredMember(t1, domain, enumerate, x);
        GatheredMember(t2, domain, enumerate, x);
        if Contributes(t1, domain, enumerate, x) {
          var i :| 0 <= i < |t1| && enumerate(t1[i].engine, domain, t1[i].apiKey).Found?
                   && x in enumerate(t1[i].engine, domain, t1[i].apiKey).hosts;
          assert t1[i] in t2;
        }
        if Contributes(t2, domain, enumerate, x) {
          var i :| 0 <= i < |t2| && enumerate(t2[i].engine, domain, t2[i].apiKey).Found?
                   && x in enumerate(t2[i].engine, domain, t2[i].apiKey).hosts;
          assert t2[i] in t1;
        }
      }
      assert Gathered(t1, domain, enumerate).value == Gathered(t2, domain, enumerate).value;
    }
  }

  predicate IsFileEvent(e: Event) { e.FileWritten? || e.FileErrorLogged? }
  predicate IsConsoleEvent(e: Event) { e.ConsolePrinted? || e.ConsoleErrorLogged? }

  predicate IsBruteEvent(e: Event) { e.BruteHitLogged? || e.BruteForceErrorLogged? }

  /** The events that only happen once the engines have been gathered. */
  predicate IsOutputEvent(e: Event) {
    IsBruteEvent(e) || IsFileEvent(e) || IsConsoleEvent(e) || e.PortsScanned?
  }

  /**
   * Brute force only ever adds hosts. It either fails with one error line and
   * leaves the set as it was, or logs only hits, each of them added to the
   * set, and no host is added without its line.
   */
  lemma BruteStageKeepsFound(bruteforce: bool, domain: string, threads: int, w: World, found: set<string>)
    ensures var (after, events) := BruteStage(bruteforce, domain, threads, w, found);
      found <= after
      && ((events == [BruteForceErrorLogged] && after == found)
          || ((forall k :: 0 <= k < |events| ==> events[k].BruteHitLogged? && events[k].host in after)
              && forall h :: h in after - found ==> BruteHitLogged(h) in events))
  {
    var b := Brute(domain, WordlistPath, BruteResolvers, threads);
    if bruteforce && EnumerateResult(b, w.wordlist, w.bruteDns).Ok? {
      var futures := Candidates(SplitLines(w.wordlist.value), domain);
      var log := EnumerateLog(b, w.wordlist, w.bruteDns);
      HitLogHits(futures, BruteResolvers, w.bruteDns);
      var events := HitEvents(log);
      forall h | h in Hits(futures, BruteResolvers, w.bruteDns) ensures BruteHitLogged(h) in events {
        var k :| 0 <= k < |log| && log[k] == h;
        assert events[k] == BruteHitLogged(h);
      }
    }
  }

  /**
   * The order of the output stages: a console event is present; the
   * brute-force lines come before any file, console or port event, a file
   * event before the console event, the console event before the port scan.
   */
  predicate StagesOrdered(ev: seq<Event>) {
    (exists j :: 0 <= j < |ev| && IsConsoleEvent(ev[j]))
    && (forall i, j :: 0 <= i < |ev| && 0 <= j < |ev| && IsBruteEvent(ev[i]) && IsFileEvent(ev[j]) ==> i < j)
    && (forall i, j :: 0 <= i < |ev| && 0 <= j < |ev| && IsBruteEvent(ev[i]) && IsConsoleEvent(ev[j]) ==> i < j)
    && (forall i, j :: 0 <= i < |ev| && 0 <= j < |ev| && IsBruteEvent(ev[i]) && ev[j].PortsScanned? ==> i < j)
    && (forall i, j :: 0 <= i < |ev| && 0 <= j < |ev| && IsFileEvent(ev[i]) && IsConsoleEvent(ev[j]) ==> i < j)
    && (forall i, j :: 0 <= i < |ev| && 0 <= j < |ev| && IsConsoleEvent(ev[i]) && ev[j].PortsScanned? ==> i < j)
  }

  /** At most one console event. */
  predicate SingleConsole(ev: seq<Event>) {
    forall i, j :: 0 <= i < |ev| && 0 <= j < |ev| && IsConsoleEvent(ev[i]) && IsConsoleEvent(ev[j]) ==> i == j
  }

  lemma ShapeOrdered(b: seq<Event>, f: seq<Event>, c: seq<Event>, p: seq<Event>)
    requires forall k :: 0 <= k < |b| ==> IsBruteEvent(b[k])
    requires f == [] || (|f| == 1 && IsFileEvent(f[0]))
    requires |c| == 1 && IsConsoleEvent(c[0])
    requires p == [] || (|p| == 1 && p[0].PortsScanned?)
    ensures StagesOrdered(b + f + c + p) && SingleConsole(b + f + c + p)
  {
    var ev := b + f + c + p;
    assert forall k :: 0 <= k < |ev| && IsConsoleEvent(ev[k]) ==> k == |b| + |f|;
    assert forall k :: 0 <= k < |ev| && IsFileEvent(ev[k]) ==> k == |b|;
    assert forall k :: 0 <= k < |ev| && ev[k].PortsScanned? ==> k == |b| + |f| + 1;
    assert forall k :: 0 <= k < |ev| && IsBruteEvent(ev[k]) ==> k < |b|;
    assert IsConsoleEvent(ev[|b| + |f|]);
  }

  /**
   * After gathering: exactly one console event, always reached even when
   * writing the file failed, and the stages in their order.
   */
  lemma OutputOrder(s: Settings, w: World, found: set<string>)
    ensures StagesOrdered(OutputEvents(s, w, found))
    ensures SingleConsole(OutputEvents(s, w, found))
  {
    var brute := BruteStage(s.bruteforce, s.domain, s.threads, w, found);
    BruteStageKeepsFound(s.bruteforce, s.domain, s.threads, w, found);
    var f := FileStage(s.outputFile, brute.0);
    var c := ConsoleStage(brute.0, w.consoleDns);
    var p := PortStage(s.ports, brute.0, w.connect);
    ShapeOrdered(brute.1, f, c, p);
  }

  /** The plugin and initialisation log lines are not output events. */
  lemma NoticesAreNotOutput(announced: seq<EngineClass>, failed: seq<string>)
    ensures forall k :: 0 <= k < |LoadedEvents(announced)| ==> !IsOutputEvent(LoadedEvents(announced)[k])
    ensures forall k :: 0 <= k < |InitErrorEvents(failed)| ==> !IsOutputEvent(InitErrorEvents(failed)[k])
  {
  }

  /** Events that are not output events in front keep the stage order. */
  lemma PrefixKeepsOrder(pre: seq<Event>, out: seq<Event>)
    requires forall k :: 0 <= k < |pre| ==> !IsOutputEvent(pre[k])
    requires StagesOrdered(out)
    ensures StagesOrdered(pre + out)
  {
    var ev := pre + out;
    assert forall k :: |pre| <= k < |ev| ==> ev[k] == out[k - |pre|];
    var j :| 0 <= j < |out| && IsConsoleEvent(out[j]);
    assert IsConsoleEvent(ev[|pre| + j]);
  }

  /** The run got past configuration, plugins and enumeration. */
  predicate GetsPast(args: Args, w: World) {
    w.config.Loaded? && !args.noColor && LoadResult(w.listing, PluginDir, w.importModule).Ok?
    && Gathered(Selection(EngineSelection(args.engines), LoadResult(w.listing, PluginDir, w.importModule).value,
                          args.domain, w.config.apiKeys, w.construct).tasks, args.domain, w.enumerate).Some?
  }

  /** No output event among events that are not output events plus one final log line. */
  lemma NoOutputIn(pre: seq<Event>, last: Event)
    requires forall k :: 0 <= k < |pre| ==> !IsOutputEvent(pre[k])
    requires !IsOutputEvent(last)
    ensures forall e :: e in pre + [last] ==> !IsOutputEvent(e)
  {
  }

  /** The run stops at the first failure of configuration, plugins or enumeration. */
  lemma PrefixHasNoOutput(args: Args, w: World)
    ensures (exists e :: e in RunEvents(args, w) && IsOutputEvent(e)) ==> GetsPast(args, w)
  {
    if w.config.Loaded? && !args.noColor {
      var announced := if w.listing.None? then [] else Announced(w.listing.value, PluginDir, w.importModule);
      var le := LoadedEvents(announced);
      var result := LoadResult(w.listing, PluginDir, w.importModule);
      if result.Ok? {
        var sel := Selection(EngineSelection(args.engines), result.value, args.domain, w.config.apiKeys, w.construct);
        var ie := InitErrorEvents(sel.failed);
        NoticesAreNotOutput(announced, sel.failed);
        if Gathered(sel.tasks, args.domain, w.enumerate).None? {
          assert RunEvents(args, w) == (le + ie) + [EnumerationErrorLogged];
          NoOutputIn(le + ie, EnumerationErrorLogged);
        }
      } else {
        NoticesAreNotOutput(announced, []);
        assert RunEvents(args, w) == le + [PluginErrorLogged];
        NoOutputIn(le, PluginErrorLogged);
      }
    }
  }

  /**
   * An engine whose enumeration raises ends the run: the last event is the
   * enumeration error, and there is no brute force, file, console or port
   * output at all.
   */
  lemma EngineFailureAborts(args: Args, w: World, plugins: map<string, EngineClass>)
    requires w.config.Loaded? && !args.noColor
    requires LoadResult(w.listing, PluginDir, w.importModule) == Ok(plugins)
    requires AnyRaised(Selection(EngineSelection(args.engines), plugins, args.domain, w.config.apiKeys, w.construct).tasks,
                       args.domain, w.enumerate)
    ensures RunEvents(args, w)[|RunEvents(args, w)| - 1] == EnumerationErrorLogged
    ensures forall e :: e in RunEvents(args, w) ==> !IsOutputEvent(e)
  {
    var sel := Selection(EngineSelection(args.engines), plugins, args.domain, w.config.apiKeys, w.construct);
    GatheredMember(sel.tasks, args.domain, w.enumerate, "");
    PrefixHasNoOutput(args, w);
  }

  /**
   * Once the engines have been gathered, the console report is always
   * produced, after the file stage and before the port scan, whatever
   * happens to brute force and to the file.
   */
  lemma GatheredRunOrder(args: Args, w: World, plugins: map<string, EngineClass>, found: set<string>)
    requires w.config.Loaded? && !args.noColor
    requires LoadResult(w.listing, PluginDir, w.importModule) == Ok(plugins)
    requires Gathered(Selection(EngineSelection(args.engines), plugins, args.domain, w.config.apiKeys, w.construct).tasks,
                      args.domain, w.enumerate) == Some(found)
    ensures StagesOrdered(RunEvents(args, w))
  {
    var sel := Selection(EngineSelection(args.engines), plugins, args.domain, w.config.apiKeys, w.construct);
    var announced := if w.listing.None? then [] else Announced(w.listing.value, PluginDir, w.importModule);
    var le := LoadedEvents(announced);
    var ie := InitErrorEvents(sel.failed);
    var out := OutputEvents(Overridden(args, w.config.threads), w, found);
    assert RunEvents(args, w) == le + (ie + out);
    OutputOrder(Overridden(args, w.config.threads), w, found);
    NoticesAreNotOutput(announced, sel.failed);
    PrefixKeepsOrder(ie, out);
    PrefixKeepsOrder(le, ie + out);
  }

  /** `--ports` keeps its pieces as strings: joined back with `,` they give the argument. */
  lemma ParsePortsRoundTrip(arg: string)
    requires arg != ""
    ensures ParsePorts(Some(arg)).Some?
    ensures |ParsePorts(Some(arg)).value| >= 1 && Join(ParsePorts(Some(arg)).value, ",") == arg
  {
    JoinSplit(arg, ",");
  }

  /** The port scan runs exactly when `--ports` is given and not empty. */
  lemma PortScanRuns(arg: Option<string>, subdomains: set<string>, connect: (string, int) -> ConnectOutcome)
    ensures PortStage(ParsePorts(arg), subdomains, connect) != [] <==> arg.Some? && arg.value != ""
  {
  }

  /**
   * From the command line the scan never reports an open port: the pieces of
   * `--ports` reach `connect_ex` as strings, which it rejects.
   */
  lemma PortStageFindsNothing(arg: Option<string>, subdomains: set<string>, connect: (string, int) -> ConnectOutcome)
    ensures PortStage(ParsePorts(arg), subdomains, connect)
         == if arg.Some? && arg.value != "" then [PortsScanned(map[])] else []
  {
    var ports := ParsePorts(arg);
    if ports.Some? && ports.value != [] {
      StringPortsReportNothing(subdomains, PortsOf(ports.value), connect);
    }
  }
}
