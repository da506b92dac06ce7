# NoName subdomain enumerator — a Dafny model of its core

The tool collects the subdomains of a domain. Search-engine plugins are found
by listing the `engines` directory. The selected engines run and their results
are united. An optional wordlist brute force adds hits. The union is then
cleaned of scraping artefacts. It is written to a file and printed as three
sections (valid, invalid and wildcard hosts). Optionally every host is probed
on a list of TCP ports.

This project models that pipeline in Dafny and proves what each step promises:

- `PyStr` gives the Python string operations the code relies on, with Python's
  own edge cases. It covers `isspace`, `strip`, `split`, `join`, `splitlines`,
  code-point ordering and `str()` of an integer.
- `Sorting` models `sorted()` of a set of strings.
- `Helpers` models `clean_subdomains`.
- `ConsoleWriter` models `is_wildcard`, `is_valid_subdomain` and
  `write_to_console`.
- `FileWriter` models `write_to_file`.
- `SubBrute` models the brute forcer.
- `PortScanning` models `PortScanner`.
- `PluginLoader` models `load_plugins`.
- `Pipeline` models `main`: the config overrides, engine selection, gathering,
  brute force, and the file, console and port stages.
- `Fix` models `fix_indentation`.

The world outside the program is passed in as values and functions:

- the configuration file;
- the directory listing and `importlib`;
- the engine constructors and `enumerate()`;
- the wordlist content;
- the two DNS resolvers (console validation and brute force);
- `connect_ex`.

Printing and writing become sequences of strings. A run of `main` becomes a
sequence of `Event`s.

Where the code and the system's specification disagree, the model follows the
code:

- **Engine failures.** The specification wants per-engine timeouts and failure
  isolation. In the code, `asyncio.gather` (without `return_exceptions`) lets
  one raising engine abort the whole run. There are no timeouts.
- **Plugin import errors.** The specification treats a plugin load error as
  fatal only when no plugin loads. In the code, any import error aborts.
- **DNS errors in the console report.** The specification files every DNS
  error under Invalid. In the code, only NoAnswer, NXDOMAIN, Timeout and
  NoNameservers do. Any other resolver exception escapes `write_to_console`,
  and `main` then logs it.
- **Port values.** The specification describes ports as integers. The code
  passes the `--ports` pieces to `connect_ex` as strings. CPython's
  `connect_ex` raises TypeError for a port that is not an `int`, and
  `scan_port` turns that into None. So a run from the command line never
  reports an open port (`Pipeline.PortStageFindsNothing`).
- **File header.** The header always ends in `.com`.
- **`-n` flag.** `-n` imports a `no_color` that `output/console_writer.py`
  does not define. The resulting ImportError is not caught, so `-n` ends the
  run straight after the overrides.
- **Port annotations.** `main` calls `write_to_console` without
  `port_results`, so the console never shows open ports.

## Model

| member | source | states |
|---|---|---|
| `PyStr.LStripShape` | utils/helpers.py:12 | `lstrip` removes exactly the leading whitespace run: the result is a suffix of the input, everything removed is whitespace and the result does not start with whitespace |
| `PyStr.RStripShape` | utils/helpers.py:12 | the mirror image for `rstrip` |
| `PyStr.StripShape` | utils/helpers.py:12 | `strip()` leaves no whitespace at either end |
| `PyStr.StripNoop` | utils/helpers.py:12 | stripping an already stripped string changes nothing |
| `PyStr.StripSlice` | utils/helpers.py:12 | the stripped string is a contiguous slice of the original |
| `PyStr.Split` | utils/helpers.py:11 | `split(sep)` yields at least one piece, and the first piece is a prefix of the input |
| `PyStr.JoinSplit` | utils/helpers.py:11 | joining the pieces of `split(sep)` with `sep` gives the input back |
| `PyStr.SplitPiecesLackSep` | utils/helpers.py:11 | no piece of `split(sep)` contains `sep` |
| `PyStr.SplitWithoutSep` | utils/helpers.py:11 | a string without `sep` splits into itself alone |
| `PyStr.MissingCharLacks` | utils/helpers.py:11 | a string missing one character of `sub` does not contain `sub` |
| `PyStr.SliceLacksSub` | utils/helpers.py:11-12 | a slice of a string without `sub` does not contain `sub` |
| `PyStr.SplitOnPresentChar` | output/file_writer.py:14 | splitting on a character that occurs yields at least two pieces |
| `PyStr.SplitJoinChar` | fix.py:38 | splitting the join of pieces that lack the one-character separator gives the pieces back |
| `PyStr.SplitAfterCharFree` | output/file_writer.py:14 | a separator-free prefix before the separator becomes the first piece |
| `PyStr.FirstBreak` | fix.py:21 | the position of the first line-break character, with none before it |
| `PyStr.SplitLines` | utils/subbrute.py:27 | `splitlines()` lines contain no line-break character; only the empty text has no lines |
| `PyStr.JoinSplitLines` | utils/subbrute.py:27 | for a text whose only breaks are `\n`, the lines joined with `\n` are the text less one final `\n`, so every line is kept and cut only at breaks |
| `PyStr.LessIrreflexive` | output/console_writer.py:33 | no string is ordered before itself |
| `PyStr.LessAsymmetric` | output/console_writer.py:33 | the string order is asymmetric |
| `PyStr.LessTransitive` | output/console_writer.py:33 | the string order is transitive |
| `PyStr.LessTotal` | output/console_writer.py:33 | any two different strings are ordered one way |
| `PyStr.DigitChar` | output/console_writer.py:49 | the decimal digit character of a value below ten |
| `PyStr.NatToString` | output/console_writer.py:49 | `str(n)` is digits only, with no leading zero |
| `PyStr.NatToStringValue` | output/console_writer.py:49 | the decimal value of `str(n)` is `n` |
| `PyStr.IntToString` | output/console_writer.py:56 | `str(i)` starts with `-` exactly when `i` is negative |
| `Sorting.MinimumExists` | output/console_writer.py:33 | a non-empty set of strings has a least element |
| `Sorting.MinimumUnique` | output/console_writer.py:33 | the least element is unique |
| `Sorting.SortedList` | output/console_writer.py:33 | `sorted(set)` is strictly ascending and has exactly the set's elements |
| `Sorting.SortedEqual` | output/console_writer.py:33 | two strictly ascending lists with the same elements are equal |
| `Sorting.SortedListUnique` | output/file_writer.py:10 | `sorted(set)` is the only strictly ascending list of the set's elements |
| `Sorting.SortedAppend` | output/console_writer.py:40-46 | appending an element greater than all others keeps a list ascending |
| `Helpers.KeptPiecesMember` | utils/helpers.py:11-15 | a host is kept from a list of pieces exactly when it is the strip of some piece and passes the filter |
| `Helpers.CleanSubdomains` | utils/helpers.py:8-16 | the nested loops compute the cleaned set of the whole input |
| `Helpers.CleanedOrigin` | utils/helpers.py:9-12 | every cleaned host is a stripped piece of some input split on `<BR>` |
| `Helpers.CleanedComplete` | utils/helpers.py:11-15 | every stripped piece that contains `.` and no `@` is in the result |
| `Helpers.CleanedShape` | utils/helpers.py:12-15 | every cleaned host contains `.`, has no `@`, has no surrounding whitespace and contains no `<BR>` |
| `Helpers.CleanedOneOfClean` | utils/helpers.py:11-15 | an already clean string cleans to itself alone |
| `Helpers.CleanHostKept` | utils/helpers.py:11-15 | a stripped input with `.`, no `@` and no `<BR>` appears in the output |
| `Helpers.CleanedIdempotent` | utils/helpers.py:8-16 | cleaning twice is cleaning once |
| `Helpers.CleanedUnion` | utils/helpers.py:8-9 | cleaning a union is the union of the cleanings, so input order and duplicates do not matter |
| `Helpers.LowerCaseBreakKept` | utils/helpers.py:11 | splitting is case-sensitive: `a.io<br>b.io` survives as one host |
| `PortScanning.ScanPort` | scanners/port_scanner.py:13-21 | `scan_port` returns the port exactly when it is an `int` in 0-65535 and the connect returns 0; a string port (TypeError), an out-of-range port (OverflowError), any other code and any other exception give None |
| `PortScanning.ScanSubdomain` | scanners/port_scanner.py:23-31 | the open ports in port-list order, and a log line exactly when there is at least one |
| `PortScanning.OpenPortsMember` | scanners/port_scanner.py:26-29 | a port is listed exactly when it is in the list, is an `int` from 1 to 65535 and connects with code 0, so port 0 and string ports are never listed |
| `PortScanning.StringPortsNeverOpen` | scanners/port_scanner.py:17-21 | a host probed only on string ports has no open port |
| `PortScanning.StringPortsReportNothing` | scanners/port_scanner.py:23-35 | with string ports the scan report is empty for every host set and every network |
| `PortScanning.OpenPortsAppend` | scanners/port_scanner.py:26-29 | the open ports of a concatenation are the concatenation of the open ports (order kept) |
| `PortScanning.Run` | scanners/port_scanner.py:33-35 | every host of the set is scanned; a host is in the report exactly when it has open ports |
| `ConsoleWriter.IsWildcard` | output/console_writer.py:4-8 | true exactly when the host starts with `*.` |
| `ConsoleWriter.IsValidSubdomain` | output/console_writer.py:10-21 | a wildcard is False without a lookup; an answer is True; the four negative outcomes are False; any other exception propagates |
| `ConsoleWriter.WriteToConsole` | output/console_writer.py:23-68 | the loop builds the three lists and the printed lines, or the escaping exception, and queries the resolver for exactly the hosts of `Queried` |
| `ConsoleWriter.ClassifyErrSticks` | output/console_writer.py:40-46 | once a resolver exception escapes, later hosts are neither classified nor queried |
| `ConsoleWriter.ClassifyPartition` | output/console_writer.py:29-46 | every host lands in exactly the list its outcome dictates; the three lengths sum to the number of hosts |
| `ConsoleWriter.ClassifyDisjoint` | output/console_writer.py:40-46 | the valid, invalid and wildcard lists are pairwise disjoint |
| `ConsoleWriter.ClassifySorted` | output/console_writer.py:33-46 | walking a sorted list leaves each of the three lists in ascending order |
| `ConsoleWriter.ClassifyFails` | output/console_writer.py:17-21 | the walk fails exactly when some non-wildcard host meets an unexpected resolver exception |
| `ConsoleWriter.QueriedHosts` | output/console_writer.py:15-16 | no wildcard host is ever passed to the resolver; a walk that succeeds queries every other host |
| `ConsoleWriter.ClassifyIgnoresWildcardAnswers` | output/console_writer.py:41-42 | the resolver's answers for wildcard hosts never matter |
| `ConsoleWriter.ConsoleTotals` | output/console_writer.py:49-66 | the printed total is the number of cleaned hosts and equals the sum of the section sizes; the sections are sorted |
| `ConsoleWriter.ValidLineAnnotation` | output/console_writer.py:54-58 | a valid host is annotated exactly when `port_results` is non-empty and has that host |
| `ConsoleWriter.ValidLines` | output/console_writer.py:53-58 | one printed line per valid host |
| `FileWriter.HeaderLabel` | output/file_writer.py:14 | `split('.')[-2]` exists exactly when the host has at least two labels |
| `FileWriter.HostLines` | output/file_writer.py:15-16 | one write per host |
| `FileWriter.WriteToFile` | output/file_writer.py:4-18 | the writes (header, then each sorted host with a newline) and the confirmation, or IndexError |
| `FileWriter.HeaderLabelDefined` | output/file_writer.py:14 | index `[-2]` always exists for a cleaned host |
| `FileWriter.IndexErrorIffEmpty` | output/file_writer.py:14 | IndexError is raised exactly when nothing survives cleaning |
| `FileWriter.WrittenLines` | output/file_writer.py:9-18 | after the header come the cleaned hosts in strictly ascending order, each once, each followed by `\n`; the header names the smallest host's second-to-last label |
| `FileWriter.OnlyCleanedWritten` | output/file_writer.py:15-16 | every write after the header is a cleaned host plus `\n` |
| `FileWriter.HeaderOfThreeLabels` | output/file_writer.py:14 | for `x.y.z` the header names `y`, so `www.example.org` reports `example.com` |
| `SubBrute.ResolveSubdomain` | utils/subbrute.py:15-22 | the host exactly when the answer set is non-empty; None on an empty answer or any exception |
| `SubBrute.Candidates` | utils/subbrute.py:30 | one candidate per wordlist line |
| `SubBrute.Enumerate` | utils/subbrute.py:24-36 | the result is the set of hits among `word.domain` for every line; every candidate is consumed in order; the `Found subdomain:` lines are `EnumerateLog`; an unreadable wordlist and a non-positive worker count are errors that log nothing |
| `SubBrute.HitsMember` | utils/subbrute.py:19-20 | a host is found exactly when it is `word.domain` for some line and resolves to a non-empty answer |
| `SubBrute.RaisedIsAbsent` | utils/subbrute.py:21-22 | a candidate whose resolution raises is absent, not an error |
| `SubBrute.DuplicateWordsCollapse` | utils/subbrute.py:25 | a repeated word adds nothing |
| `SubBrute.HitsOrderFree` | utils/subbrute.py:31-36 | the result does not depend on the line order |
| `SubBrute.HitLogHits` | utils/subbrute.py:33-35 | the logged hosts are exactly the hosts of the result |
| `SubBrute.HitLogCount` | utils/subbrute.py:31-35 | a host is logged once per future that yields it, and never when it is not a hit |
| `SubBrute.HitLogAppend` | utils/subbrute.py:31-35 | the log lines follow the order of the futures |
| `SubBrute.DuplicateHitLoggedAgain` | utils/subbrute.py:30-35 | a repeated word that resolves is logged a second time |
| `PluginLoader.ModuleName` | plugins/plugin_loader.py:9 | the module name plus `.py` is the file name |
| `PluginLoader.LoadPlugins` | plugins/plugin_loader.py:5-15 | the loop builds the registry and prints one announcement per registered engine, or stops at the first import failure |
| `PluginLoader.RegistryErrSticks` | plugins/plugin_loader.py:10 | after an import failure later entries change nothing |
| `PluginLoader.RegistryMember` | plugins/plugin_loader.py:8-12 | a name is registered exactly for a `.py` file not starting with `__` whose module has `Engine`; its value is that module's `Engine` |
| `PluginLoader.RegistryFails` | plugins/plugin_loader.py:10 | loading fails exactly when some plugin file's import raises |
| `PluginLoader.AnnouncedRegistered` | plugins/plugin_loader.py:12-13 | every announced engine is in the returned registry |
| `Fix.Spaces` | fix.py:32 | `' ' * n` is `n` spaces |
| `Fix.FixedLines` | fix.py:25-36 | one rewritten line per input line |
| `Fix.FixIndentation` | fix.py:19-38 | the loop's result is the join with `\n` of the rewritten `splitlines()` lines, independent of `indent_level` |
| `Fix.FixLineIndent` | fix.py:27-36 | a rewritten line keeps the indent width, in spaces only, followed by the stripped text or the marker |
| `Fix.FixLineIdempotent` | fix.py:27-36 | rewriting a rewritten line changes nothing |
| `Fix.FixLineNoNewline` | fix.py:27-36 | rewriting introduces no newline |
| `Fix.FixedTextLines` | fix.py:21-38 | the output splits at `\n` into exactly the rewritten lines; no lines give the empty text |
| `Fix.MarkerLineCut` | fix.py:31-32 | a line `ws + "if not tokens:" + rest` becomes that many spaces plus exactly `if not tokens:` |
| `Fix.LStripPrefix` | fix.py:27 | `lstrip` removes a whitespace prefix in front of text not starting with whitespace |
| `Pipeline.Config.constructor` | main.py:71-72 | the loaded configuration keeps its `api_keys` and `threads` |
| `Pipeline.Config.ApplyOverrides` | main.py:81-85 | the five keys are overwritten from the command line; the rest is unchanged |
| `Pipeline.SelectEngines` | main.py:100-107 | the loop queues and logs exactly as `Selection` says |
| `Pipeline.RunBruteForce` | main.py:118-127 | brute-force hits are added and their `Found subdomain:` lines logged; a failure is logged and leaves the set |
| `Pipeline.RunFileOutput` | main.py:130-134 | the file is written only for a non-empty `--output`; a failure is logged |
| `Pipeline.RunConsoleOutput` | main.py:137-140 | the report is printed, or its exception logged |
| `Pipeline.RunPortScan` | main.py:143-148 | ports are scanned only when `--ports` yields a list |
| `Pipeline.OutputStages` | main.py:117-148 | the stages after gathering, in order |
| `Pipeline.RunEngines` | main.py:100-148 | selection, gathering, and the later stages only when gathering succeeds |
| `Pipeline.Orchestrate` | main.py:71-148 | a run produces exactly the events of `RunEvents`; the stages read domain, engines, output file and ports back from the overridden `Config` |
| `Pipeline.DedupDistinct` | main.py:82 | the dict keys are distinct and are exactly the split pieces |
| `Pipeline.EngineSelectionNames` | main.py:82 | the selected engines are the distinct `--engines` pieces, each mapped to True |
| `Pipeline.SelectionMember` | main.py:101-107 | a task only for an enabled plugin name with `api_keys` present and a constructor that succeeds; a logged failure only for one whose initialisation raised; unknown names appear nowhere |
| `Pipeline.GatheredMember` | main.py:110-115 | gathering fails exactly when an engine raises; otherwise it is the union of the results, empty for zero engines |
| `Pipeline.GatheredOrderFree` | main.py:111-112 | the gathered set does not depend on engine order |
| `Pipeline.BruteStageKeepsFound` | main.py:118-127 | brute force only adds; it either logs one error and leaves the set unchanged, or logs only hits, each in the new set, and every added host is logged |
| `Pipeline.ShapeOrdered` | main.py:118-148 | the brute-force lines, the file event, the one console event and the port scan appear in that order |
| `Pipeline.OutputOrder` | main.py:118-148 | the console event always happens exactly once, after the brute-force lines and the file stage and before the port scan; the brute-force lines also precede the port scan |
| `Pipeline.NoticesAreNotOutput` | main.py:94-107 | plugin announcements and engine start-up errors are not output |
| `Pipeline.PrefixKeepsOrder` | main.py:94-148 | earlier log lines do not disturb the order of the output stages |
| `Pipeline.NoOutputIn` | main.py:110-115 | a run that ends on a log line has no output events |
| `Pipeline.PrefixHasNoOutput` | main.py:71-115 | any output event implies configuration, plugins and gathering all succeeded |
| `Pipeline.EngineFailureAborts` | main.py:110-115 | one raising engine ends the run with the enumeration error and no brute force, file, console or port output |
| `Pipeline.GatheredRunOrder` | main.py:110-148 | once gathered, the console report always appears, after the brute-force lines and the file stage and before the port scan |
| `Pipeline.ParsePortsRoundTrip` | main.py:84 | the `--ports` pieces, kept as strings, join back to the argument |
| `Pipeline.PortScanRuns` | main.py:84-143 | the port scan runs exactly when `--ports` is given and non-empty |
| `Pipeline.PortStageFindsNothing` | main.py:84-148 | from the command line the port stage is at most one scan with an empty report |

## Left out

- The engines under `engines/` (HTTP sessions and scraping) are not part of
  this model. Each engine is an oracle from (engine, domain, API key) to a
  host set or an exception.
- `utils/logging.py`, `display_banner`, `parse_args` and `load_config` are
  not part of this model. The parsed command line is the `Args` value, and
  the configuration load is its outcome (`ConfigLoad`).
- The regex rewrites of `fix.py` (`fix_invalid_escape_sequences`,
  `fix_index_error`) and its `main` (file read and write) are not modelled.
- Thread pools and `asyncio` scheduling are not modelled. Results are consumed
  in submission order, as the code consumes them.
- Concurrency is not modelled: per-port socket timeouts, and the order in which
  `run`'s worker threads log.
- DNS, sockets, the file system and `importlib` are parameters.
- `print` and `f.write` become sequences of strings. The text of the log lines
  becomes `Event` constructors.
- `open()` failing in `write_to_file` is not modelled. An empty cleaned set
  raises IndexError after `open` has already truncated the file; the model
  shows only the exception.
- Errors while writing to the file are not modelled.
- `SubBrute.Enumerate` returns a set. The source returns `list(subdomains)`,
  whose order is the set's iteration order.
- The import of `SubBrute` inside `main` is assumed to succeed.
- A non-integer `threads` in the configuration is not modelled.
- `Pipeline.EngineSelectionNames` states which names the engine dict holds,
  not that they keep first-occurrence order. The order only affects the order
  of the engine start-up error log lines.
- `Pipeline.Orchestrate` covers `main` from line 71 on. It does not cover
  `asyncio.run` or the banner.
- `--verbose` is stored in the configuration but has no effect on the
  modelled steps. `colorize`, `ports` and `verbose` are unused in
  `write_to_console`.
