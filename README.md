# DarkEye `superScan` planner and finding formatter

This is a model of the deterministic core of DarkEye's `superScan` console module (`console/superscan.go`), with proofs about it. It has two parts:

- **Scan planning in `Start`.** Ping-only modes return early. The list `$IP` is replaced by the discovered addresses, joined by commas; an empty discovery returns without scanning. Each comma-separated range element is expanded into one scan per address, and the total probe count `tot` is added up along the way. If `GetIPRange` rejects any element, the whole run stops. A lone planned scan keeps the configured active port. The launch loop stops at the first refused `Job()`.
- **`myCallback`.** A plugin's finding becomes an `analysisEntity` record. The one-line log message is built from optional fragments.

The range helpers of the `common` package are not part of this model. They are function-valued fields of `IpRanges.Env`:

- `GetIPRange`, `GenIP(base, k)` and `CompareIP`;
- the port count that `GetPortRange` returns.

Apart from one assumption carried by a type, nothing is assumed about them except what a member states as a `requires`. The type assumption: the port count is a `nat`. Go's `GetPortRange` returns an `int`, and the model assumes that count is never negative; `tot` is a `nat` as a consequence.

The assumptions stated as `requires` are:

- `ReachedRangesTerminate(env, elems)`: every element of this call's list that the expansion loop reaches ends its loop, i.e. reaches an address past its `end`. The loop reaches an element when that element and every element before it are accepted. Nothing is asked of elements after the first rejected one, nor of strings outside the list. `PlanScans` and `Start` when it reaches planning need this, because the `for {}` loop is unbounded.
- `MonotoneOn(env, base, lo, hi)`: `GenIP(base, ·)` is strictly increasing under `CompareIP` on the offsets `lo` to `hi` only. A `GenIP` that wraps around at other offsets meets it. Only the counting, ordering and single-host lemmas need it. `RangeIncreasing` and `SingleHost` need it over the offsets their loop visits. `RangeCount` with `e >= start` needs it over `start` to `e + 1`; with `e < start` it needs no monotonicity, only that the first address is already past `end`.

The answers of `task.Job()` are a parameter `jobs: nat -> bool`: `jobs(i)` is the answer to the `i`-th call.

Modules:

- `GoStrings` (`go_strings.dfy`): `strings.Split` on one character, its inverse `Join`, `strings.TrimSuffix`, and the `+= v + ","` accumulation.
- `GoFmt` (`go_fmt.dfy`): the `%d` verb.
- `IpRanges` (`ip_range.dfy`): the abstract helpers and what one range element expands to.
- `SuperScan` (`superscan.dfy`): the runtime class with its `Start` method, and the planning and launch methods together with the functions that specify them.
- `Callback` (`callback.dfy`): `myCallback`.

`Start` is proved equal to the specification function `StartSpec`. The properties of the planner are proved as lemmas about `StartSpec` and `PlannedIps`.

## Model

| member | source | states |
|---|---|---|
| SuperScan.NewScan | console/superscan.go:164-174 | the scan carries `ip` and copies of the runtime's time-out, active port, port list and thread count |
| SuperScan.Calibrate | console/superscan.go:102-105 | the list keeps its length and its scans; only a lone scan gets the configured active port, and every other field stays as planned |
| SuperScan.FirstRefusal | console/superscan.go:108-112 | the first index at which `Job()` refuses: every slot before it was granted, and it is refused unless it is the end |
| SuperScan.ExpandElement | console/superscan.go:81-93 | the inner `for {}` loop appends exactly one scan with active port "0" for each address of the range, in the order `GenIP` produces them, and adds each scan's port count to `tot` |
| SuperScan.PlanScans | console/superscan.go:72-94 | the expansion phase gives the plan `PlanOf`: the scans and total for the split list, or the error of the first rejected element |
| SuperScan.Launch | console/superscan.go:108-117 | scans launched are the planned prefix before the first refusal; one `Job()` call per launched scan, plus the refused call when there is one |
| SuperScan.SuperScanRuntime.SubstituteDiscovered | console/superscan.go:65-69 | after the loop and the trim, `IpList` is the discovered addresses separated by single commas |
| SuperScan.SuperScanRuntime.Start | console/superscan.go:53-117 | the outcome is `StartSpec` of the runtime's options and its old `IpList`; `IpList` is rewritten only by the `$IP` substitution |
| SuperScan.FaultPersists | console/superscan.go:75-80 | once an element is rejected, later elements leave the plan unchanged |
| SuperScan.FaultIffSomeElementRejected | console/superscan.go:75-80 | the plan aborts iff some element is rejected, and then with the error of the first rejected element, all earlier ones having been accepted |
| SuperScan.PlanConcat | console/superscan.go:75-94 | planning `a + b` gives the addresses of `a` followed by those of `b` |
| SuperScan.PlanIsConcatenation | console/superscan.go:75-94 | when every element is accepted, the planned addresses are each element's range, concatenated in input order |
| SuperScan.ProbesUniform | console/superscan.go:89-90 | scans that all carry one port list add up to their number times that list's port count |
| SuperScan.ParseErrorLaunchesNothing | console/superscan.go:76-80 | a rejected element at any position makes `Start` return a fault: nothing is launched, even though earlier elements were expanded |
| SuperScan.RanOnlyIfAllParsed | console/superscan.go:76-80 | scans are launched only if every element was accepted |
| SuperScan.TotalProbes | console/superscan.go:86-90 | `tot` is the number of planned scans times the port count of the configured `PortList` |
| SuperScan.ActivePortRule | console/superscan.go:86-87 | each planned scan is the planned address with the runtime's options; its active port is "0" unless exactly one scan is planned, and then it is the configured `ActivePort` |
| SuperScan.LaunchStopsAtFirstRefusal | console/superscan.go:108-112 | launched scans are a prefix of the plan, in order; every `Job()` before the cut was granted, the one at the cut was refused, and the number of calls follows from that |
| SuperScan.EmptyDiscoveredNoTargets | console/superscan.go:59-64 | `$IP` with nothing discovered returns without planning |
| SuperScan.PingModesSkipPlanning | console/superscan.go:53-57 | either ping mode hands the unmodified list and the host flag to the ping pass and plans nothing |
| SuperScan.DiscoveredRoundTrip | console/superscan.go:59-72 | splitting the substituted list on commas gives back the discovered addresses when none contains a comma |
| SuperScan.SingleHost | console/superscan.go:102-105 | a single-address range, with `GenIP` increasing from its first to its second offset, plans exactly one scan; it keeps the configured active port, and `tot` is its port count |
| IpRanges.RangeIps | console/superscan.go:81-93 | for a terminating range: the addresses at offsets `start`, `start + 1`, … none of them past `end`, ending at the first offset whose address is past `end` |
| IpRanges.ExpansionUnique | console/superscan.go:81-85 | the stopping rule decides what the loop visits: two expansions of one range are equal |
| IpRanges.RangeCount | console/superscan.go:81-93 | with `end = GenIP(base, e)` and `GenIP` increasing on the offsets between `start` and `e + 1`, the loop ends and the range holds `e - start + 1` addresses; when `e < start` and the first address is past `end`, it holds none |
| IpRanges.RangeIncreasing | console/superscan.go:81-93 | with `GenIP` increasing on the offsets the loop visits, each address of a range is past every earlier one, so none repeats |
| GoStrings.Split | console/superscan.go:72 | at least one part; no part contains the separator; joining the parts gives back the string |
| GoStrings.TrimSuffix | console/superscan.go:69 | when `s` ends with `suffix`, the result followed by `suffix` is `s`; otherwise the result is `s` unchanged |
| GoStrings.TrimTerminated | console/superscan.go:65-69 | trimming the one trailing comma from "every part followed by a comma" gives the parts joined by single commas |
| GoStrings.JoinNoTrailingSep | console/superscan.go:65-69 | the substituted list has no trailing comma when the last address is non-empty and does not end in a comma |
| GoStrings.SplitJoin | console/superscan.go:72 | splitting a join gives back the parts when none contains the separator |
| GoFmt.Decimal | console/superscan.go:244 | `%d` of a code gives a non-empty string that begins with `-` exactly when the code is negative |
| GoFmt.DecimalRoundTrip | console/superscan.go:244 | the printed code reads back to the same number |
| Callback.ToEntity | console/superscan.go:227-240 | address, port, service, OS, URL, title, server and response code are copied; the NetBios summary is `[Ip:'…' …']` and the account summary is bracketed, whatever the plugin reported |
| Callback.OnFinding | console/superscan.go:225-256 | the record is `ToEntity`, the message is `Message`, and the log tag ends with `[Opened]` |
| Callback.Message | console/superscan.go:242-255 | the message built by the three conditional appends is the service name followed by the rendered fragments that are present |
| Callback.RenderFragments | console/superscan.go:243-255 | the rendered fragment list is the web text, the NetBios text and the credential text, each present only under its condition, in that order |
| Callback.JoinHostPort | console/superscan.go:256 | the result ends with `:` and the port; what precedes it is the host, put in brackets exactly when it holds a colon |
| Callback.FragmentsPresentIff | console/superscan.go:243-255 | web fragment iff a title was found; NetBios fragment iff its IP, OS or shares is set; credential fragment iff a user name or password was cracked; always in that order |
| Callback.MessageStartsWithService | console/superscan.go:242 | the message begins with the service name |
| Callback.MessageIsServiceIff | console/superscan.go:242-255 | the message is exactly the service name iff there is no title, no NetBios data and no credential |
| Callback.EmptyResultSummaries | console/superscan.go:232-239 | an empty NetBios result and an empty credential still give `[Ip:'' Shares:'']` and `[/]` |
| Callback.TagNamesTarget | console/superscan.go:256 | the tag is `host:port[Opened]`, with a host holding a colon (IPv6) put in brackets |

## Left out

- The bodies of `common.GetIPRange`, `GenIP`, `CompareIP`, `GetPortRange`, `NewTask`, `Job` and `UnJob` are not part of this model. These helpers are parameters, so no octet rollover or address format is modelled.
- Goroutines, `task.Wait` and the `MaxConcurrencyIp` bound handed to `NewTask`: these are concurrency. Only the sequential launch decision is modelled, so the runtime's `MaxConcurrencyIp` field is not modelled either.
- SuperScan.Launch: does not promise that each launched scan is paired with one `UnJob`. That call is deferred inside the goroutine, and goroutines are not modelled.
- `sup.Run`, `PingNet`, `analysisRuntimeOptions.ipVar` and `createOrUpdate` are not part of this model. They are external code. `ipVar`'s answer is the `discovered` parameter, and ping mode is recorded as the arguments handed to `PingNet`.
- `common.Log` and the `fmt.Println` summary: these are output only. The callback's log line is modelled as its tag and message.
- `plugins.SupportPlugin()` is not part of this model. It is external, and the model assumes it does not change the runtime fields read after it: the model reads `ActivePort` at line 104 from the runtime's options as they were when `Start` began.
- Flag registration, `Init`, `CompileArgs`, `ValueCheck` and `Usage`: CLI plumbing.
- `newBar` and `myBarCallback`: progress-bar rendering in a third-party library.
- `initializer`: filesystem and global-state I/O. `rate` is a wall-clock limiter from a library. Two facts about it:
  - The limiter is built only when `PacketPerSecond > 0`, with a burst of 10.
  - A dictionary is loaded from a file when `os.Stat` fails on the argument, and split on commas when it succeeds.
- SuperScan.NewScan: does not model the `Callback` and `BarCallback` fields. They are function pointers into the runtime.
- SuperScan.NewScan: the Go code reads the global `superScanRuntimeOptions`, not the receiver. The model reads the receiver, which is that same single instance whenever `Start` runs.
- SuperScan.ExpandElement: does not model the `Parent` context assigned to each scan, because it is the caller's context.
- SuperScan.ExpandElement: `start` and `tot` are unbounded integers, but Go's `int` has the platform's word size. On a 32-bit target, `tot += t` wraps around when the total passes 2^31 - 1. For example, a /16 range scanned on all 65535 ports gives 2^16 × 65535 probes. The model gives the exact total there, not the wrapped one.
- SuperScan.PlanScans: requires that every range the loop reaches terminates. For a range whose `GenIP` never passes `end`, the Go loop runs forever, and the model says nothing about that run.
- IpRanges.Env: the port count is typed `nat`, so a negative count from `GetPortRange` is not modelled.
- Callback.OnFinding: takes a typed `Plugin`, so the model has no panic path. The Go callback receives an `interface{}` and panics when the type assertion at line 226 fails, or when the plugin pointer is nil and lines 228-239 dereference it.
- SuperScan.SuperScanRuntime.Start: scans are modelled as values. The single-host calibration therefore rebuilds the one-element list instead of writing through the shared pointer.
