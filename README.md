# Virtual machine panel: a Dafny model of its core

The panel is a GTK desktop application that manages two libvirt machines.
This project models the part between the text `virsh` prints and the numbers
handed to the widgets, and proves properties of that model:

- **`VMManager`** (vm_manager.py):
  - the permission retry of `_run_virsh_command`;
  - the first-match classifier `_parse_virsh_error`;
  - the `virsh` output parsers:
    - `list_all_vms`, `get_vm_info`, `get_vm_memory_usage`;
    - `get_vm_detailed_stats`, a `key=value` scanner with exact fields and summed `block.*`/`net.*` aggregates;
    - `get_vm_vcpu_info`;
    - the address selection of `get_vm_ip_address`;
  - the validate, run, classify order of the life-cycle operations.
- **`VMCard`** (ui.py):
  - the counters kept between refreshes and the rates derived from them;
  - the reset;
  - the status, uptime and size helpers.
- **Widget value state** (widgets.py): the circular gauge, the bounded line-chart history and the disk bar.
- **`ErrorHandler`** (notifications.py): how an error record becomes one warning or error notification.
- **The monitor script** (monitor_panel.py): `format_bytes`, the 60-sample CPU window with running maxima, the bars and the evaluation.

Modules, one per concern:

- `Base`: Option, clamping and the newest-n trimming of histories.
- `Text`: Python's `strip`, `split`, `lower`, `int`.
- `VirshCommand`, `VirshErrors`, `VmList`, `InfoParsers`, `DomStats`, `IpAddress`, `VmOperations`, `VmCard`, `Widgets`, `Notifications`, `Monitor`.

How the source's code maps to Dafny:

- **Parsers.** The source loops over lines. Each parser is a `method` with a `while` loop. The method is proved equal to a left fold over the lines, written as a function. The properties are lemmas about that function.
- **Running a command.** `subprocess.run` is the parameter `exec: Invocation -> Outcome`. It says what each command line did: exited with a code and output, timed out, was missing, or raised.
- **Objects.** Objects whose fields the source updates are classes with `modifies` clauses:
  - `VMCard`;
  - `CircularProgress`, `MiniLineChart`, `DiskUsageBar`;
  - `ErrorHandler`;
  - the monitor's `Statistics`.

## Model

| member | source | states |
|---|---|---|
| Base.Clamp | widgets.py:28 | the result lies in 0..100, equals the input inside that range, and is 0 below it and 100 above it |
| Text.StripEmptyIffBlank | vm_manager.py:121 | `line.strip()` is empty exactly when every character is whitespace |
| Text.JoinSplitOn | vm_manager.py:118 | joining the pieces of `split(sep)` with `sep` gives back the text |
| Text.TokensJoin | vm_manager.py:122-126 | splitting words joined by single spaces gives back the words |
| Text.ParseIntOfString | vm_manager.py:377 | `int()` reads back every integer's decimal text |
| VirshCommand.RunVirshCommand | vm_manager.py:24-54 | at most two invocations. The first is `virsh -c qemu:///system args` with a 30 s timeout. A second, `pkexec virsh ...` with a 60 s timeout, happens exactly when the first exited non-zero and its lower-cased stderr says "permission" or "access denied". The result reports the last invocation |
| VirshCommand.SuccessMeansZeroExit | vm_manager.py:41-42 | success holds exactly when the last invocation exited with code 0 |
| VirshCommand.ExceptionsBecomeFailures | vm_manager.py:44-54 | a timeout, a missing executable or any other exception gives failure, empty stdout and a non-empty message |
| VirshCommand.NoRetryWithoutExit | vm_manager.py:26-39 | a first invocation that raises is never retried, and the command fails |
| VirshCommand.PermissionDeniedRetries | vm_manager.py:33-39 | a non-zero exit whose stderr contains "Permission denied" in any case is retried once with pkexec |
| VirshErrors.ParseVirshError | vm_manager.py:56-108 | the type is the first-firing rule on the lower-cased text. A recognised type carries its fixed message and suggestion. "unknown" carries `stderr.strip()` and "" |
| VirshErrors.KindOfFollowsRules | vm_manager.py:66-106 | the if/elif chain equals the first rule, in table order, any of whose alternatives occurs in the text |
| VirshErrors.ParseVirshErrorFollowsRules | vm_manager.py:58-106 | the type is the first firing rule of the table, tested on `stderr.lower()` |
| VirshErrors.RulesSpelledOut | vm_manager.py:66-106 | each of the seven rules fires on exactly the substrings its branch tests. Network needs both "network" and "error" |
| VirshErrors.FirstFiringNone | vm_manager.py:60-64 | with no rule of type unknown, the first-firing search gives unknown exactly when no rule fires |
| VirshErrors.UnknownIffNothingMatches | vm_manager.py:60-64 | the record is unknown exactly when no pattern occurs in the lower-cased text, and is then `(unknown, stderr.strip(), "")` |
| VirshErrors.ConnectionWins | vm_manager.py:66-69 | text with "connection refused" or "failed to connect" is a connection error, whatever else it contains (a denied permission too) |
| VirshErrors.NetworkNeedsBothWords | vm_manager.py:96-99 | a network error has both words, and none of the five earlier groups fired |
| VirshErrors.SecondAlternativesRedundant | vm_manager.py:84 | "is already active" implies "already active", and "domain is not running" implies "not running", so the second alternatives never decide |
| VirshErrors.DomainNotFoundExample | vm_manager.py:78-81 | libvirt's "error: Domain not found: ..." is classified not_found |
| VmList.RowEntry | vm_manager.py:121-136 | a listed row names a configured machine, and its running flag agrees with its state |
| VmList.RowEntryMeaning | vm_manager.py:121-136 | a row is listed iff it is not blank, has at least 3 words and its second word is a configured name. The id is None iff the first word is "-"; the state is words 3.. joined by single spaces; running iff the state is "running" or "ejecutando" |
| VmList.ListAllVms | vm_manager.py:110-138 | the loop returns the entries of the rows after the two header lines, in order, and [] on a failed command |
| VmList.ReadRow | vm_manager.py:121-136 | one row's parse yields exactly that row's entry, or nothing |
| VmList.EntriesFromRows | vm_manager.py:120-131 | every listed entry comes from some row, every qualifying row is listed, and there are no more entries than rows |
| VmList.EntriesAppend | vm_manager.py:120-131 | the listing of two blocks of rows is the listing of the first followed by that of the second, so input order is kept |
| VmList.OnlyConfiguredMachines | vm_manager.py:110-138 | every listed machine is configured, and its running flag is exactly "state is running or ejecutando" |
| VmList.UnconfiguredRowIgnored | vm_manager.py:128 | a row naming a machine outside the configuration is dropped |
| VmList.StoppedRowListed | vm_manager.py:122-136 | the row `- manjaro1 shut off` becomes id None, state "shut off", not running |
| VmList.ListingExample | vm_manager.py:117-131 | a table with a foreign running machine and a stopped configured one lists only the latter |
| InfoParsers.CollectLastWins | vm_manager.py:147-150 | a key is in the dictionary iff some line yields it, and its value comes from the last such line |
| InfoParsers.InfoEntry | vm_manager.py:148-150 | a `dominfo` line contributes exactly when it holds ':' |
| InfoParsers.GetVmInfo | vm_manager.py:140-152 | the loop builds the dictionary of the stripped text before and after the first ':' of each line, and None on a failed command |
| InfoParsers.VmInfoKeys | vm_manager.py:146-151 | a key is present iff some line has ':' and that stripped prefix, and its value is the stripped rest of such a line |
| InfoParsers.GetVmMemoryUsage | vm_manager.py:361-382 | the loop computes the memory scan, and None on a failed command |
| InfoParsers.ReadMemoryLine | vm_manager.py:372-377 | one line's step: unchanged, updated, or failed when `int()` rejects the value |
| InfoParsers.MemoryScanStaysFailed | vm_manager.py:377-382 | once a value is rejected, the whole result is None |
| InfoParsers.MemoryScanFails | vm_manager.py:371-382 | the result is None exactly when some line has two words whose second is not an integer |
| InfoParsers.MemoryScanCollects | vm_manager.py:371-377 | a successful scan is the last-wins dictionary of the lines' integer values |
| InfoParsers.MemoryUsageKeys | vm_manager.py:361-382 | None iff a line is malformed. Otherwise a key is present iff some line yields it, with the value of the last such line |
| InfoParsers.VcpuKey | vm_manager.py:528 | a `vcpuinfo` key is lower-cased and holds no spaces |
| InfoParsers.GetVmVcpuInfo | vm_manager.py:506-535 | the loop computes the block scan: one dictionary per blank-line-separated block, None when there is none |
| InfoParsers.VcpuStepWellFormed | vm_manager.py:518-530 | one line keeps every finished block non-empty with clean keys |
| InfoParsers.VcpuScanWellFormed | vm_manager.py:518-533 | every block the scan collects is non-empty and has clean keys |
| InfoParsers.VcpuStepSeen | vm_manager.py:526-530 | a line adds an entry exactly when its stripped text holds ':' |
| InfoParsers.VcpuScanSeesKeyLines | vm_manager.py:518-533 | some block is produced iff some line holds ':' |
| InfoParsers.VcpuInfoShape | vm_manager.py:506-535 | None iff the command failed or no line holds ':'. Otherwise every block is a non-empty dictionary with clean keys |
| InfoParsers.BlankSeparatedKeepsLines | vm_manager.py:518-524 | cutting the output at its blank lines keeps every other line, in order, and gives one run more than there are blank lines |
| InfoParsers.RunsHaveNoBlankLine | vm_manager.py:518-524 | no run holds a blank line |
| InfoParsers.RunKeyedIffKeyLine | vm_manager.py:526-530 | a run yields a dictionary exactly when one of its lines holds ':' |
| InfoParsers.VcpuStepFollowsRuns | vm_manager.py:518-530 | one line of the loop keeps the finished blocks equal to the dictionaries of the closed runs, and the current block equal to the open run's dictionary |
| InfoParsers.VcpuScanFollowsRuns | vm_manager.py:518-530 | after any prefix of the output, the finished blocks are the closed runs' non-empty dictionaries and the current block is the open run's |
| InfoParsers.VcpuInfoFromRuns | vm_manager.py:506-535 | the result is one dictionary per blank-line-separated run that has a `key: value` line, in order. Each holds the run's entries, split at the first ':' with the key normalised, the last one for a key winning. None when the command failed or no run has an entry |
| DomStats.FirstPattern | vm_manager.py:468-499 | the aggregate chosen for a key is the first pattern in elif order it contains, and there is none iff it contains none |
| DomStats.ParseLine | vm_manager.py:426-432 | a line is split at its first '=' exactly when its stripped text holds one |
| DomStats.Items | vm_manager.py:425-432 | one classified item per output line |
| DomStats.ReadLine | vm_manager.py:426-499 | classifying one line gives the item `ItemOf` assigns it: its key's action and parsed value |
| DomStats.UpdateStats | vm_manager.py:435-499 | one line's update of the `stats` dictionary agrees with the fold step, failing on a rejected integer |
| DomStats.GetVmDetailedStats | vm_manager.py:384-504 | the loop over `stdout.split('\n')` computes the fold from the initial record, and None on a failed command |
| DomStats.FoldLines | vm_manager.py:425-501 | the loop over the lines computes the fold of their items |
| DomStats.FoldStaysFailed | vm_manager.py:502-504 | after one rejected value the result stays None |
| DomStats.FailsIffBad | vm_manager.py:435-504 | the fold fails exactly when some recognised key has a value `int()` rejects |
| DomStats.DetailedStatsFailsIffBadLine | vm_manager.py:425-504 | `get_vm_detailed_stats` returns None exactly when some output line is bad. One bad integer voids the whole record |
| DomStats.AggregatesAreSums | vm_manager.py:406-421 | each `block_*`/`net_*` aggregate starts at 0 and ends as the sum over all lines that match its pattern |
| DomStats.SumUntouched | vm_manager.py:406-421 | an aggregate no line matches stays 0 |
| DomStats.ExactFieldsLastWins | vm_manager.py:395-405 | an exact field holds the value of the last line assigning it, and otherwise keeps its initial None/0 |
| DomStats.VcpuTimeIsSumOfVcpus | vm_manager.py:447-451 | `vcpu_time` is None unless some `vcpu.*.time` key occurs, and then is the sum of their values |
| DomStats.IgnoredLineChangesNothing | vm_manager.py:427-428 | a line without '=' or with an unrecognised key changes nothing |
| DomStats.NoEqualsIgnored | vm_manager.py:427-428 | a line whose stripped text has no '=' is skipped |
| DomStats.VcpuTimeKeys | vm_manager.py:447 | `vcpu.N.time` is summed into `vcpu_time` |
| DomStats.BlockCountIsExact | vm_manager.py:466-467 | `block.count` is assigned, not summed |
| DomStats.BlockKeysAddUp | vm_manager.py:468-487 | a `block.` key other than `block.count` that contains a pattern is added to that pattern's aggregate |
| DomStats.BlockReadBytesKeys | vm_manager.py:474-475 | `block.N.rd.bytes` is added to `block_read_bytes` |
| IpAddress.FirstSomeIsFirst | vm_manager.py:330-353 | the first found value comes from the first element that yields one, and there is none iff no element yields one |
| IpAddress.GetVmIpAddress | vm_manager.py:324-359 | the nested loops return `VmIpAddress`: the first usable address of the first source that offers one |
| IpAddress.ScanOutput | vm_manager.py:333-353 | the loop over one command's rows returns its first offered address |
| IpAddress.ScanRow | vm_manager.py:339-353 | the loop over one row's words returns its first candidate |
| IpAddress.AddressIsUsable | vm_manager.py:344-351 | a returned address is four digit-only octets in 0..255, not 127.0.0.1 and not starting "0." |
| IpAddress.SourcesInOrder | vm_manager.py:328-356 | the address comes from the first source that offers one, and is None iff none does |
| IpAddress.LeaseFirst | vm_manager.py:328-353 | an address from the lease source is always the answer |
| IpAddress.RowAddressOffers | vm_manager.py:339-353 | a row's address comes from a row of at least four words, one of which holds it before its '/' |
| IpAddress.OutputAddressFromRow | vm_manager.py:333-353 | an address comes from a successful command and from a row after the two header lines |
| IpAddress.CandidateOfAddress | vm_manager.py:344-351 | a word `ip/mask` offers `ip` exactly when `ip` is usable |
| IpAddress.LoopbackRejected | vm_manager.py:351 | 127.0.0.1 is never offered |
| IpAddress.NoDotNoCandidate | vm_manager.py:344 | a word without '.' offers nothing |
| IpAddress.QuadAccepted | vm_manager.py:346-351 | four octets, not loopback and not starting "0", are accepted |
| VmOperations.FirstNamed | vm_manager.py:160-164 | the entry found is listed and has the name; None exactly when no entry has it |
| VmOperations.FirstNamedIsFirst | vm_manager.py:160-164 | the entry found is the one at the smallest position with the name: no earlier entry has it, as `next(...)` picks |
| VmOperations.RunOperation | vm_manager.py:188-195 | the command is issued after the validation listings; success holds iff there is no error record |
| VmOperations.Validation | vm_manager.py:155-164 | the validation issues listings only |
| VmOperations.CommandOnlyAfterValidation | vm_manager.py:166-286 | success iff there is no error record. The command is issued iff validation passes, and then once, last, after listings only. A refused operation issues only listings |
| VmOperations.AdmittedCommandLast | vm_manager.py:166-286 | an admitted operation is its command run after that operation's validation listings |
| VmOperations.RefusedListsOnly | vm_manager.py:166-275 | a refused operation fails with an error record after listings only |
| VmOperations.RefusalListsOnly | vm_manager.py:166-275 | whatever the two validations answered, a refusal fails with an error record and issues listings only |
| VmOperations.ResultOfCommand | vm_manager.py:188-195 | once admitted, success is the command's success, and a failure carries `_parse_virsh_error(stderr, operation)` |
| VmOperations.StartRunningRefused | vm_manager.py:168-186 | starting a running machine is refused as already running, after two listings |
| VmOperations.UnconfiguredMachineRefused | vm_manager.py:166-275 | a machine outside the configuration is never listed. Start reports it not found; shutdown, destroy, reboot and save report it not running |
| VmOperations.NeverListed | vm_manager.py:155-164 | a machine outside the configuration neither exists nor runs for the validations |
| VmOperations.UnconfiguredStartRefused | vm_manager.py:166-175 | starting a machine outside the configuration reports it not found after one listing |
| VmOperations.UnconfiguredStopRefused | vm_manager.py:197-275 | shutdown, destroy, reboot and save of a machine outside the configuration report it not running after one listing |
| VmCard.Max0 | ui.py:468-469 | `max(0, x)` is non-negative, at least x, and x when x is non-negative |
| VmCard.CpuShare | ui.py:400-401 | the CPU share is within 0..100 |
| VmCard.Rate | ui.py:466-469 | a rate is never negative |
| VmCard.Rates | ui.py:460-469 | network and disk rates are never negative |
| VmCard.CpuPercentMeaning | ui.py:385-401 | the CPU share is 0 unless `cpu_time` is truthy, a previous sample and time exist, time passed and vcpu_count > 0. Then it is Δns/1e9 over elapsed × vCPUs × 100, clamped. It raises exactly when vcpu_count is None past the guard |
| VmCard.StepKeepsCurrentCounters | ui.py:404-505 | after a refresh the tracking fields hold the current cpu_time, now and the current counters, whether or not a rate was computed. A raise keeps the state reached so far |
| VmCard.RatesAlwaysZero | ui.py:405-502 | as written, network MB/s and IOPS are always 0 |
| VmCard.IntendedIoRates | ui.py:453-502 | the intended rates are never negative |
| VmCard.RateMeasuresGrowth | ui.py:466-502 | a rate times elapsed time (and unit) gives back a counter's growth |
| VmCard.IntendedRatesMeasureGrowth | ui.py:460-502 | measured from the previous refresh, received bytes and read requests equal rate × elapsed time |
| VmCard.MissingVcpuCountRaises | ui.py:380-399 | as written, a missing vCPU count past the guard raises and leaves the state unchanged |
| VmCard.IntendedCpuPercent | ui.py:380-401 | the intended CPU share, with the count defaulting to 1, is within 0..100 |
| VmCard.IntendedCpuPercentAgrees | ui.py:385-401 | the intended share agrees with the written one wherever that one does not raise |
| VmCard.MemPercentChoice | ui.py:408-434 | memory % is (actual − unused)/actual × 100 with balloon data (raising on actual 0), else 50 when memory_actual and memory_available are truthy, else 0. RSS only selects the "RAM" title |
| VmCard.LatencyIsAverage | ui.py:507-511 | average latency × requests × 1e6 is the total time, and it is 0 with no requests |
| VmCard.RefreshAfterReset | ui.py:545-570 | after a reset the next refresh never raises on the vCPU count and reports CPU, MB/s and IOPS as 0 |
| VmCard.StatusShown | ui.py:281-298 | running gives the running label; otherwise an off state gives the off label; anything else shows its state. Start is visible iff not running, the other buttons iff running |
| VmCard.UptimeSplit | ui.py:310-319 | N/A iff the uptime is None or 0. Otherwise whole hours and remaining minutes, with hours shown only when positive |
| VmCard.FormatBytesScale | ui.py:532-540 | GB at ≥ 2^30, MB at ≥ 2^20, KB at ≥ 1024, else bytes; the shown value times its unit is the count |
| VmCard.VMCard.constructor | ui.py:16-40 | the attributes set before the widgets are built: nothing is tracked yet and the histories are empty |
| VmCard.VMCard.UpdateDetailedStats | ui.py:373-526 | the refresh returns the derived values, and the new tracking fields are those `Step` gives; the histories are untouched |
| VmCard.VMCard.SampleNetwork | ui.py:453-472 | MB/s since the stored time, then the byte counters are kept |
| VmCard.VMCard.SampleDisk | ui.py:490-505 | IOPS since the stored time, then the request counters are kept |
| VmCard.VMCard.ClearDetailedStats | ui.py:545-570 | all six tracking fields become None and the four histories become empty |
| VmCard.VMCard.RefreshDetails | ui.py:338-371 | a running machine with statistics is refreshed as `Step` says. A balloon `actual` of 0 raises at ui.py:349 before the refresh, leaving the tracked counters and the histories as they were. Otherwise the card is reset |
| Widgets.CircularProgress.constructor | widgets.py:15-20 | a new gauge shows 0 with label "0%" and no title |
| Widgets.CircularProgress.SetValue | widgets.py:26-39 | the gauge and redraw flag are those of `set_value`'s rule |
| Widgets.SetGaugeMeaning | widgets.py:26-39 | the percentage stays in 0..100. An empty label becomes the rendered percentage; an empty title keeps the old one. The gauge changes iff a redraw is queued |
| Widgets.SmallChangeIgnored | widgets.py:26-39 | a change of at most 0.5 that renders the same label, given or default, under the same title changes nothing |
| Widgets.Tenths | widgets.py:29 | the tenths `:.1f` shows: the nearest integer to p × 10, a tie going to the even one |
| Widgets.PercentLabelSameTenths | widgets.py:29 | two default labels are the same text exactly when the percentages have the same tenths |
| Widgets.DefaultLabelFollowsTenths | widgets.py:26-39 | with no label and no title given, a redraw is queued exactly when the shown tenths change |
| Widgets.SameTextNoRedrawExample | widgets.py:26-39 | 50.0 then 50.04, both shown as "50.0%", changes nothing and queues no redraw |
| Widgets.BandsPartition | widgets.py:41-51 | green below 70, amber from 70 below 85, red from 85 |
| Widgets.MiniLineChart.constructor | widgets.py:165-170 | a new chart has the given capacity and no points |
| Widgets.MiniLineChart.AddDataPoint | widgets.py:178-191 | the history stays within capacity and 0..100, and gains the clamped value. A redraw is requested iff the history was empty or the value moved more than 0.5 |
| Widgets.PushedKeepsBound | widgets.py:186-188 | the history never exceeds its capacity and holds only percentages |
| Widgets.PushedIsFifo | widgets.py:180-188 | the clamped value becomes the newest point. Only the oldest is dropped when full, and the rest keep their order |
| Widgets.ClampedPointwise | widgets.py:180 | every value is clamped in place |
| Widgets.HistoryIsNewestValues | widgets.py:178-188 | after any run of additions the history is the newest `max_points` clamped values, in arrival order |
| Base.LastNAppend | widgets.py:186-188 | trimming to the newest n before appending does not change the newest n after |
| Widgets.DiskUsageBar.constructor | widgets.py:360-366 | a new bar shows 0 of 0 |
| Widgets.DiskUsageBar.SetValue | widgets.py:372-377 | the percentage is clamped, the sizes are kept as given, and a redraw is queued |
| Notifications.NormalizeDefaults | notifications.py:126-135 | a plain string is (unknown, string, ""); a record with no keys gets unknown, "Error desconocido", "" |
| Notifications.PlainIsUnknownRecord | notifications.py:126-131 | a plain string is handled exactly like the record built from it |
| Notifications.ManagerOperationVerbs | notifications.py:138-147 | each manager operation has its Spanish verb; remove_saved_state is named by itself |
| Notifications.WarningOnlyForStateConflicts | notifications.py:150-199 | a warning is shown iff the type is already_running or not_running; every other type is an error without detail |
| Notifications.AlreadyRunningMessageOnly | notifications.py:165-169 | already_running shows the message alone, whatever the suggestion |
| Notifications.SuggestionAppended | notifications.py:150-195 | for every other type the suggestion only adds "\n💡 " + suggestion at the end, and adds it iff it is non-empty |
| Notifications.GenericBranch | notifications.py:189-195 | an unknown type names verb and machine, and adds ": message" only when the message is non-empty and not "Error desconocido" |
| Notifications.ManagerErrorRouting | notifications.py:117-199 | a record from the manager is a warning exactly for already_running and not_running |
| Notifications.ConnectionErrorNotification | notifications.py:201-217 | a connection error always gives one error notification with a detail |
| Notifications.ConnectionCheckOrder | notifications.py:201-217 | "permission denied" is tested before "failed to connect" on the lower-cased text; anything else gets the generic title with the raw text as detail |
| Notifications.OppositePrecedence | notifications.py:203-212 | text reporting both a failed connection and a denied permission is a connection error for the manager but a permission problem here |
| Notifications.ErrorHandler.constructor | notifications.py:114-115 | a new handler has shown nothing |
| Notifications.ErrorHandler.HandleVmOperationError | notifications.py:117-199 | exactly one notification is shown per operation error |
| Notifications.ErrorHandler.HandleConnectionError | notifications.py:201-217 | exactly one error notification is shown per connection error |
| Monitor.Power | monitor_panel.py:28 | 1024^k is at least 1 |
| Monitor.FormatBytes | monitor_panel.py:23-29 | the loop returns `Scaled(bytes)`, the value and unit `ScaledMeaning` characterises |
| Monitor.ScaledFromMeaning | monitor_panel.py:25-29 | from step k on, the unit is the first whose scaled value is below 1024 (TB otherwise), and the value is the bytes over 1024^k |
| Monitor.ScaledMeaning | monitor_panel.py:23-29 | the value is bytes / 1024^k for the chosen unit k. It is below 1024 unless TB, and every earlier step was at least 1024 |
| Monitor.Repeat | monitor_panel.py:91 | `c * n` has max(n, 0) copies of c |
| Monitor.BarShape | monitor_panel.py:91 | a bar with 0..50 filled cells is 50 characters, the filled ones first |
| Monitor.CpuBarLength | monitor_panel.py:90-91 | for 0 ≤ cpu ≤ 100 the CPU bar is exactly 50 characters, cell i filled iff i + 1 ≤ cpu/2 |
| Monitor.MemoryBarLength | monitor_panel.py:102-103 | the memory bar is 50 characters up to 10%, and longer than 50 from 10.2% on |
| Monitor.EvaluateFirstTier | monitor_panel.py:119-126 | the verdict is the first tier whose CPU and memory thresholds both hold, and "high" iff none does |
| Monitor.EvaluateMonotone | monitor_panel.py:119-126 | more CPU or memory never gives a better verdict |
| Monitor.Max | monitor_panel.py:59 | `max(a, b)` is one of them and at least both |
| Monitor.MaxFromBounds | monitor_panel.py:59 | the running maximum is at least its start and every reading, and is one of them |
| Monitor.MaxFromSnoc | monitor_panel.py:59 | one more reading updates the running maximum by `max` |
| Monitor.MeanWithin | monitor_panel.py:58 | the mean of a non-empty window lies between its bounds |
| Monitor.WindowKeepsNewest | monitor_panel.py:55-57 | appending and dropping past 60 keeps the newest 60 readings |
| Monitor.WindowBelowMax | monitor_panel.py:55-59 | every reading in the window is at most the running maximum |
| Monitor.MemoryMaxStep | monitor_panel.py:66 | the integer maximum follows the running maximum of all RSS readings |
| Monitor.Statistics.constructor | monitor_panel.py:45-47 | the statistics start with maxima 0 and no samples |
| Monitor.Statistics.Sample | monitor_panel.py:54-66 | the window is the newest ≤ 60 readings, ending with the new one. The average is their mean. The maxima are updated by `max` and bound every reading so far; the average is at most the CPU maximum. The verdict is the tiered evaluation |

## Left out

- Processes and I/O are not executed:
  - `subprocess.run` is the parameter `exec`, which says what each command line did;
  - `psutil`, the clock and screen clearing in monitor_panel.py are parameters or left out;
  - `find_panel_process` is left out;
  - the card's clock is the parameter `now`, and `get_vm_memory_usage`'s answer is the parameter `mem`.
- Python floats are Dafny reals. Text formatting (`:.1f`, `:.2f`) is not modelled, except for the gauge's default label. The numbers handed to labels and widgets are modelled, not the rendered strings.
- Widgets.Tenths: rounds the exact real p × 10, with ties to even. Python rounds the binary double nearest to p, so a decimal tie such as 0.25 may round the other way in the source.
- Strings are modelled as ASCII:
  - `strip`, `split` and `lower` use ASCII whitespace and case;
  - `isdigit` accepts ASCII digits only.
- `int()` is simplified to an optional sign followed by ASCII digits, on text that is already stripped. Underscores and non-ASCII digits are not accepted.
- Logging calls are left out. They have no effect on results.
- The GTK widgets, Cairo drawing, CSS and the expander are left out. So are the labels set in `update_vm_status` other than the status and uptime choices, which are modelled as values.
- The gauge and chart calls made inside `_update_detailed_stats` are not modelled. The card's method returns the values it hands to them.
- VmCard.VMCard.constructor: stops at the attributes of ui.py:16-40. The initial `self.update_vm_status()` at ui.py:253 is modelled as a `RefreshDetails` call made right after construction. So a constructor that raises at ui.py:349 is modelled as that call raising, and a new card of a running machine holds the first sample only after that call.
- The card's four history deques are only ever cleared in ui.py. Their contents are modelled as sequences.
- Threads, `GLib.idle_add`/`timeout_add_seconds` and the `is_updating` flag (concurrency) are left out.
- `NotificationManager` (toasts, `notify-send`, dialogs) is left out. The handler records the calls it makes on it, in order.
- `handle_sudo_error` is not part of this model.
- These `VMManager` members are left out:
  - `get_vm_network_interfaces` and `get_vm_virtio_drivers`: XML parsing with a library the model cannot see;
  - `get_vm_guest_users` and `get_vm_uptime`: JSON from the guest agent, and float division;
  - `get_vm_host_cpu_temp`: sysfs and `sensors`;
  - `get_vm_stats`: a legacy parser ui.py never calls;
  - `_check_system_requirements`: process probes.
- A repeated call is modelled as seeing the same answer from `exec`. `start_vm` lists the machines twice; the model assumes both listings return the same result.
- debug_memory.py, setup.py and main.py are not part of this model.
- The monitor's colour lights (monitor_panel.py:92, monitor_panel.py:104) are modelled as plain functions with no properties stated.

## Findings

| source | as written | input that shows it | evidently intended | confidence | as-written member | corrected member |
|---|---|---|---|---|---|---|
| ui.py:405 | `last_update_time` is set to the current time before the network (ui.py:461) and disk (ui.py:497) blocks measure elapsed time, so their elapsed time is 0 and MB/s and IOPS are always 0 | any two refreshes 10 s apart in which 10 MiB were received: the second shows 0 MB/s | rates measured from the previous refresh's time | high (not executed) | VmCard.RatesAlwaysZero | VmCard.IntendedIoRates, VmCard.IntendedRatesMeasureGrowth |
| ui.py:380 | `stats.get('vcpu_count', 1)` never uses its default because the key is always present (vm_manager.py:395), so an unreported count is None and `None > 0` at ui.py:399 raises `TypeError` | a second refresh of a machine whose `domstats` output has `cpu.time=5` but no `vcpu.maximum`, with time elapsed | an unreported count treated as 1 | high (not executed) | VmCard.MissingVcpuCountRaises | VmCard.IntendedCpuPercent, VmCard.IntendedCpuPercentAgrees |
