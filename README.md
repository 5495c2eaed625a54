# asitop-exporter in Dafny

A verified model of the core of asitop-exporter, a Prometheus exporter for
Apple-silicon Macs. It starts the `powermetrics` sampler and re-reads its
output at a fixed interval. From each reading it derives CPU and GPU power,
their running peaks and five-sample moving averages, and the neural-engine
utilisation. It publishes twenty gauges and mirrors them in an
insertion-ordered snapshot dictionary. When a push address is configured, it
also builds one JSON record per snapshot entry. Every `alive_time` minutes
it restarts the sampler under a new epoch token (the `timecode`).

The project has five modules, one file each:

- `wrappers.dfy` (`Wrappers`): `Option` and `Result`.
- `text.dfy` (`Text`): the Python string operations the code relies on.
  These are `split` on one character, `" ".join`, `strip`/`rstrip`
  (with Python's whitespace set), `lower` (ASCII letters only), substring
  `in`, `str(int)` and `int(str)`.
- `utils.dfy` (`Utils`): `asitop_exporter/utils.py`. It covers the sampler
  command line and output path, the stale-file cleanup, the nested
  `sysctl` parsing loops of `get_cpu_info` and `get_core_counts`, and the
  chip table of `get_soc_info`.
- `exporter.dfy` (`Exporter`): `asitop_exporter/exporter.py`. It holds
  `get_avg`, the peak and window state, the ANE percent, the snapshot
  dictionary, the push batch, and the class `PrometheusExporter`. The
  class's methods update its fields in place: `update_host`, `collect`,
  `get_reading`, `post_result`, and the sampler start, stop and rotation.
- `cli.dfy` (`Cli`): `asitop_exporter/cli.py`. It holds `cprint`,
  `posfloat` and the interval check of `parse_arguments`, the
  classification of bind errors, and `main` as a sequence of start, serve,
  interrupt and terminate with its exit code.

Within the model, the peaks and windows are never stored as bare numbers.
The exporter keeps ghost histories (`cpuPowers`, `gpuPowers`) of every
power it has computed. Its invariant `Valid` ties each peak to `PeakOf`
of its history, and each window to `LastN` of the history's last five
entries. Every update method preserves that invariant. The sampler is a
value that records its command line and whether it is running. Its starts
and stops are logged in a ghost event sequence.

Outside inputs are parameters:

- the wall and monotonic clocks;
- successive polls of the sampler output;
- RAM figures, the uuid and the machine's IP address;
- the set of files in `/tmp`;
- the outcome of binding the HTTP server;
- `str(interval)`.

## Model

| member | source | states |
|---|---|---|
| Text.Rstrip | asitop_exporter/cli.py:47 | `rstrip` returns a prefix of its input that does not end in whitespace; everything it removed was whitespace |
| Text.Lstrip | asitop_exporter/utils.py:102 | `lstrip` returns a suffix that does not start with whitespace; everything it removed was whitespace, in the sense of Python's `str.isspace` (ASCII 0x09-0x0D and 0x1C-0x1F, the space, NEL, no-break space and the Unicode space separators) |
| Text.Strip | asitop_exporter/utils.py:102 | the stripped field value is a slice `s[i..j]` of its input; everything before `i` and from `j` on is whitespace, and the slice neither starts nor ends with whitespace |
| Text.ContainsAt | asitop_exporter/utils.py:101 | the substring test `h in l` holds exactly when `h` occurs at some position of `l` (both directions) |
| Text.ToLower | asitop_exporter/cli.py:165 | `lower()` restricted to ASCII: the length is kept and each ASCII capital is lowered in place, every other character kept (see Left out) |
| Text.ToLowerIdempotent | asitop_exporter/cli.py:165 | lowering twice is lowering once |
| Text.Split | asitop_exporter/utils.py:96 | `split` always yields at least one piece, and no piece contains the separator; with JoinSplit, the pieces make up the text |
| Text.JoinSplit | asitop_exporter/utils.py:96 | joining the pieces of `s.split(sep)` with `sep` gives back `s`, so splitting loses and adds nothing |
| Text.SplitAppend | asitop_exporter/utils.py:59 | splitting at one separator splits both sides independently |
| Text.SplitJoin | asitop_exporter/utils.py:48-59 | splitting a joined list gives the concatenated pieces of every part |
| Text.SplitJoinInverse | asitop_exporter/utils.py:48-59 | when no part contains a space, `" ".join` followed by `split(" ")` gives back the parts |
| Text.SplitNoSep | asitop_exporter/utils.py:59 | a word without the separator splits into itself |
| Text.IntString | asitop_exporter/cli.py:154 | `str(i)` is non-empty and made of digits and a minus sign |
| Text.ParseInt | asitop_exporter/utils.py:115 | `int(s)` succeeds exactly on an optional sign followed by at least one digit |
| Text.ParseIntString | asitop_exporter/exporter.py:268 | `int(str(i)) == i`, so reading back the stored epoch token loses nothing |
| Utils.ArgvTokens | asitop_exporter/utils.py:47-59 | the argv handed to `Popen` is exactly the 13 tokens sudo, nice, -n, the nice level, powermetrics, --samplers, the sampler list, -o, the output path, -f, plist, -i, the interval text |
| Utils.OutputPath | asitop_exporter/utils.py:54 | the output path is the prefix followed by the epoch token; ArgvTokens and LaunchCommand state it inside the command |
| Utils.CommandLine | asitop_exporter/utils.py:48-58 | the nine parts joined with single spaces; ArgvTokens states the resulting tokens |
| Utils.Argv | asitop_exporter/utils.py:59 | `command.split(" ")`; ArgvTokens states it is the 13 tokens in order |
| Utils.SplitVariableParts | asitop_exporter/utils.py:48-59 | the nice level, the output path and a space-free interval each stay one token |
| Utils.RemoveStaleFreshOutput | asitop_exporter/utils.py:45-46 | cleanup only deletes, keeps every file outside the output prefix, leaves no output file of the new epoch, and a second cleanup deletes nothing more |
| Utils.RemoveStale | asitop_exporter/utils.py:45-46 | the files left once every glob match is removed: a match starts with the output prefix and, because `*` does not cross a `/`, has no `/` after it; RemoveStaleFreshOutput states its properties |
| Utils.FieldValue | asitop_exporter/utils.py:102 | `l.split(":")[1].strip()` has a value exactly when the line contains a colon (otherwise it is the IndexError case), and the value is the stripped text after the first colon up to the next colon |
| Utils.SplitNoColon | asitop_exporter/utils.py:102 | the split has fewer than two pieces exactly when the line has no colon |
| Utils.CollectFields | asitop_exporter/utils.py:96-103 | the nested line and field loops compute `Scan` of the output's lines |
| Utils.CollectLine | asitop_exporter/utils.py:100-103 | the inner loop over the fields computes `ScanLine` for one line |
| Utils.ScanLineErrExtends | asitop_exporter/utils.py:100-103 | once a field fails on a line, the remaining fields change nothing: the exception propagates |
| Utils.ScanErrExtends | asitop_exporter/utils.py:99-103 | once a line fails, the remaining lines change nothing |
| Utils.ScanLine | asitop_exporter/utils.py:100-103 | the inner loop over the fields for one line; CollectLine, ScanLineEffect and ScanLineErrExtends state what it does |
| Utils.Scan | asitop_exporter/utils.py:99-103 | both loops over lines and fields; CollectFields, ScanKeys, ScanLastWins, ScanAbsent and ScanErrExtends state what it does |
| Utils.ScanLineEffect | asitop_exporter/utils.py:100-103 | a line sets every requested field it mentions to the converted text after its first colon, and leaves all other keys as they were |
| Utils.ScanKeys | asitop_exporter/utils.py:97-103 | the dictionary only ever holds requested fields |
| Utils.ScanLastWins | asitop_exporter/utils.py:99-103 | a field's value comes from the last line that mentions it |
| Utils.ScanAbsent | asitop_exporter/utils.py:99-103 | a field that no line mentions is absent |
| Utils.GetCpuInfo | asitop_exporter/utils.py:94-104 | `get_cpu_info` is `Scan` over the two machdep fields, keeping text values |
| Utils.GetCoreCounts | asitop_exporter/utils.py:107-117 | `get_core_counts` is `Scan` over the two perflevel fields with `int` conversion; a non-numeric value is an error |
| Utils.CoreCountsOf | asitop_exporter/utils.py:133-138 | both core counts are known only when both perflevel keys are present; otherwise both are "?" |
| Utils.MaxPower | asitop_exporter/utils.py:150-168 | the TDP if-chain; ChipLimitsTable states each row and the default |
| Utils.MaxBandwidth | asitop_exporter/utils.py:169-187 | the bandwidth if-chain; ChipLimitsTable states each row and the default |
| Utils.ChipLimits | asitop_exporter/utils.py:150-187 | the four limits of a chip name; ChipLimitsTable states the table |
| Utils.ChipLimitsTable | asitop_exporter/utils.py:150-187 | the TDP chain and the bandwidth chain give each of the five known chips its row, and every other name 20/20 W and 70/70 GB/s |
| Utils.GetSocInfo | asitop_exporter/utils.py:130-188 | `get_soc_info` fails exactly when a parse fails, a machdep key is missing or the core count is not a number; otherwise each field is the looked-up or table value |
| Exporter.PowerOf | asitop_exporter/exporter.py:288 | power is energy over the interval; AdvancePowers and MetricSnapshot state where it is used |
| Exporter.Avg | asitop_exporter/exporter.py:33-35 | `get_avg`, the sum over the length; AvgAtMost, AvgAtLeast and AvgExample state its properties |
| Exporter.SumAtMost | asitop_exporter/exporter.py:33-35 | a sum of entries below a bound is at most length times the bound |
| Exporter.SumAtLeast | asitop_exporter/exporter.py:33-35 | a sum of entries above a bound is at least length times the bound |
| Exporter.AvgAtMost | asitop_exporter/exporter.py:33-35 | `get_avg` of a non-empty list does not exceed any upper bound of its entries |
| Exporter.AvgAtLeast | asitop_exporter/exporter.py:33-35 | `get_avg` of a non-empty list is at least any lower bound of its entries |
| Exporter.LastN | asitop_exporter/exporter.py:70-71 | a window of capacity n holds min(length, n) entries |
| Exporter.Push | asitop_exporter/exporter.py:291 | appending to a `deque(maxlen=5)` grows it by one until it holds five entries |
| Exporter.PushShape | asitop_exporter/exporter.py:291 | the appended power comes last, and before it the newest entries of the old window |
| Exporter.WindowOfHistory | asitop_exporter/exporter.py:291-292 | the deque after an append is always the last five powers of the whole history |
| Exporter.AvgExample | asitop_exporter/exporter.py:291-292 | after the powers 10 to 60 the window holds 20 to 60, and their average is 40 |
| Exporter.PeakOf | asitop_exporter/exporter.py:288-290 | the peak after a history of powers; PeakIsMaximum, PeakMonotone and PeakExample state its properties |
| Exporter.RaisePeak | asitop_exporter/exporter.py:289-290 | the new peak is at least the old peak and the new power, and is one of them |
| Exporter.PeakIsMaximum | asitop_exporter/exporter.py:288-290 | the peak after a history is the maximum of 0 and every power in it |
| Exporter.PeakMonotone | asitop_exporter/exporter.py:288-290 | peaks never decrease as the history grows |
| Exporter.PeakExample | asitop_exporter/exporter.py:288-290 | for the powers 5, 3, 9, 2 the peaks are 5, 5, 9, 9 |
| Exporter.HistoryStep | asitop_exporter/exporter.py:288-298 | one update keeps the peak and the window consistent with the history extended by the new power |
| Exporter.AdvanceDevice | asitop_exporter/exporter.py:288-292 | the per-device update raises the peak, appends to the window, returns the window's average, and keeps the history invariant |
| Exporter.AvgWithinPeak | asitop_exporter/exporter.py:288-298 | the moving average never exceeds the running peak |
| Exporter.TruncToInt | asitop_exporter/exporter.py:286 | `int()` on a float truncates toward zero, for both signs |
| Exporter.AnePercent | asitop_exporter/exporter.py:285-286 | `int(ane_W / interval / 8.0 * 100)`; TruncToInt bounds it and AnePercentExamples gives its values |
| Exporter.AnePercentExamples | asitop_exporter/exporter.py:285-286 | ane_W 4 over 5 s gives 10 %; 16 over 1 s gives 200 % (no clamping); -4 over 5 s gives -10; 1 over 1 s gives 12 (truncated from 12.5) |
| Exporter.Assign | asitop_exporter/exporter.py:327-351 | `d[k] = v`: a new key goes last, an existing key keeps its place, and the value is replaced |
| Exporter.AssignAll | asitop_exporter/exporter.py:327-351 | any sequence of assignments keeps the dictionary well formed (distinct keys, keys and map agree) |
| Exporter.AssignAllValues | asitop_exporter/exporter.py:327-351 | the dictionary's values after a series of assignments are those of the plain map updates |
| Exporter.AssignAllKeys | asitop_exporter/exporter.py:327-351 | a series of assignments keeps the old key order and appends each new key once, in order of first assignment |
| Exporter.NewKeysOfFresh | asitop_exporter/exporter.py:327-351 | on an empty dictionary, distinct keys are inserted in assignment order |
| Exporter.NewKeysOfPresent | asitop_exporter/exporter.py:327-351 | reassigning keys that are all present inserts nothing |
| Exporter.PublishAllLookup | asitop_exporter/exporter.py:300-325 | after setting distinct gauges, each shows its value and every other gauge is untouched |
| Exporter.MetricAt | asitop_exporter/exporter.py:327-351 | the i-th written metric sits at index i |
| Exporter.MetricOrderComplete | asitop_exporter/exporter.py:327-351 | each update writes twenty distinct metrics, each exactly once |
| Exporter.KeyInjective | asitop_exporter/exporter.py:327-351 | no two metrics share a snapshot key |
| Exporter.GaugeNameInjective | asitop_exporter/exporter.py:75-223 | no two gauges share a Prometheus name, typos included |
| Exporter.CompleteValid | asitop_exporter/exporter.py:327-351 | a snapshot with all twenty keys in order is a well-formed dictionary |
| Exporter.MetricValue | asitop_exporter/exporter.py:300-351 | the value each update writes for each metric; Values, MetricSnapshot and GaugesSnapshot state it reaches the snapshot and the gauges |
| Exporter.Values | asitop_exporter/exporter.py:300-325 | the value list has one entry per metric, namely that metric's value for the reading |
| Exporter.Rewrite | asitop_exporter/exporter.py:327-351 | rewriting the same distinct keys into an empty or same-keyed dictionary gives those keys in that order, each with its new value |
| Exporter.MetricSnapshot | asitop_exporter/exporter.py:327-351 | after the first and every later update the snapshot holds the twenty keys in write order, each with this update's value |
| Exporter.GaugesSnapshot | asitop_exporter/exporter.py:300-325 | after the gauge loop every gauge shows this update's value |
| Exporter.BatchOf | asitop_exporter/exporter.py:247-252 | the record batch built from the template and the snapshot; BatchShape states its shape |
| Exporter.BatchShape | asitop_exporter/exporter.py:247-252 | the batch has one record per snapshot entry, in dictionary order: the shared template with `url` set to the key and `value` to its value |
| Exporter.RotationDue | asitop_exporter/exporter.py:267-268 | the age check `current_time - int(timecode) >= 60 * alive_time`; MaybeRotate states what follows from it |
| Exporter.SleepFor | asitop_exporter/exporter.py:275 | the pause is never negative; it reaches the next update time when that is still ahead, and is zero when the update overran |
| Exporter.Launch | asitop_exporter/exporter.py:357-358 | the sampler `start_powermetrics_process` launches; LaunchCommand states its command and output |
| Exporter.LaunchCommand | asitop_exporter/exporter.py:357-358 | the sampler is launched with nice 10, the output path of the current epoch token, and the interval text |
| Exporter.PrometheusExporter.constructor | asitop_exporter/exporter.py:51-73 | the constructor stores the settings (an empty hostname falls back to the address) and starts with no sampler, zero peaks, empty windows and an empty snapshot |
| Exporter.PrometheusExporter.StartSampler | asitop_exporter/exporter.py:357-358 | the sampler starts for the current epoch token, after the stale files are removed |
| Exporter.PrometheusExporter.TerminateSampler | asitop_exporter/exporter.py:359-360 | the running sampler is stopped and its output path logged as terminated |
| Exporter.PrometheusExporter.MaybeRotate | asitop_exporter/exporter.py:267-271 | when the epoch is at least 60 × alive_time seconds old, the token becomes the current time and the sampler is terminated and restarted; otherwise nothing changes |
| Exporter.PrometheusExporter.GetReading | asitop_exporter/exporter.py:258-263 | the first ready poll is returned after exactly as many waits as there were empty polls; with no ready poll the exporter is still waiting |
| Exporter.PrometheusExporter.PostResult | asitop_exporter/exporter.py:225-252 | the batch is `BatchOf` the snapshot, with one uuid, the millisecond timestamp and the whole-second step |
| Exporter.PrometheusExporter.PublishGauges | asitop_exporter/exporter.py:300-325 | the gauge loop sets each gauge in order |
| Exporter.PrometheusExporter.AdvancePowers | asitop_exporter/exporter.py:288-298 | CPU and GPU power are energy over interval; each peak is raised, each window pushed, and the averages returned |
| Exporter.PrometheusExporter.Publish | asitop_exporter/exporter.py:300-351 | every gauge and every snapshot entry take this reading's value for their metric |
| Exporter.PrometheusExporter.Refresh | asitop_exporter/exporter.py:284-351 | an update extends both histories by one power, keeps the invariant, and publishes the reading made of the new powers, peaks and averages |
| Exporter.PrometheusExporter.UpdateHost | asitop_exporter/exporter.py:277-354 | as Refresh; in addition, the batch is built exactly when a push address is configured |
| Exporter.PrometheusExporter.UpdateTick | asitop_exporter/exporter.py:274 | as UpdateHost with the inputs of one iteration: each history grows by its new power, every gauge and snapshot entry takes this reading's value, and the batch is built exactly when a push address is configured |
| Exporter.PrometheusExporter.Iterate | asitop_exporter/exporter.py:266-275 | one iteration rotates when due and updates exactly when some poll is ready, in the same tick; it posts only then and sleeps `SleepFor` the deadline taken before the update |
| Exporter.PrometheusExporter.Collect | asitop_exporter/exporter.py:265-275 | each completed iteration adds one power and one pause; it stops only where no poll is ready; peaks never fall |
| Cli.Rewritten | asitop_exporter/cli.py:40-48 | the as-written prefix loop; RewrittenFirstMatch and CprintOutcome state its result |
| Cli.Cprint | asitop_exporter/cli.py:33-48 | the loop over the four prefixes computes `Rewritten`: each matching prefix replaces the text with its stripped self |
| Cli.FirstMatch | asitop_exporter/cli.py:35-41 | the first prefix the text starts with, if any, and no earlier prefix matches |
| Cli.PrefixForms | asitop_exporter/cli.py:47 | the stripped prefixes are "INFO:", "WARNING:", "ERROR:" and "NVML ERROR:" |
| Cli.Settled | asitop_exporter/cli.py:35-47 | once rewritten, the text cannot match any later prefix |
| Cli.RewrittenFirstMatch | asitop_exporter/cli.py:35-47 | for settling prefix lists, the printed text is the input when no prefix matches, and otherwise the first matching prefix stripped |
| Cli.Untouched | asitop_exporter/cli.py:41 | a text matching no prefix is printed unchanged |
| Cli.FirstMatchIs | asitop_exporter/cli.py:35-41 | the first matching index is k when the k-th prefix matches and no earlier one does |
| Cli.CprintOutcome | asitop_exporter/cli.py:33-48 | `cprint` prints the text unchanged when no prefix matches, and otherwise only the first matching prefix without its space |
| Cli.InfoSpaceMisses | asitop_exporter/cli.py:197-198 | a line starting "INFO :" (with a space before the colon) matches no prefix |
| Cli.Banner | asitop_exporter/cli.py:197-207 | the start-up line, colours aside; BannerUnchanged states it prints whole |
| Cli.BannerUnchanged | asitop_exporter/cli.py:197-207 | the start-up banner is printed whole, and nothing in it is highlighted |
| Cli.Highlight | asitop_exporter/cli.py:41-46 | the intended colouring: the shown text equals the input, and the highlighted part is the first matching prefix without its space, or nothing |
| Cli.PosFloat | asitop_exporter/cli.py:54-58 | `posfloat` accepts exactly the positive numbers and keeps them |
| Cli.ParseArguments | asitop_exporter/cli.py:54-146 | the argument conversions and the interval check; ParseArgumentsOutcome and DefaultArguments state its results |
| Cli.ParseArgumentsOutcome | asitop_exporter/cli.py:85-146 | an accepted interval is at least 0.25; a non-positive interval is an invalid value; one in (0, 0.25) is too short; parsing succeeds exactly when every value converts and the interval is at least 0.25; given values are kept |
| Cli.DefaultArguments | asitop_exporter/cli.py:85-137 | with no options: the hostname is the machine's address, bind 127.0.0.1, port 8000, interval 5.0, no push, alive time 60 |
| Cli.ToLowerAppend | asitop_exporter/cli.py:165 | lowering distributes over concatenation |
| Cli.MentionsAnywhere | asitop_exporter/cli.py:165 | a phrase anywhere in the message is found after lowering |
| Cli.ClassifyBindError | asitop_exporter/cli.py:164-195 | the choice among the three messages on the lowered error text; ClassifyBindErrorOutcome and ClassifyIgnoresCase state it |
| Cli.BindMessage | asitop_exporter/cli.py:165-194 | the line handed to `cprint` for a failed bind; BindMessageLost states what is printed |
| Cli.BindAdvice | asitop_exporter/cli.py:168-194 | the text after "ERROR: " for each kind of failure; BindMessageLost states it is lost in print |
| Cli.ClassifyBindErrorOutcome | asitop_exporter/cli.py:164-195 | "address already in use" anywhere, in any case, gives the port advice; otherwise "cannot assign requested address" gives the address advice; otherwise the raw error is printed |
| Cli.ClassifyIgnoresCase | asitop_exporter/cli.py:165 | the classification does not depend on letter case |
| Cli.Run | asitop_exporter/cli.py:149-216 | exit status 2 exactly when argument parsing fails; 1 exactly when binding fails, with the sampler started and the bind message printed as "ERROR:"; 0 otherwise, with the banner printed whole, an empty line and "INFO:", and the sampler terminated last; every printed line is the as-written `cprint` of its message |
| Cli.Start | asitop_exporter/cli.py:154-216 | once the arguments are accepted: the sampler starts for the start-up epoch, then either the bind message (status 1) or serve (status 0), each line printed through the as-written `cprint` |
| Cli.ReportBindError | asitop_exporter/cli.py:164-195 | the classified bind message is handed to `cprint`, which prints only "ERROR:" |
| Cli.Serve | asitop_exporter/cli.py:197-214 | the banner is printed, collect runs until the interrupt, the two interrupt lines are printed, and the sampler is terminated, its termination being the last event |
| Cli.Greet | asitop_exporter/cli.py:197-207 | the banner is handed to `cprint` and printed unchanged |
| Cli.Interrupted | asitop_exporter/cli.py:211-213 | the empty line prints as itself and the interrupt notice as "INFO:" |
| Cli.EmptyLine | asitop_exporter/cli.py:212 | `cprint()` with no text prints an empty line |
| Cli.ThirdMatch | asitop_exporter/cli.py:35-41 | a text that starts with the third prefix and not the first two has its first match at index 2 |
| Cli.ErrorLine | asitop_exporter/cli.py:38-47 | as written, any line starting with "ERROR: " prints as "ERROR:" alone |
| Cli.BindMessageLost | asitop_exporter/cli.py:164-195 | as written, all three bind-failure lines print as "ERROR:"; the intended form shows the whole line with "ERROR:" highlighted |
| Cli.InfoLine | asitop_exporter/cli.py:36-47 | as written, any line starting with "INFO: " prints as "INFO:" alone |
| Cli.InterruptLost | asitop_exporter/cli.py:213 | as written, the interrupt notice prints as "INFO:"; the intended form highlights "INFO:" |

## Left out

- Prometheus `Gauge`, `Info`, `REGISTRY` and `start_wsgi_server` are library code. The gauges are a map from metric to the value for this host. The hostname label and the `Info` object are not modelled. The outcome of binding the server is an input: `None` for success, otherwise the error text.
- HTTP `post`, `json.dumps`, `uuid4` and the content-type header: the batch is returned as records, not sent. The uuid is an input.
- `subprocess.Popen`, `sudo`, `glob` and `os.remove`: the sampler is a value with a `running` flag. The files in `/tmp` are a set of paths. Launch failures are not modelled.
- `os.popen` of `sysctl` and `system_profiler`: their output text is an input. `get_gpu_cores` is not modelled; its result is an input to `GetSocInfo`.
- `time.time`, `time.monotonic` and `time.sleep`: times are parameters. `SleepFor` returns the pause instead of sleeping.
- `get_reading` retries forever. The model bounds it by a finite sequence of polls and reports, rather than loops, when none is ready. `Collect` stops at such an iteration, so the unbounded wait is not modelled.
- `collect` loops forever. It runs over a finite sequence of ticks, and the keyboard interrupt arrives after the last one. An interrupt in the middle of an update is not modelled.
- `parse_powermetrics` lives in a parsers module that is not part of this model. Its reading is the `Sample` input. The `ready[-1]` dereference before the `if ready` test (asitop_exporter/exporter.py:279-282) is not modelled, because the model only updates with a ready sample.
- `get_ram_metrics_dict` and `convert_to_GB` (psutil and rounding to one decimal): the RAM figures are a `Ram` input, passed through unchanged.
- `get_ip_address` (socket I/O): the address is an input.
- `termcolor` colours: only which text is highlighted and which is plain is modelled.
- The `argparse` machinery: `--help` and `--version`, the error messages, and the `{:0.2g}` formatting. Also the conversion of the option strings: each option arrives already converted, as a default, a value or a conversion failure.
- Float semantics: powers are unbounded reals with exact division. NaN and infinities, which `float()` and `posfloat` would accept, are not modelled. `str(interval)` is the input `intervalText`.
- Text.ToLower: lowers ASCII capitals only. Python's `lower()` also lowers other Unicode letters, and can lengthen a string (`'İ'.lower()` has two characters). The bind-error classification is unaffected, because its two phrases are ASCII and lowercase.
- Text.ParseInt: does not accept the underscores and surrounding whitespace that Python's `int()` allows. The model applies it only to values that `strip()` has already trimmed.
- Exporter.PrometheusExporter.TerminateSampler: requires a sampler. The source raises AttributeError when there is none, which never happens on the paths `collect` and `main` take.
- A missing key in the reading dictionaries (KeyError in `update_host`) cannot happen: `Sample` has all fields.
- Gauge name typos `host_RAM_uesd` and `host_swap_uesd` (asitop_exporter/exporter.py:146, 167) are kept as data, not corrected.
- The sampler receives `str(interval)` in seconds (asitop_exporter/exporter.py:358), though the default of `run_powermetrics_process` and the commented-out call in `main` use milliseconds. The model follows the code.
- Cli.Run: after a bind failure the sampler is left running (its events end with `Started`), as in the source. This is stated, not corrected.
- Exporter.PrometheusExporter.Iterate: states the size and prefix of the new histories, not their new values or the snapshot; UpdateHost and Refresh state those.
- Exporter.PrometheusExporter.Collect: states the pauses, which batches exist, the history lengths and monotone peaks, but not the content of each batch; UpdateHost states that per iteration.
- Exporter.LastN carries only its length in its own contract; which entries it keeps is stated by WindowOfHistory and AvgExample.
- Exporter.Push carries only its length in its own contract; its contents are stated by PushShape.
- `asitop_exporter/__init__.py` holds only re-exports; the packaging metadata is not part of this model.

## Findings

| source | as written | input that shows it | evidently intended | confidence | as-written member | corrected member |
|---|---|---|---|---|---|---|
| asitop_exporter/cli.py:47 | `text = prefix.rstrip()` replaces the whole line with the bare prefix | any bind failure, e.g. "ERROR: Address http://127.0.0.1:8000 is already in use. …", prints only "ERROR:"; so does "INFO: Interrupted by user." (as "INFO:") | only the prefix is coloured and the message is kept, as in the commented-out `replace` at lines 42-46 | high, not executed | Cli.BindMessageLost | Cli.Highlight |
