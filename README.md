# Monitoring MSP mock metric sources, modelled in Dafny

This project models the three pieces of the monitoring stack that write
Prometheus text exposition lines:

- **The fleet simulator** (`mock/alloy-simulator/main.py`). It keeps one
  cumulative counter state per server of a fixed fleet: five customers,
  fourteen servers, and a role table giving RAM, disk and core count. On
  every push it advances each server's CPU-seconds and network byte
  counters. It then writes node_exporter-style lines for all servers:
  uname, one counter per core and mode, memory, filesystem, network, load
  and uptime. Counter, network-byte and load values use the `_fmt` rule:
  integral values below 10^15 in magnitude as bare digits, anything else
  with two decimals. Memory, filesystem and uptime values are integers
  written with `str` directly. The lines are joined into one
  newline-terminated payload.
- **The mock CSP exporter** (`mock/metrics-exporter/main.py`). It derives,
  per customer, six resource gauges per server, two instance counts, a
  daily and a monthly cost per service with their running total, and two
  collector health lines. Every value is written with four decimals. It
  answers `GET /metrics`, `GET /healthz` and everything else with a 404.
- **The collector's metric record** (`collector/models/metric.py`). Its
  line sorts the labels and writes the timestamp only when it is truthy.

Modules:

- `Wrappers`: the `Option` type.
- `Text`: joining and splitting on a separator.
- `Numerals`: Python's `str(int)`, `int(x)`, and `f"{v:.Nf}"` with
  round-half-even, each with a parser that reads the text back.
- `Exposition`: the line itself, its parser and the payload.
- `AlloyFleet`: the server table, the counter arithmetic, and the classes
  `ServerState` and `StateStore` (the `_states` registry).
- `AlloySimulator`: the readings, `_fmt`, the per-server builder and the
  fleet builder.
- `MetricsExporter`: the customer table, `generate_metrics` and `do_GET`.
- `CollectorMetric`: `Metric` and `to_prometheus_line`.

Every stateful or loop-driven operation of the source is a method proved
against a specification function:

- `ServerState` and `StateStore` are classes whose fields the methods
  update. Their `Snapshot`/`Contents` functions give each method's new state
  in terms of the old one.
- The builders are methods with the source's loops. They are proved to
  produce exactly the lines of a specification function, and the
  properties are proved as lemmas about those functions.

Wall-clock time, `math.sin`, `random.uniform`, `random.randint`, Python's
string `hash` and the day of the month are inputs of the model. The
datatypes `ServerDraws`, `StateDraws` and `WaveDraw` carry the clock, `sin`
and random contributions. The hash enters the simulator as the parameter
`h` (`hashes` for the whole fleet). The day of the month enters the
exporter as `days`, one day per customer.

The three components write their lines differently. The simulator writes
values that are integral or have two decimals, with labels in insertion
order. The exporter's `_fmt` always writes four decimals, with labels in
insertion order. The collector's record sorts its labels and writes
`str(value)`.

## Model

| member | source | states |
|---|---|---|
| AlloyFleet.ModeIndex | mock/alloy-simulator/main.py:73 | every CPU mode has a position in the fixed six-mode order idle, user, system, iowait, nice, softirq |
| AlloyFleet.KeyTextInjective | mock/alloy-simulator/main.py:74 | the `"{cpu}:{mode}"` dictionary key determines core and mode, so keying the counters by (core, mode) loses nothing |
| AlloyFleet.RowKeysCount | mock/alloy-simulator/main.py:72-74 | one core has exactly six counters |
| AlloyFleet.RowKeysAre | mock/alloy-simulator/main.py:72-74 | a core's counter keys are exactly the keys naming that core |
| AlloyFleet.CoreKeysCount | mock/alloy-simulator/main.py:72-74 | a state of n cores holds exactly 6·n counters |
| AlloyFleet.CpuAfter | mock/alloy-simulator/main.py:78-86 | advancing the CPU counters keeps the set of counters |
| AlloyFleet.CoresAfter | mock/alloy-simulator/main.py:80-86 | advancing the first cores one by one keeps the set of counters |
| AlloyFleet.CoreAfter | mock/alloy-simulator/main.py:81-86 | advancing one core keeps the set of counters |
| AlloyFleet.CoresAfterNext | mock/alloy-simulator/main.py:80-86 | the per-core loop advanced one core further is the next core's update applied to the previous result |
| AlloyFleet.SharesSum | mock/alloy-simulator/main.py:81-86 | the six mode shares (1-busy, 0.55, 0.30, 0.10, 0.03, 0.02 of busy) add up to exactly one interval |
| AlloyFleet.CoreTotalAfter | mock/alloy-simulator/main.py:78-86 | each tick adds exactly the interval to a core's total CPU seconds |
| AlloyFleet.CpuAfterMonotone | mock/alloy-simulator/main.py:78-86 | for a percentage in [0, 100] and a non-negative interval no counter decreases |
| AlloyFleet.HalfBusyExample | mock/alloy-simulator/main.py:79-82 | at 50% busy over 15 s, every core's idle counter gains 7.5 s and its user counter 4.125 s |
| AlloyFleet.CoreKeys | mock/alloy-simulator/main.py:72-73 | the keys the constructor creates are exactly the six modes of every core below n |
| AlloyFleet.InitialCpu | mock/alloy-simulator/main.py:71-74 | the fresh counters cover every core and mode, each taken from its own draw in loop order |
| AlloyFleet.InitialCpuCounters | mock/alloy-simulator/main.py:72-74 | a fresh state has 6·n counters, each in [10000, 50000] |
| AlloyFleet.Fresh | mock/alloy-simulator/main.py:69-76 | a fresh state is sound: its counters are exactly the cores below its core count |
| AlloyFleet.FreshInRange | mock/alloy-simulator/main.py:69-76 | fresh CPU counters lie in [10000, 50000], received bytes in [1e9, 5e9], transmitted bytes in [5e8, 2e9] |
| AlloyFleet.CpuTick | mock/alloy-simulator/main.py:78-86 | `advance_cpu` keeps the core count, the set of CPU counters and both byte counters |
| AlloyFleet.NetTick | mock/alloy-simulator/main.py:88-90 | `advance_network` keeps the core count and every CPU counter |
| AlloyFleet.TicksSound | mock/alloy-simulator/main.py:78-90 | CPU and network ticks keep a state sound |
| AlloyFleet.NetTickGrows | mock/alloy-simulator/main.py:88-90 | with non-negative rates the byte counters never decrease; three 15 s ticks at 1 MB/s add 45 MB |
| AlloyFleet.ServerState.constructor | mock/alloy-simulator/main.py:69-76 | the new state has the given core count, the initial counters drawn in loop order and the two byte counters |
| AlloyFleet.ServerState.AdvanceCpu | mock/alloy-simulator/main.py:78-86 | the new snapshot is the CPU tick of the old one; the byte counters are unchanged |
| AlloyFleet.ServerState.AdvanceCore | mock/alloy-simulator/main.py:81-86 | one pass of the core loop: that core's six counters advance and nothing else changes |
| AlloyFleet.ServerState.AdvanceNetwork | mock/alloy-simulator/main.py:88-90 | the new snapshot is the network tick of the old one, and the state stays sound |
| AlloyFleet.StateStore.Contents | mock/alloy-simulator/main.py:93 | the registry's contents have exactly its keys |
| AlloyFleet.StateStore.ContentsSound | mock/alloy-simulator/main.py:93-101 | every registered state is sound |
| AlloyFleet.StateStore.constructor | mock/alloy-simulator/main.py:93 | the registry starts empty |
| AlloyFleet.StateStore.GetState | mock/alloy-simulator/main.py:96-101 | `_get_state` returns the registered state under `customer:server` if there is one, else registers and returns a fresh one sized by the role; no other entry changes |
| AlloyFleet.StateStore.Register | mock/alloy-simulator/main.py:100 | a new state is added under its key and nothing else changes |
| AlloyFleet.StateStore.AdvanceCpu | mock/alloy-simulator/main.py:175 | advancing a registered state changes only that entry, by one CPU tick |
| AlloyFleet.StateStore.AdvanceNetwork | mock/alloy-simulator/main.py:222 | advancing a registered state changes only that entry, by one network tick |
| AlloyFleet.StateKeyInjective | mock/alloy-simulator/main.py:97 | when customer ids contain no colon, the registry key determines customer and server |
| AlloyFleet.ServersDistinct | mock/alloy-simulator/main.py:28-48 | no two table entries share customer and server name |
| AlloyFleet.CustomerIdsPlain | mock/alloy-simulator/main.py:28-48 | no customer id in the table contains a colon |
| AlloyFleet.ServerKeysDistinct | mock/alloy-simulator/main.py:28-48 | the fourteen servers have fourteen distinct registry keys, so no two share a counter state |
| AlloyFleet.FleetLineTotal | mock/alloy-simulator/main.py:246-253 | with the role table's core counts the whole fleet writes 638 lines per push |
| AlloySimulator.Clamp | mock/alloy-simulator/main.py:123-124 | `_clamp` lands in [lo, hi], leaves values inside unchanged and sends values below to lo and above to hi |
| AlloySimulator.PhaseBucket | mock/alloy-simulator/main.py:127-129 | the hash bucket is in [0, 1000) and congruent to the hash modulo 1000, as Python's `%` gives even for negative hashes |
| AlloySimulator.PhaseBucketNegative | mock/alloy-simulator/main.py:129 | a hash of -1 gives bucket 999, -1000 gives 0, 1234 gives 234 |
| AlloySimulator.WaveRange | mock/alloy-simulator/main.py:111-120 | a wave lies within amplitude plus noise of its base |
| AlloySimulator.ReadingsBounds | mock/alloy-simulator/main.py:170-237 | utilisations lie in [0, 100]; available memory and disk lie between 0 and the total; free+buffers+cached memory fit in the available memory; rates and loads are never negative |
| AlloySimulator.ReadingsOf | mock/alloy-simulator/main.py:169-237 | the CPU, memory and filesystem utilisations lie in [0, 100]; the network rates and both load averages are never negative |
| AlloySimulator.UptimeBound | mock/alloy-simulator/main.py:240 | the uptime gauge is at least one day |
| AlloySimulator.FmtIntegral | mock/alloy-simulator/main.py:133-134 | an integral value below 10^15 in magnitude is written as integer digits that read back as that value |
| AlloySimulator.FmtFraction | mock/alloy-simulator/main.py:135 | any other value is written with exactly two decimals that read back within half a hundredth |
| AlloySimulator.Fmt | mock/alloy-simulator/main.py:132-135 | `_fmt` writes only digits, minus signs and points, so its text never holds a separator of the line format |
| AlloySimulator.FmtWholeExample | mock/alloy-simulator/main.py:133-134 | 1000000.0 is written `1000000` |
| AlloySimulator.FmtFractionExample | mock/alloy-simulator/main.py:135 | 1234.5 is written `1234.50` |
| AlloySimulator.CpuModes | mock/alloy-simulator/main.py:178-183 | the lines of one core for the first j modes: one line per mode |
| AlloySimulator.CpuRow | mock/alloy-simulator/main.py:178-183 | one core writes six counter lines |
| AlloySimulator.CpuSamples | mock/alloy-simulator/main.py:177-183 | n cores write 6·n counter lines |
| AlloySimulator.TailSamples | mock/alloy-simulator/main.py:186-241 | the memory, filesystem, network, load and uptime part is twelve lines |
| AlloySimulator.ServerSamples | mock/alloy-simulator/main.py:143-243 | a server with n cores writes 13 + 6·n lines |
| AlloySimulator.ServerSamplesBaseLabels | mock/alloy-simulator/main.py:154-241 | every line of a server block starts its labels with `customer_id`, `server_name` and `environment`, in that order |
| AlloySimulator.CpuSamplesLabels | mock/alloy-simulator/main.py:177-186 | every counter line carries the base labels before its `cpu` and `mode` labels |
| AlloySimulator.ServerSamplesDistinct | mock/alloy-simulator/main.py:154-241 | no line of a server's block repeats a label key |
| AlloySimulator.ServerSamplesWellFormed | mock/alloy-simulator/main.py:154-241 | when the customer id, server name and timestamp text hold no separator character, every line of the block has a name, labels and value the line reader takes back |
| AlloySimulator.PushedSameEntry | mock/alloy-simulator/main.py:149-151 | a server's push depends only on that server's own registry entry |
| AlloySimulator.PushedFits | mock/alloy-simulator/main.py:149-222 | after a push the server's state is sound and has counters for all of its role's cores |
| AlloySimulator.PushedMonotone | mock/alloy-simulator/main.py:151-222 | a push of a registered server keeps its CPU keys and lowers no CPU counter and neither byte counter, whatever the draws |
| AlloySimulator.BuildServerMetrics | mock/alloy-simulator/main.py:143-243 | `_build_server_metrics` changes only its own registry entry, by one push, and returns exactly that server's lines rendered from the advanced counters |
| AlloySimulator.GetOrCreateFits | mock/alloy-simulator/main.py:96-101 | the state `_get_state` hands out is sound and covers the role's cores |
| AlloySimulator.AdvanceAndRead | mock/alloy-simulator/main.py:175-231 | the CPU and network advances change only the server's entry, and the counter lines and byte values are read from the advanced state |
| AlloySimulator.CpuLines | mock/alloy-simulator/main.py:177-183 | the nested core-by-mode loop produces exactly the counter lines of every core |
| AlloySimulator.CoreLines | mock/alloy-simulator/main.py:178-183 | the inner mode loop produces exactly one core's six lines |
| AlloySimulator.FleetAfterCompatible | mock/alloy-simulator/main.py:249-252 | pushing the fleet server by server keeps every listed server's state sound and large enough |
| AlloySimulator.PushKeepsCompatible | mock/alloy-simulator/main.py:250-251 | one server's push keeps the whole registry compatible with the table |
| AlloySimulator.PushKeepsFits | mock/alloy-simulator/main.py:250-251 | one server's push keeps any listed server's entry fitting |
| AlloySimulator.FleetAfterEntry | mock/alloy-simulator/main.py:249-252 | after the first pushes each of those servers' states has advanced exactly once, from where it stood before |
| AlloySimulator.FleetAfterUntouched | mock/alloy-simulator/main.py:249-252 | a registry entry of no pushed server is left as it was |
| AlloySimulator.ServerBlock | mock/alloy-simulator/main.py:250-251 | the i-th server's block has 13 + 6·cores lines |
| AlloySimulator.FleetSamples | mock/alloy-simulator/main.py:246-252 | the fleet's lines, server after server, number exactly the fleet line count |
| AlloySimulator.FleetAfterMonotone | mock/alloy-simulator/main.py:249-252 | after the first pushes, every pushed server that was registered keeps its CPU keys and has no CPU or byte counter lower than before |
| AlloySimulator.FleetSamplesDistinct | mock/alloy-simulator/main.py:246-252 | no line of the fleet's payload repeats a label key |
| AlloySimulator.ServerNamesPlain | mock/alloy-simulator/main.py:28-48 | no customer id or server name of the table holds a brace, comma, equals sign, space or newline |
| AlloySimulator.FleetSamplesWellFormed | mock/alloy-simulator/main.py:246-252 | with a timestamp text free of separators, every line of the fleet's payload is one the line reader takes back |
| AlloySimulator.FleetPayloadReadsBack | mock/alloy-simulator/main.py:246-253 | the fleet's payload splits at its newlines into exactly its 638 lines and an empty tail, and each line reads back as the sample it was written from |
| AlloySimulator.BuildAllMetrics | mock/alloy-simulator/main.py:246-253 | `build_all_metrics` advances every server exactly once in table order and returns the newline-joined, newline-terminated lines of every server |
| AlloySimulator.ExtendWithServer | mock/alloy-simulator/main.py:249-252 | one pass of the fleet loop appends the next server's lines and advances only its state |
| Numerals.NatToString | mock/alloy-simulator/main.py:134 | `str` of a non-negative int is a non-empty string of digits |
| Numerals.IntToStringRoundTrip | mock/alloy-simulator/main.py:134 | integer text reads back as the integer it came from |
| Numerals.IntToStringInjective | mock/alloy-simulator/main.py:166 | different timestamps give different text |
| Numerals.Trunc | mock/alloy-simulator/main.py:193-196 | `int(x)` truncates toward zero: within one of x, never past it |
| Numerals.RoundHalfEven | mock/alloy-simulator/main.py:135 | rounding lands within half a unit of the value and keeps non-negative values non-negative |
| Numerals.FixedPointRoundTrip | mock/alloy-simulator/main.py:135 | `f"{v:.Nf}"` has exactly N fraction digits and reads back as v scaled and rounded to the N-th place |
| Numerals.FixedPointAccuracy | mock/metrics-exporter/main.py:126 | fixed-point text reads back within half a unit in its last place of the value |
| Exposition.Render | mock/alloy-simulator/main.py:180-182 | a line starts with the metric name and an opening brace and ends with a space, the value and, when there is one, a space and the timestamp |
| Exposition.ParseRender | mock/alloy-simulator/main.py:180-182 | a line whose name and labels contain no separators reads back as exactly its name, labels, value and timestamp |
| Exposition.RenderInjective | mock/alloy-simulator/main.py:180-182 | two different well-formed samples never give the same line |
| Exposition.LabelEntries | mock/metrics-exporter/main.py:125 | the label segment splits on commas into one `k="v"` entry per label, in order |
| Exposition.RenderNoNewline | mock/alloy-simulator/main.py:253 | a well-formed line contains no newline |
| Exposition.PayloadLines | mock/alloy-simulator/main.py:253 | a newline-joined, newline-terminated payload splits back into its lines and one empty tail |
| Exposition.PayloadOfSamples | mock/metrics-exporter/main.py:214 | a payload of well-formed lines splits back into one line per sample |
| MetricsExporter.Wave | mock/metrics-exporter/main.py:110-115 | the exporter's `_wave` is never negative |
| MetricsExporter.WaveBounds | mock/metrics-exporter/main.py:113-115 | with a sine in [-1, 1] and noise within a fifth of the amplitude, the wave stays within 1.2 amplitudes of its base, cut at zero |
| MetricsExporter.FmtReadsBack | mock/metrics-exporter/main.py:123-126 | an exporter line reads back as its name, its labels in insertion order and no timestamp; its value has four decimals and is within half a unit in the last place |
| MetricsExporter.FullLabelsExtendBase | mock/metrics-exporter/main.py:144-150 | the CPU line's labels are the four base labels in order followed by `instance_type` |
| MetricsExporter.ReadingsOf | mock/metrics-exporter/main.py:152-172 | CPU and memory utilisation lie in [0, 100]; network and disk bytes are never negative |
| MetricsExporter.Fmt | mock/metrics-exporter/main.py:123-126 | the exporter's line starts with the name and an opening brace and ends with a space and the value at four decimals, with no timestamp |
| MetricsExporter.ServerRow | mock/metrics-exporter/main.py:140-172 | each server writes six lines |
| MetricsExporter.ServerRowDistinct | mock/metrics-exporter/main.py:140-172 | no line of a server's six repeats a label key |
| MetricsExporter.ServerRowsDistinct | mock/metrics-exporter/main.py:140-172 | no server line of a customer repeats a label key |
| MetricsExporter.ServerRows | mock/metrics-exporter/main.py:140-172 | the first k servers write 6·k lines |
| MetricsExporter.RunningCount | mock/metrics-exporter/main.py:176-181 | the running count is the instance count, or one fewer exactly for epsilon |
| MetricsExporter.RunningAtMostTotal | mock/metrics-exporter/main.py:176-181 | for every customer, the running count lies between 0 and the instance count; it is smaller exactly for epsilon |
| MetricsExporter.Daily | mock/metrics-exporter/main.py:193-197 | a daily cost is never negative |
| MetricsExporter.MonthlyTotal | mock/metrics-exporter/main.py:187-203 | the running monthly total is never negative |
| MetricsExporter.MonthlyTotalIsDailySum | mock/metrics-exporter/main.py:187-203 | the monthly total is the sum of the daily costs times the day of the month, and never negative |
| MetricsExporter.CostRows | mock/metrics-exporter/main.py:190-203 | each service writes a daily and a monthly line |
| MetricsExporter.CustomerSamples | mock/metrics-exporter/main.py:133-212 | a customer with n servers writes 6·n + 11 lines |
| MetricsExporter.CostRowsDistinct | mock/metrics-exporter/main.py:190-203 | no cost line repeats a label key |
| MetricsExporter.CustomerSamplesDistinct | mock/metrics-exporter/main.py:133-212 | no line a customer contributes repeats a label key |
| MetricsExporter.ExportSamples | mock/metrics-exporter/main.py:133-212 | the first customers write exactly their line count |
| MetricsExporter.ExportLineTotal | mock/metrics-exporter/main.py:16-96 | the five customers and their fourteen servers give 139 lines per scrape |
| MetricsExporter.GenerateMetrics | mock/metrics-exporter/main.py:129-214 | `generate_metrics` returns exactly the newline-joined, newline-terminated lines of every customer in order |
| MetricsExporter.CustomerLines | mock/metrics-exporter/main.py:134-212 | one pass of the customer loop produces exactly that customer's lines |
| MetricsExporter.ServerLines | mock/metrics-exporter/main.py:140-172 | the server loop produces exactly the server lines |
| MetricsExporter.ServerRowLines | mock/metrics-exporter/main.py:141-172 | one server's six waves, with CPU and memory clamped, give exactly its six lines |
| MetricsExporter.CostLines | mock/metrics-exporter/main.py:187-203 | the cost loop produces exactly the cost lines, and its running `monthly_total` is the model's monthly total |
| MetricsExporter.CostPairLines | mock/metrics-exporter/main.py:191-202 | one service gives its daily line and its monthly line, the daily cost times the day of the month |
| MetricsExporter.Utf8Length | mock/metrics-exporter/main.py:231 | an encoded body is never shorter than its text |
| MetricsExporter.AsciiLength | mock/metrics-exporter/main.py:231 | seven-bit text encodes to one byte per character |
| MetricsExporter.Reply | mock/metrics-exporter/main.py:234 | the Content-Length header reads back as the body's UTF-8 byte length |
| MetricsExporter.HandleGet | mock/metrics-exporter/main.py:229-250 | `/metrics` answers 200 `text/plain; charset=utf-8` with the generated payload; `/healthz` answers 200 `text/plain` with "ok"; any other path answers 404 `text/plain` with "Not Found" |
| MetricsExporter.HealthReplyLength | mock/metrics-exporter/main.py:238-241 | the health reply announces 2 bytes |
| MetricsExporter.NotFoundReplyLength | mock/metrics-exporter/main.py:246-248 | the 404 reply announces 9 bytes |
| CollectorMetric.StrLessIrreflexive | collector/models/metric.py:17 | no key sorts before itself |
| CollectorMetric.StrLessTransitive | collector/models/metric.py:17 | string order is transitive |
| CollectorMetric.StrLessTotal | collector/models/metric.py:17 | of two different strings one sorts first |
| CollectorMetric.LabelLessIrreflexive | collector/models/metric.py:17 | no label item sorts before itself |
| CollectorMetric.LabelLessTransitive | collector/models/metric.py:17 | the order on (key, value) items is transitive |
| CollectorMetric.LabelLessTotal | collector/models/metric.py:17 | of two different label items one sorts first |
| CollectorMetric.LabelLeqTransitive | collector/models/metric.py:17 | sorted-or-equal is transitive |
| CollectorMetric.LabelLessAsymmetric | collector/models/metric.py:17 | two items never sort before each other |
| CollectorMetric.Insert | collector/models/metric.py:16-18 | inserting into a sorted list gives a sorted permutation of the list plus the item |
| CollectorMetric.SortLabels | collector/models/metric.py:16-18 | `sorted(labels.items())` is sorted and a permutation of the items |
| CollectorMetric.SortedUnique | collector/models/metric.py:16-18 | two sorted permutations of the same items are equal, so the sorted order is unique |
| CollectorMetric.LineOrderIndependent | collector/models/metric.py:15-20 | the line does not depend on the order the labels were inserted in |
| CollectorMetric.ToPrometheusLine | collector/models/metric.py:15-20 | the line starts with the name and an opening brace; with no timestamp or a zero one it ends with a space and the written value |
| CollectorMetric.LineReadsBack | collector/models/metric.py:15-20 | the line reads back as the name, the labels sorted (a sorted permutation of the items), the written value, and a timestamp exactly when it is present and nonzero, reading back as that timestamp |
| CollectorMetric.LabelSegmentEntries | collector/models/metric.py:16-18 | the braces hold one comma-separated `k="v"` entry per label, in sorted order |
| CollectorMetric.DefaultLine | collector/models/metric.py:12-20 | with no labels and no timestamp the line is `name{} value` |
| CollectorMetric.ZeroTimestampOmitted | collector/models/metric.py:19 | a zero timestamp is left out just as a missing one is |

## Left out

- Networking and I/O are not modelled: `push_metrics` and `main` in the
  simulator (mock/alloy-simulator/main.py:261-290), the exporter's
  `HTTPServer`, `serve_forever` and `wfile.write`, `log_message`, and all
  printing. `HandleGet` returns the status, headers and body that `do_GET`
  writes.
- `time.time`, `math.sin`, `random.uniform`, `random.randint`,
  `time.localtime().tm_mday` and Python's randomised string `hash` are
  inputs. The wave period and phase arguments matter only through the sine
  draw, so no constraint ties a draw to them. The exporter reads the day
  of the month once per customer; the model takes one day per customer.
- Floats are exact reals. The `.2f`/`.4f` text is round-half-even on the
  exact value, whereas Python rounds the binary double. Double rounding of
  the counter arithmetic and the cost products is not modelled.
- CollectorMetric.ToPrometheusLine: Python's `str(float)`
  (shortest-repr) is a parameter `show`, not a definition.
- An unknown role raising `KeyError` at `ROLE_SPECS[role]` cannot happen:
  roles are a closed datatype with the five table roles.
- AlloySimulator.BuildServerMetrics requires an already registered state
  to have at least its role's cores. Otherwise the source raises `KeyError`
  at mock/alloy-simulator/main.py:179, which is not modelled. Every state
  the fleet itself creates meets this (AlloySimulator.FleetAfterCompatible).
- Environment configuration (`VM_URL`, `PUSH_INTERVAL`, port and bind
  address) is not modelled. The push interval is a natural-number
  parameter.
- Label values are written without escaping in every source file. The
  read-back lemmas require names without `{` or newline, label keys
  without `=`, `,`, `}` or newline, and label values without `,`, `}` or
  newline. The simulator's own table meets these conditions
  (AlloySimulator.FleetPayloadReadsBack). The exporter's and the
  collector's lines are not analysed for them.
- The customer `name` field of the exporter table is kept but never
  written, as in the source.
- collector/main.py, the providers, collector/models/customer.py and
  collector/config.py are not part of this model.
