# rig-stats: a Dafny model of the collectors and start-up rules

`rig_stats.py` is a Prometheus exporter for a GPU mining rig. On every scrape
the Prometheus registry asks each registered collector for its metric
families:

- the GPU collector (`NvidiaCollector.collect`) reads NVML counters for every
  device and builds seven gauge families, each sample labelled with the
  device's UUID and, in six of them, a counter type;
- the miner collector (`DTSMCollector.collect`) sends one `getstat` request
  to the miner API at its host and port and builds five gauge families: the
  miner and connection uptimes, and per-GPU hashrate, efficiency, pool
  shares and latency labelled with the GPU's UUID.

At start-up `parse_args` insists that the miner options `--miner`,
`--miner-api-host` and `--miner-api-port` are given together or not at all,
and `main` registers the GPU collector and then, when a miner is named, the
collector that `miner_collectors` maps the lower-cased name to.

The project has five modules, one per file:

- `Wrappers` (`wrappers.dfy`): `Option` and `Result`.
- `Metrics` (`metrics.dfy`): a gauge family as a value (schema plus samples
  in insertion order), `AddMetric`, and `Flatten`, which concatenates the
  samples a loop adds item by item, with generic lemmas on its length, its
  blocks, its labels and the distinctness of its label values.
- `Nvidia` (`nvidia.dfy`): the NVML readings of one device as a record, the
  seven families as specification functions `GpuFamily(k, devices)`, the
  imperative `Collect` loop proved equal to them, and the layout lemmas.
- `Dtsm` (`dtsm.dfy`): the `getstat` reply as a record, `MinerFamily(k, data)`
  for the five families, the imperative `Collect` loop and its lemmas.
- `RigStats` (`rig_stats.dfy`): argument acceptance (`ParseArgs`), the
  option-group rule, the collector table, and `Start` (the start of `main`) registering collectors
  in a `Registry` object.

Notes on the source as written, which the model follows:

- A collector has no error handling of its own: an NVML call that fails, a
  refused connection, a truncated or malformed reply or a missing JSON key
  raises out of `collect`. No value is replaced by zero and there is no
  socket timeout. The model therefore has no failure paths inside the
  collectors; their inputs are the readings and the reply once obtained.
- Only the GPU and the `dtsm` miner collectors exist; there is no mining
  pool collector and no polling thread.
- The option-group count uses `filter(None.__ne__, ...)`, which keeps every
  value that is not `None`. A port of 0 or an empty host therefore counts
  as given; the model counts "not None" flags (`MinerGroup`). This relies on
  `None.__ne__(x)` returning `NotImplemented` for any `x` that is not `None`,
  and on that value being truthy: true of the Python 3 versions up to 3.13
  (from 3.9 with a deprecation warning); an interpreter that raises
  `TypeError` on the truth value of `NotImplemented` stops at this line
  instead, which the model does not capture. The script does not pin a
  Python version.
- argparse checks `choices=['dtsm']` while parsing, before the group rule,
  so an unknown miner name is reported even when the group is incomplete.
  Because of that check the table lookup in `main` cannot fail
  (`AcceptedMinerResolves`).
- Two samples of the same family carry the same label values only if two
  devices (or two entries of the miner reply) report the same UUID; the
  distinctness lemmas take distinct UUIDs as their hypothesis.

## Model

| member | source | states |
|---|---|---|
| Metrics.NewFamily | rig_stats.py:19-25 | a new gauge family has the given name, help text and label names and no samples |
| Metrics.Family.AddMetric | rig_stats.py:32-33 | add_metric keeps the schema and the earlier samples and appends exactly one sample with the given label values and value |
| Nvidia.Collect | rig_stats.py:18-69 | the seven families are yielded in the order utilization, clock, power, memory, BAR1 memory, temperature, fan, and each equals its specification `GpuFamily(k, devices)`: the devices' samples in index order |
| Nvidia.AddUtilization | rig_stats.py:30-33 | one device adds its gpu and memory utilization, in that order, to the family and nothing else |
| Nvidia.AddClockSpeed | rig_stats.py:34-38 | one device adds core, memory, max core and max memory clocks, in that order |
| Nvidia.AddPowerUsage | rig_stats.py:39-45 | one device adds usage, min and max limit constraint, limit, default limit and enforced limit, in that order |
| Nvidia.AddMemoryUsage | rig_stats.py:46-50 | one device adds used, free and total memory, in that order |
| Nvidia.AddBar1MemoryUsage | rig_stats.py:51-55 | one device adds used, free and total BAR1 memory, in that order |
| Nvidia.AddTemperature | rig_stats.py:56-59 | one device adds current temperature, slowdown and shutdown thresholds, in that order |
| Nvidia.AddFanSpeed | rig_stats.py:60-61 | one device adds one fan speed sample labelled only with its UUID |
| Nvidia.GpuTables | rig_stats.py:19-61 | for each family the type labels are as many as the samples a device adds, pairwise distinct, and with gpu_id fill the declared label names |
| Nvidia.GpuFamilyLayout | rig_stats.py:27-61 | family k holds per-device-count times number-of-devices samples, device j's block at positions j·n to (j+1)·n is exactly what device j adds, each sample is labelled with that device's UUID followed by the type label, and every sample has one value per label name |
| Nvidia.DeviceIdShared | rig_stats.py:29 | the UUID is read once per device: in all seven families every sample of device j's block starts with device j's UUID |
| Nvidia.GpuLabelValuesDistinct | rig_stats.py:27-61 | when the devices' UUIDs are pairwise distinct, no family holds two samples with equal label values |
| Dtsm.Collect | rig_stats.py:77-106 | all five families come from the one reply `query(host, port)` for the collector's host and port, and are yielded in the order uptime, hashrate, efficiency, pool shares, latency, each equal to its specification `MinerFamily(k, reply)` |
| Dtsm.AddHashrate | rig_stats.py:90-92 | one entry adds its current then average hashrate, labelled with its gpu_uuid, and nothing else |
| Dtsm.AddEfficiency | rig_stats.py:93-95 | one entry adds its current then average efficiency, labelled with its gpu_uuid |
| Dtsm.AddPoolShares | rig_stats.py:96-98 | one entry adds its accepted then rejected share counts, labelled with its gpu_uuid |
| Dtsm.AddLatency | rig_stats.py:99-100 | one entry adds one latency sample labelled only with its gpu_uuid |
| Dtsm.StatTables | rig_stats.py:78-100 | for each per-GPU family the type labels are as many as the samples one entry adds, pairwise distinct, and with gpu_id fill the declared label names |
| Dtsm.UptimeFamilyLayout | rig_stats.py:82-87 | the uptime family holds exactly two samples, miner uptime then connection uptime, with distinct label values and one value for its one label name |
| Dtsm.StatFamilyLayout | rig_stats.py:88-100 | per-GPU family k holds 2 (latency: 1) samples per entry of the reply's result list, entry j's block is exactly what entry j adds, each labelled with that entry's gpu_uuid followed by the type label |
| Dtsm.StatLabelValuesDistinct | rig_stats.py:88-100 | when the entries' gpu_uuid values are pairwise distinct, no per-GPU family holds two samples with equal label values |
| RigStats.CountGiven | rig_stats.py:155 | the number of options kept by the not-None filter is at most the number of options |
| RigStats.CountGivenExtremes | rig_stats.py:155 | the count is 0 exactly when no option is given and equals the number of options exactly when all are given |
| RigStats.ParseArgs | rig_stats.py:117-158 | accepted arguments that name a miner also carry the miner API host and port |
| RigStats.MinerOptionGroupRule | rig_stats.py:133-158 | arguments are accepted exactly when the miner name, if given, is `dtsm` and the three miner options are all given or all absent; an unknown name is an invalid-choice error, a partial group the usage error with the source's message; accepted arguments keep their values and an absent port becomes 9001 |
| RigStats.Lower | rig_stats.py:173 | lower-casing keeps the length and maps each character to its lower-case form |
| RigStats.LowerIdempotent | rig_stats.py:173 | lower-casing twice is lower-casing once, and leaves no upper-case letter |
| RigStats.MinerCollectors | rig_stats.py:161-164 | every key of the collector table is its own lower-case form |
| RigStats.AcceptedMinerResolves | rig_stats.py:137-173 | for accepted arguments naming a miner, the lower-cased name is a key of the table and selects the DTSM collector |
| RigStats.RegistrationOrder | rig_stats.py:172-174 | the GPU collector is registered first and always; a miner collector follows exactly when a miner is named, built from the given API host and port |
| RigStats.Registry.Register | rig_stats.py:172-174 | registering appends the collector to the registry's collectors |
| RigStats.Start | rig_stats.py:167-174 | on a usage error nothing is registered; otherwise the registry's earlier collectors are kept and the GPU collector and, when named, the miner collector are appended in that order |

## Left out

- NVML itself (initialisation, shutdown at exit, device enumeration and every counter query) is not modelled; `Nvidia.Collect` takes the readings of each device, in index order, as a list of records.
- Nvidia.Collect: the power limit constraints are queried twice per device in the source; the model takes one reading for both samples, so a value that changes between the two calls is not captured.
- Nvidia.Collect: the core clock samples are whatever the source's `nvmlDeviceGetClockInfo`/`nvmlDeviceGetMaxClockInfo` calls with `NVML_CLOCK_COUNT` return. In NVML that constant is the number of clock types, not a clock domain (the core clock would be `NVML_CLOCK_GRAPHICS` or `NVML_CLOCK_SM`), so these calls plausibly fail or return something other than the core clock; NVML's behaviour is outside the model, so this is noted here and not proved.
- `DTSMCollector.query_miner` (the TCP connection, the fixed request, the 8192-byte read, UTF-8 decoding and JSON parsing) is not modelled; Dtsm.Collect takes it as a function from host and port to the parsed reply.
- Errors raised inside a collector (an NVML error, a socket error, malformed JSON, a missing key such as `KeyError` on the reply) are not modelled: the inputs are typed values that always have every field.
- Dtsm.Collect: the query is a pure function, so the number of times the miner is queried is not observable in the model; that the source sends one request per collect is not captured, only that all families come from one reply.
- Sample values are integers; NVML and the miner API may deliver floating-point values, and the model does not distinguish them.
- GaugeMetricFamily objects are modelled as values: each `collect` call creates its own families and hands them out only when it yields, so no aliasing of a family is observable, and the model builds each family by replacing a local value.
- The generators are modelled as methods returning the whole sequence of families; the laziness of `yield` is not captured.
- The Prometheus registry's scrape-time behaviour (calling each collector and concatenating its families, its duplicate-name check on registration, the default collectors it starts with) is not modelled beyond an ordered list of collectors that may already be non-empty.
- RigStats.Start: prometheus' default `REGISTRY` describes collectors automatically, so each `register` call in `main` already calls the collector's `collect` once. NVML and, when a miner is named, the miner API are therefore queried at start-up, and a failure there stops `main` after the GPU collector may already be registered. Start models registration as an append that cannot fail.
- argparse mechanics (flag spellings, abbreviations, help text, conversion of the port options with `int`, and the exit with status 2 on a usage error) are not modelled; ParseArgs starts from the options already converted and returns the error instead of exiting.
- RigStats.Lower: only ASCII letters are lower-cased; Python's `str.lower` also maps other Unicode letters.
- The HTTP server, the sleep loop in `main`, the start-up message and the exit on `KeyboardInterrupt` are not modelled.
