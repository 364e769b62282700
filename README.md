# QKD fault-injection harness: a verified model

This project models the deterministic core of a harness built around a
quantum key distribution (QKD) network simulator. The harness generates
labelled telemetry for fault detection. It has three parts:

- **The Tokyo scenario harness** (`tokyo_qkd_simulation.py`):
  - builds the five-node Tokyo topology: nodes, one quantum channel and a
    pair of classical channels per link, and an extra classical route
    Koganei_A <-> Otemachi;
  - arms one of five fault scenarios (intercept-resend, blinding, Trojan
    horse, node failure, channel degradation);
  - samples per-link metrics on a self-rearming timer;
  - labels each sample with the scenario once the fault start time is
    reached.
- **The single-link driver** (`run_dataset_one_link.py`):
  - keeps a shared scenario label and starvation counter;
  - requests keys and consumes them two at a time, counting starvation
    when the buffer runs short;
  - takes telemetry snapshots;
  - schedules everything on time grids;
  - fires three label-setting faults.
- **The dataset consolidator** (`generate_dataset.py`):
  - keeps the six expected scenario files among the globbed ones;
  - labels each file's rows by an exact match on the file's stem;
  - concatenates the files in path order;
  - engineers per-(fault name, link) features: first differences, a
    trailing window-5 mean and sample variance, a clipped relative
    change, and two threshold flags.

The simulator's objects (nodes, detectors, light sources, protocol
instances, channels) become plain Dafny classes (`Entities`). Their fields
are the attributes the harness reads and writes. An attribute whose
absence changes what the harness does is an `Option` field: a detector's
time resolution, a protocol's phase error rate, the node's cached
detector readings and reflection power, and the reconciliation layer's
statistics. A plain field is used where a missing attribute reads the
same as an empty one (a protocol's error rates, throughputs and sifted
bits, whose `getattr` defaults are `[]` or `None`), and where the
builder always sets the attribute (a detector's efficiency and dark
count rate).

Code that mutates state in place is modelled as methods with `modifies`
clauses. This covers the builder, the fault perturbations, the collector,
the sampler, the traffic and probe objects, and the scheduler. Code that
only computes is modelled as functions with lemmas. This covers the delay
and attenuation rules, the metrics extractor, the labelling, the file
partition and the feature engineering.

Modules:
- `Wrappers`: `Option`.
- `Faults`: the label table, shared by both programs.
- `Numeric`: sums, the mean, the sample variance, clamping, Python's
  round-half-to-even and trailing windows.
- `Sorting`: Python's string order and a stable sort.
- `TimeGrid`: the arithmetic time grids.
- `Entities`.
- `TokyoTopology`, `TokyoFaults`, `TokyoMetrics`.
- `OneLink`.
- `Dataset`, `Features`, `Consolidator`.

Where the written description of the system and its code disagree, the
model follows the code:

- **phase_error_rate is always 0.** `extract_metrics` always reports
  `phase_error_rate` as 0.0. The Trojan fault's per-protocol phase error
  is therefore never visible in the metrics; `TokyoFaults.TrojanHorse`
  states this.
- **error_count uses the unclamped QBER.** `error_count` is
  `round(qber * detection_count)` with the qber *before* clamping to
  [0, 1]. `TokyoMetrics.ExtractMetrics` states it that way.
- **Degrade is labelled by time, not by when it acts.** The degrade
  scenario triples the first link's attenuation when the network is built
  (`tokyo_qkd_simulation.py:183-186`). The sample label still switches only
  at the fault start (`:460`), so the degraded samples before it are
  labelled normal. `TokyoMetrics.DegradeLabelledNormalEarly` states this.
- **The file's label replaces the recorded fault id.** The harness records
  a time-based `label` and its `fault_id`, which are 0 before the fault
  starts (`tokyo_qkd_simulation.py:131-132`). `load_and_label` overwrites
  `fault_id` and sets `fault_name` from the file name alone
  (`generate_dataset.py:31-38`). So the pre-fault rows of
  `dataset_qber.csv` keep `label` normal but come out with `fault_id` 1
  and `fault_name` qber. `Dataset.LoadExpectedFile` states that every row
  of an expected file carries that file's scenario and id, whatever its
  record holds.
- **An empty input file crashes the consolidator.** When an expected file
  holds no record, `main` fails at `df['fault_name'].iloc[0]` while
  reporting the file. The run then ends with no output.
  `Consolidator.Consolidate` models this as the `EmptyFile` outcome. The
  description, by contrast, says missing data never crashes the run.

## Model

| member | source | states |
|---|---|---|
| Faults.FaultId | tokyo_qkd_simulation.py:132 | `FAULT_LABELS.get(label, 0)`: a canonical name gets the id at its own position in the table (0..5); any other label gets 0 |
| Faults.FaultIdOfName | tokyo_qkd_simulation.py:54-61 | the six canonical names get the distinct ids 0..5; the i-th name's id is i |
| Faults.FaultLabelsCoverNames | generate_dataset.py:16-23 | the label table's keys are exactly the six scenario names |
| Numeric.LastOr | tokyo_qkd_simulation.py:360-361 | `xs[-1] if xs else default`: the last element of a non-empty history, the default for an empty one |
| Numeric.Clamp | tokyo_qkd_simulation.py:395 | `max(lo, min(hi, x))` lies in [lo, hi]; it is x when x is inside and the nearer bound otherwise |
| Numeric.RoundHalfEven | tokyo_qkd_simulation.py:374 | Python's `round`: within 0.5 of x, and an exact tie goes to the even integer |
| Numeric.Tail | run_dataset_one_link.py:54 | `xs[-w:]` for a positive w: the last min(w, len(xs)) elements, in order |
| Numeric.Mean | generate_dataset.py:51 | the mean of a non-empty window lies between the window's minimum and maximum |
| Numeric.WindowVariance | generate_dataset.py:52 | the rolling `var()` with NaN filled by 0 is never negative and is 0 for a one-value window |
| Numeric.ConstantWindowVariance | generate_dataset.py:52 | a window of equal values has variance 0 |
| Sorting.SortBy | generate_dataset.py:45 | the sort returns a permutation of its input (same multiset, same length) |
| Sorting.SortBySorted | generate_dataset.py:45 | under a total preorder the sort's output is ordered |
| TimeGrid.GridCount | run_dataset_one_link.py:111-115 | the `while t <= end` loop makes floor((end - start) / interval) + 1 steps when start <= end and none otherwise; the last point is <= end and the next one is > end |
| TimeGrid.Grid | run_dataset_one_link.py:111-115 | the k-th scheduled time is start + k * interval, and there are GridCount of them |
| TimeGrid.GridShape | run_dataset_one_link.py:111-115 | every grid time lies in [start, end], the times strictly increase, and the first time not scheduled is past end |
| TimeGrid.GridFromInterval | tokyo_qkd_simulation.py:480-487 | a chain that starts one interval in and stops past the duration has floor(duration / interval) points |
| TokyoTopology.ClassicalDelay | tokyo_qkd_simulation.py:66-73 | the delay is at least the 8000 ps overhead, and the rest is exactly the propagation time distance / 2e8 s in ps |
| TokyoTopology.ClassicalDelayMonotone | tokyo_qkd_simulation.py:66-73 | a longer fibre never has a shorter delay |
| TokyoTopology.LinkAttenuation | tokyo_qkd_simulation.py:183-186 | the attenuation is 3 × ATTENUATION exactly when the scenario is degrade and the sender is Koganei_A, else ATTENUATION |
| TokyoTopology.DegradeOnlyFirstLink | tokyo_qkd_simulation.py:45-50 | over the link table, only link 0 (Koganei_A -> Koganei_B) is ever tripled, and only under degrade |
| TokyoTopology.CPeersSymmetric | tokyo_qkd_simulation.py:206-207 | the classical registries are symmetric: y is a classical peer of x iff x is one of y |
| TokyoTopology.QPeersAreCPeers | tokyo_qkd_simulation.py:206-208 | every quantum peer of a node is also a classical peer |
| TokyoTopology.PeerTables | tokyo_qkd_simulation.py:177-219 | the exact classical and quantum peer-name sets of each of the five nodes after the build, the reroute included |
| TokyoTopology.LinksDistinct | tokyo_qkd_simulation.py:45-50 | no link is a loop, no two links join the same pair of nodes, and no link joins Koganei_A and Otemachi; so no registration overwrites another |
| TokyoTopology.NewNode | tokyo_qkd_simulation.py:159-175 | a fresh node whose light source has mean photon number 0.1 and whose detectors all have efficiency 0.80 and dark count 100; a time resolution is set to 100 only where one exists; the node is online with no overrides and empty registries |
| TokyoTopology.CreateNodes | tokyo_qkd_simulation.py:158-175 | the five nodes, keyed by name, are distinct fresh objects carrying the baselines |
| TokyoTopology.WireLink | tokyo_qkd_simulation.py:178-210 | one link: the tuple (n1, n2, "n1_n2", qc); qc runs n1 -> n2 with the link's distance and the attenuation LinkAttenuation gives; the forward and backward classical channels have the link's delay; `n1.cchannels[n2]`, `n2.cchannels[n1]` and `n1.qchannels[n2]` are set, and every other registry entry is unchanged |
| TokyoTopology.WireNext | tokyo_qkd_simulation.py:177-210 | one iteration of the link loop: the wired prefix of the link table and the registered peer sets each grow by exactly the next link |
| TokyoTopology.WireLinks | tokyo_qkd_simulation.py:177-210 | one tuple per link in table order; every link is wired and registered as WireLink states, and every attenuation is LinkAttenuation's |
| TokyoTopology.AddReroute | tokyo_qkd_simulation.py:212-219 | the extra Koganei_A <-> Otemachi classical pair (20 km) is registered under both peer names, and nothing else changes |
| TokyoTopology.WireNetwork | tokyo_qkd_simulation.py:177-221 | after the link loop and the reroute: every link is still wired in order; each node's quantum registry keys are its link successors; its classical registry keys are its link neighbours plus the reroute peer |
| TokyoTopology.BuildNetwork | tokyo_qkd_simulation.py:152-221 | five fresh nodes keyed by name, wired as WireNetwork states |
| TokyoFaults.InjectFault | tokyo_qkd_simulation.py:228-328 | qber arms the intercept-resend and blinding the blinding on Otemachi, trojan arms the Trojan horse on Koganei_B and node_fail the failure on Hakusan, all at the start time; every other scenario arms nothing (with Fire, each effect lands on that named node) |
| TokyoFaults.OneMechanismPerScenario | tokyo_qkd_simulation.py:453-454 | normal neither perturbs nor degrades; every other canonical scenario acts by exactly one of a run-time perturbation or the degraded first link |
| TokyoFaults.InjectFaultInjective | tokyo_qkd_simulation.py:241-328 | two scenarios that arm a perturbation arm different ones |
| TokyoFaults.InterceptResend | tokyo_qkd_simulation.py:244-252 | appends 0.25 to the error history of protocol-stack slot 0 and of its peer (twice if it is its own peer); both then report 0.25 as their last QBER |
| TokyoFaults.Blinding | tokyo_qkd_simulation.py:274-284 | every detector of the target gets efficiency 1.0 and dark count 5,000,000; both are cached on the node, so the extractor reports them whatever the detectors hold |
| TokyoFaults.TrojanHorse | tokyo_qkd_simulation.py:304-311 | sets the node's back-reflection power to 1e-3 and phase_error_rate to 0.02 on exactly the protocols that have that attribute; the extractor then reports the power, and still 0 for the phase error rate |
| TokyoFaults.NodeFailure | tokyo_qkd_simulation.py:321-326 | the node goes offline and each of its protocols that has stop() is stopped; the others are untouched |
| TokyoFaults.Fire | tokyo_qkd_simulation.py:241-326 | the scheduled callback: the armed perturbation has its method's full effect on the target (the intercept appends, the blinded detectors and caches, the reflection power and 0.02 phase errors, offline with stoppable protocols stopped), and every detector reading, error history, phase error, stopped flag and node field owned by the other three is unchanged |
| TokyoMetrics.DetectionCount | tokyo_qkd_simulation.py:372-373 | the sifted count when positive, else the nominal key length 256; never zero |
| TokyoMetrics.ErrorCount | tokyo_qkd_simulation.py:374 | within 0.5 of qber × detection count; for a qber in [0, 1] it lies in [0, detection count] |
| TokyoMetrics.RoundedProductInRange | tokyo_qkd_simulation.py:374 | rounding q × n for a q in [0, 1] stays within [0, n] |
| TokyoMetrics.Reading | tokyo_qkd_simulation.py:378-389 | the override precedence: the node's cached value, else detectors[0]'s, else the baseline |
| TokyoMetrics.ExtractMetrics | tokyo_qkd_simulation.py:335-404 | qber is the last error rate (0.0 with no history or no protocol) clamped to [0, 1]; the sifted rate is the larger key_bits length; detection and error counts use DetectionCount and ErrorCount on the unclamped qber; dark count and efficiency follow Reading's precedence; reflection power is the cached value or 0.0; phase error rate is 0.0; an out-of-range qber clamps to 0.0 or 1.0; key_rate_final is the last throughput, or 0.0 with none or no protocol |
| TokyoMetrics.SampleLabelSwitch | tokyo_qkd_simulation.py:460 | the label is "normal" strictly before FAULT_START_PS and the scenario name from then on |
| TokyoMetrics.SampleLabelNoRegression | tokyo_qkd_simulation.py:460 | over increasing times, once the label has switched it never changes again |
| TokyoMetrics.DegradeLabelledNormalEarly | tokyo_qkd_simulation.py:183-186 | under degrade the first link is tripled from the build on, yet samples before the fault start are labelled normal and later ones degrade |
| TokyoMetrics.Collector.constructor | tokyo_qkd_simulation.py:109-110 | a new collector holds no rows |
| TokyoMetrics.Collector.Record | tokyo_qkd_simulation.py:112-133 | appends exactly one row and leaves the earlier rows untouched; the row's fault_id is the label's table id (0 for an unknown label) |
| TokyoMetrics.SampleRow | tokyo_qkd_simulation.py:490-499 | the row a sample records for a link: time, link name, sender name, the extracted metrics, the time's label and its id |
| TokyoMetrics.MetricsSampler.constructor | tokyo_qkd_simulation.py:470-478 | the sampler keeps its interval, duration, links, protocol map, collector and scenario |
| TokyoMetrics.MetricsSampler.ScheduleNext | tokyo_qkd_simulation.py:483-487 | an event at t is armed exactly when t <= duration (a closed bound) |
| TokyoMetrics.MetricsSampler.ChainIsGrid | tokyo_qkd_simulation.py:480-500 | the self-rearming chain from t fires exactly on the time grid from t to the duration |
| TokyoMetrics.MetricsSampler.SampleTimes | tokyo_qkd_simulation.py:480-500 | the samples fire at interval, 2·interval, … and never past the duration; there are floor(duration / interval) of them, in increasing order |
| TokyoMetrics.MetricsSampler.Sample | tokyo_qkd_simulation.py:489-500 | appends one SampleRow per link, in link order, after the untouched earlier rows; then re-arms at t + interval if that is within the duration |
| OneLink.ScenarioState.constructor | run_dataset_one_link.py:34-36 | a fresh state has label "normal" and starvation 0 |
| OneLink.ScenarioState.SetLabel | run_dataset_one_link.py:38-39 | replaces the label and leaves starvation unchanged |
| OneLink.ConsumeStep | run_dataset_one_link.py:91-97 | with fewer than 2 keys the buffer stays and starvation grows by exactly 1; otherwise the first 2 keys are removed (old[2:]) and starvation stays |
| OneLink.ConsumeRepeatedServes | run_dataset_one_link.py:87-97 | n consumptions with no arrivals serve min(n, len(keys) // 2) of them oldest-first, and each other one counts one starvation event |
| OneLink.Traffic.RequestKeys | run_dataset_one_link.py:80-85 | one request for five 128-bit frames over 100 ms, pushed to the reconciliation layer when attached (bb84 untouched), else to bb84 |
| OneLink.Traffic.Consume | run_dataset_one_link.py:87-97 | without a reconciliation layer nothing changes; otherwise the buffer and starvation count become ConsumeStep of the old ones; it never fails on a short buffer |
| OneLink.QberProxy | run_dataset_one_link.py:52-54 | None exactly when there is no protocol or its history is empty; otherwise a value between the extremes of the last ≤ 50 error rates |
| OneLink.QberProxySteady | run_dataset_one_link.py:54 | a steady error rate c is reported as exactly c |
| OneLink.TelemetryProbe.constructor | run_dataset_one_link.py:43-48 | a new probe holds no rows |
| OneLink.TelemetryProbe.Sample | run_dataset_one_link.py:50-70 | appends one row after the untouched earlier ones; its label and starvation count are the shared state's at that moment; keys_buffer is `len(valid_keys)` or 0 without a layer; qber_proxy is QberProxy's; the layer statistics are copied or None |
| OneLink.Every | run_dataset_one_link.py:111-115 | one event of the action per given time, in the same order |
| OneLink.Agenda.ScheduleAt | run_dataset_one_link.py:106-109 | schedules exactly one event at the given time |
| OneLink.Agenda.ScheduleEvery | run_dataset_one_link.py:111-115 | schedules the action at exactly the grid times from start to end, in increasing order; nothing when start > end |
| OneLink.Run | run_dataset_one_link.py:101-109 | what the timeline runs for an event: the action's own method (sample, request_keys, consume or one of the three faults) with that method's effect, and the rows, requests, key buffer, starvation count, label, attenuation, detectors and phase error owned by the other actions unchanged |
| OneLink.ScheduleScenario | run_dataset_one_link.py:163-191 | the agenda gains the sample, request and consume grids from 0 to the stop time, then the three faults at 800, 1200 and 1500 ms |
| OneLink.ScenarioCounts | run_dataset_one_link.py:19-29 | the run has 101 samples, 21 requests and 26 consumptions, and the faults fire in order inside the run |
| OneLink.SetDetector | run_dataset_one_link.py:155 | the detector gets the given efficiency and dark count |
| OneLink.TuneDetectors | run_dataset_one_link.py:154-156 | detectors 0 and 1 at both ends get efficiency 0.15 and dark count 1000 |
| OneLink.FaultAttenuationJump | run_dataset_one_link.py:170-172 | the label becomes attenuation_jump and the A -> B attenuation is multiplied by 3 |
| OneLink.FaultDarkcountSpike | run_dataset_one_link.py:176-179 | the label becomes darkcount_spike and detectors 0 and 1 of site A get dark count 50,000 (efficiency 0.15) |
| OneLink.FaultPhaseNoise | run_dataset_one_link.py:186-188 | the label becomes phase_noise and site A's light-source phase error is 0.08 |
| Dataset.ExpectedFileInjective | generate_dataset.py:26 | different scenarios expect different files, so there are exactly six expected files, one per table key |
| Dataset.Name | generate_dataset.py:75 | `Path(c).name` contains no separator |
| Dataset.NameIsSuffix | generate_dataset.py:75 | the name is the path's suffix after its last '/' |
| Dataset.NameOfJoin | generate_dataset.py:73 | the name of dir/file is file |
| Dataset.LastDot | generate_dataset.py:31 | the position of the last '.', or -1 when there is none |
| Dataset.StemOfExpected | generate_dataset.py:31 | the stem of `dataset_<name>.csv` is `dataset_<name>` |
| Dataset.MatchStemExact | generate_dataset.py:32-36 | the scan over the table finds a scenario exactly when the stem equals some `dataset_<name>`, and it returns a name the stem equals |
| Dataset.StemLabelExact | generate_dataset.py:32-39 | a stem equal to `dataset_<name>` gets that name; any other stem gets normal/0; the id always matches the name |
| Dataset.FileLabelCanonical | generate_dataset.py:29-40 | whatever the path, the label is a canonical scenario with its own id |
| Dataset.LoadAndLabel | generate_dataset.py:29-40 | the file's records, in order and unchanged in number, each labelled with the file's label |
| Dataset.LoadExpectedFile | generate_dataset.py:29-40 | every row of `dir/dataset_<name>.csv` carries name and its id, replacing whatever label and id the harness recorded |
| Dataset.QbertIsNormal | generate_dataset.py:33 | an exact match, not a prefix match: `dataset_qbert.csv` is labelled normal/0, and it is not an expected file |
| Dataset.HarnessDefaultOutputSkipped | tokyo_qkd_simulation.py:524-525 | the harness's default output name `dataset_tokyo_qkd_<fault>.csv` is never expected, so the consolidator skips it |
| Dataset.ValidFiles | generate_dataset.py:74-75 | the globbed paths whose name is expected, and no others |
| Dataset.SkippedNames | generate_dataset.py:76 | every skipped name is an unexpected name of some globbed file, and every globbed unexpected file's name is skipped |
| Dataset.PartitionCounts | generate_dataset.py:73-76 | valid and skipped together count every globbed file once, and no valid file is skipped |
| Dataset.Missing | generate_dataset.py:102 | an expected file is missing exactly when no valid path has its name |
| Dataset.MissingEmptyIff | generate_dataset.py:102-103 | nothing is missing iff every expected file was globbed |
| Dataset.Frames | generate_dataset.py:86-90 | one labelled frame per file, in order, each as long as its file |
| Dataset.FramesAt | generate_dataset.py:88 | row j of frame k is record j of file k under file k's label |
| Dataset.LoadOrder | generate_dataset.py:87 | `sorted(valid_csvs)` is a permutation of the valid files, in string order |
| Dataset.TotalRecordsPermutation | generate_dataset.py:87 | reordering the files does not change the total record count |
| Dataset.LoadAll | generate_dataset.py:92 | the concatenation has exactly the sum of the per-file record counts |
| Dataset.LoadAllRows | generate_dataset.py:92 | in the concatenation, file k's rows come in order right after the rows of the files before it |
| Dataset.Combine | generate_dataset.py:86-92 | the combined frame has exactly as many rows as the valid files hold records |
| Dataset.CombineRows | generate_dataset.py:86-92 | each file contributes its records, in order, under its own label, at its place in path order |
| Features.RowLeOrders | generate_dataset.py:45 | sorting by (fault_name, link, timestamp_ps) is a total preorder |
| Features.SortRows | generate_dataset.py:45 | the sorted frame is a permutation of the rows, ordered by (fault_name, link, timestamp_ps) |
| Features.EngineerFeatures | generate_dataset.py:43-68 | the output keeps exactly the multiset of input rows, sorted, one feature row per input row, and row i carries FeaturesAt of the sorted frame (so FirstOfGroup, WithinGroup, WindowFeatures and FeatureRanges describe the output) |
| Features.LastDelta | generate_dataset.py:50 | `diff().fillna(0)`: 0 for a group's first value, else the step from the previous value |
| Features.ClippedChange | generate_dataset.py:55-57 | `pct_change().fillna(0).clip(-1, 1)` lies in [-1, 1]; it is 0 for no change, has the sign of the change, and is the exact relative change when that is within the clip |
| Features.LastChange | generate_dataset.py:55-57 | the key-rate change lies in [-1, 1] and is 0 on a group's first row |
| Features.Flag | generate_dataset.py:63 | `astype(int)` of a comparison is 1 iff it holds, else 0 |
| Features.History | generate_dataset.py:47 | a row's group history ends at the row and holds only rows of its (fault_name, link) group |
| Features.QberWindow | generate_dataset.py:51-52 | the rolling window holds 1 to 5 QBERs and ends with the row's own |
| Features.HistoryContiguous | generate_dataset.py:47 | in the sorted frame, a row's group history is exactly the contiguous run from its group's start to the row |
| Features.FirstOfGroup | generate_dataset.py:50-60 | on a group's first row, qber_delta, dark_count_delta and key_rate_drop are 0, qber_ma5 is the row's own QBER and qber_var5 is 0 |
| Features.WithinGroup | generate_dataset.py:50-60 | on a later row of a group, the deltas and the key-rate change are taken from the row just before it |
| Features.WindowInGroup | generate_dataset.py:51-52 | the rolling window is the last ≤ 5 QBERs of the row's own group in the sorted frame, so it never crosses a group boundary |
| Features.WindowFeatures | generate_dataset.py:51-52 | qber_ma5 and qber_var5 are the mean and sample variance of that in-group window |
| Features.FeatureRanges | generate_dataset.py:51-66 | key_rate_drop lies in [-1, 1]; qber_ma5 lies between its window's extremes; qber_var5 >= 0; each alert is 1 iff its threshold (1e-6 W, 0.05) is exceeded, else 0 |
| Consolidator.FirstEmptyExact | generate_dataset.py:86-89 | a file with no record is found exactly when one exists in load order, and the one found is the first record-less file in load order |
| Consolidator.LoadFrames | generate_dataset.py:86-90 | the loading loop: it stops at the first file with no record; otherwise it yields every file's labelled frame, in order |
| Consolidator.Consolidate | generate_dataset.py:71-107 | skipped names are reported in every outcome; no valid file means an early return; a record-less valid file ends the run at that file; otherwise the output is the engineered features of the combined rows (as many as the valid files' records) and missing is the expected files not globbed |
| Consolidator.FlattenCanonical | generate_dataset.py:92 | concatenating canonically labelled frames yields canonically labelled rows |
| Consolidator.WrittenRowsCanonical | generate_dataset.py:92-95 | every written row carries a canonical scenario name and that scenario's id, whatever the file names |
| Consolidator.ExpectedFileLoaded | generate_dataset.py:74-75 | a globbed expected file is always loaded and never reported missing |

## Left out

- The simulation engine: the timeline, its event queue and tie-breaking, BB84 and cascade key generation, and `pair_*_protocols`. Scheduling is modelled as "an action fires at time t" (`TokyoFaults.ScheduledFault`, `OneLink.Agenda`, `MetricsSampler.Chain`), and the histories the engine fills (`error_rates`, `throughputs`, `key_bits`, `valid_keys`) are plain sequences.
- The monkey-patching in `schedule_event` (tokyo_qkd_simulation.py:76-81) and `FnRunner`. Both exist only to hand a callback to the engine; the model uses the `Perturbation` and `Action` values instead, which `TokyoFaults.Fire` and `OneLink.Run` dispatch to their methods.
- The protocol set-up of `run_simulation` (tokyo_qkd_simulation.py:425-450 and 507-516). This covers BB84 construction, the slot-0 assignment, pairing and `push`. The sampler's protocol map is a constructor parameter.
- The single-link driver's topology loading and pairing (run_dataset_one_link.py:119-149), the dummy pairs, and the choice of `protocol_stack[1]` as the reconciliation layer. The protocol and layer are parameters of `Traffic` and `TelemetryProbe`.
- I/O:
  - CSV writing (`QKDMetricsCollector.save`, the driver's `DictWriter`, `to_csv`) and CSV reading (`pd.read_csv` is the `read` parameter, from path to records);
  - `glob` (the globbed paths are a parameter);
  - argparse, every `print`, `value_counts`, and wall-clock `time.time()`.
- `pd.read_csv` on a file with no header at all raises an error that is not modelled. A file with a header but no rows is modelled (the `EmptyFile` outcome).
- A record carries only the columns the consolidator reads: timestamp, link, qber, key_rate_sifted, dark_count_rate and back_reflection_power. The columns the consolidator does not touch, the harness's time-based `label` among them, pass through and are not modelled. The recorded `fault_id` is not passed through: `load_and_label` overwrites it, and `Row.faultId` is the file's id.
- Every file is assumed to hold those six columns. A file lacking one is not modelled: `engineer_features` raises KeyError on it, or reads NaN when another file supplies the column through `concat`. An example is the single-link driver's output, whose columns are `t_ps`, `label`, `keys_buffer`, `qber_proxy` and the cascade and starvation counters.
- Floating point: reals are exact, and NaN and infinity are not represented. The zero-denominator case of `pct_change` is written out explicitly: 0/0 is 0 and ±inf clips to ±1.
- TokyoMetrics.Collector.Record: stores the metrics without the `round(x, k)` of the recorded columns, because decimal rounding of binary floats has no exact real counterpart; row count, order, label and id are stated exactly.
- TokyoTopology.ClassicalDelay: uses the exact integer form distance × 5000 + 8000 in place of `int((d / 2e8) * 1e12)`, and does not model the float truncation. In binary floating point, 13000 / 2e8 × 1e12 falls just below 65,000,000, so the source's delay for the 13 km Koganei_B–Otemachi link is 64,999,999 + 8000 ps. The model's is 65,000,000 + 8000 ps. The other distances of the table come out exact.
- TokyoTopology.BuildNetwork: does not restate that the nodes still carry the baselines after wiring; CreateNodes states it, and the wiring only changes the channel registries.
- TokyoMetrics.ExtractMetrics: the sifted key rate is a natural number rather than a float. The unused `link_name` and `qc` arguments are dropped.
- Dataset.Name: models `Path(c).name` for '/'-separated paths. Trailing separators, `.` and `..` components, and Windows separators are not normalised.
- The sort in `engineer_features` and `sorted(valid_csvs)` are modelled as stable sorts. pandas' multi-column `sort_values` does not promise an order among rows with equal (fault_name, link, timestamp_ps).
- `set_detector` is modelled as the assignment of the two detector fields it sets.
