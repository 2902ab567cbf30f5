# MineGuard core in Dafny

MineGuard generates a synthetic rockfall-monitoring dataset and turns it into
training rows for a risk classifier. This project models its deterministic core in
three parts.

- **Zone registry** (`Zones`). Five open-pit zones, each with a slope angle, a bench
  height, a rock class, and plan coordinates. A closed severity table gives 0.5 for
  hard rock, 1.0 for medium and 1.5 for fractured.
- **Sensor simulator** (`Simulation`). It runs once per minute:
  - A rain flag and a blasting flag decide that minute's site-wide rainfall and blast
    boost. Each flag then flips on its own draw.
  - Each zone in registry order adds its own base vibration draw to the boost.
  - Each zone updates its displacement memory with the leaky integrator
    `0.9 * previous + drive`, then appends one sensor record.

  The `Simulator` class holds the flags, the memory map and the growing log. Its
  methods run one minute (`Step`) and the zone loop (`StepZones`). `GenerateLog` runs
  the minute loop on a `Simulator` and is proved against `Run`. `Step` is proved
  against `Tick`, `StepZones` against `ZonesUpdate`, `UpdateZone` against `ZoneUpdate`,
  and `StepEnvironment` against the two state machines.
- **Window feature extractor** (`Extraction`, `Live`). End-times run hourly, from the
  earliest timestamp plus three hours to the latest. For each end-time `t` and each
  zone, the extractor works on the zone's records stamped in `(t - 180, t]`:
  - A zone with fewer than ten records there is skipped.
  - Otherwise it gets a row with the mean and maximum vibration, the total rainfall,
    and the last displacement minus the first.
  - The training builder adds a strict three-threshold risk label.
  - The live map loop selects the same window in two steps (history up to `t`, then
    its last three hours). It then builds the seven-column classifier input.

  The model proves that the live entries and classifier inputs are exactly the
  training rows' values.

The random draws are an input to the model: one `TickDraws` value per minute. All
readings use `real`, and timestamps are integer minute offsets from the start of the
run. Draw ranges are only required by the lemmas that state bounds.

Two points about the code itself:

- The code never checks that a slope is positive. The simulator accepts any slope, and
  only the bounds lemmas (`Simulation.LogBounds` and its helper
  `Simulation.ZonesUpdateBounds`) assume positive slopes; `Simulation.Drive` states
  positivity for a positive slope only.
- The live script reads the whole log and cuts it at the current end-time
  (`Live.History`). `Live.LiveSeesObservedLog` proves that for a simulated run, a
  refresh at `t` over the log observed after any `k > t` minutes is the same.

The simulator, the training builder and the live loop all iterate the same five-zone
list. The loops take the zone list as a parameter; `Extraction.BuildDataset` runs the
simulator and the training builder on `Zones.Registry()`, and `Live.SiteLiveFrames`
states the live map's refreshes over the same registry.

## Model

| member | source | states |
|---|---|---|
| Zones.RockFactor | MineGuard/Dataset.py:17-21 | The severity multiplier is always within [0.5, 1.5]. It is 0.5 exactly for hard rock, 1.0 exactly for medium rock and 1.5 exactly for fractured rock. |
| Zones.Registry | MineGuard/Dataset.py:9-15 | The registry has five zones with pairwise distinct ids and positive slopes. |
| Zones.SlopeFactor | MineGuard/Dataset.py:63 | Defines the slope factor as the slope angle divided by 45; no contract of its own. `Simulation.Drive` states the drive it scales is positive for a positive slope. |
| Seqs.Filter | MineGuard/Dataset.py:109-112 | A mask selection keeps exactly the elements that satisfy the mask, and never more elements than the input has. |
| Seqs.FilterTwice | MineGuard/predict_and_plot_zones.py:58-62 | Selecting by one mask and then another equals one selection by their conjunction, order included. |
| Seqs.FilterPreservesPairs | MineGuard/Dataset.py:109-115 | A selection keeps the relative order of the rows it keeps. |
| Seqs.FilterIgnoresTail | MineGuard/predict_and_plot_zones.py:58 | Trailing rows that all fail the mask do not change the selection. |
| Seqs.Sum | MineGuard/Dataset.py:121 | Defines a column total as the left-to-right sum, 0 for an empty column; no contract of its own. Its bounds are `Seqs.SumAtMost` and `Seqs.SumAtLeast`. |
| Seqs.SumAtMost | MineGuard/Dataset.py:121 | A column whose values are all at most `hi` totals at most `n * hi` over its `n` values. |
| Seqs.SumAtLeast | MineGuard/Dataset.py:121 | A column whose values are all at least `lo` totals at least `n * lo` over its `n` values. |
| Seqs.Mean | MineGuard/Dataset.py:119 | Defines the mean of a non-empty column as its total divided by its length; no contract of its own. Its bounds are `Seqs.MeanWithin` and `Seqs.MeanAtMostMax`. |
| Seqs.Max | MineGuard/Dataset.py:120 | The maximum is one of the values and bounds all of them. |
| Seqs.MeanAtMost | MineGuard/Dataset.py:119 | The mean of a non-empty column never exceeds an upper bound of its values. |
| Seqs.MeanAtMostMax | MineGuard/Dataset.py:119-120 | The mean of a non-empty column never exceeds its maximum. |
| Seqs.MeanWithin | MineGuard/Dataset.py:119 | A mean lies between any lower and upper bound of the values. |
| Simulation.Rainfall | MineGuard/Dataset.py:40-46 | Defines the rain machine's output: the drawn intensity while the flag is set, otherwise 0; no contract of its own. `Simulation.LogRecord` states it for every record. |
| Simulation.NextRaining | MineGuard/Dataset.py:40-47 | Defines the rain machine's transition: a set flag clears on a draw below 0.08, a clear flag sets on a draw below 0.03; no contract of its own. `Simulation.RunFlags` states it between minutes. |
| Simulation.BlastBoost | MineGuard/Dataset.py:50-55 | Defines the blast machine's output: the drawn boost while the flag is set, otherwise 0; no contract of its own. `Simulation.LogRecord` states it for every record. |
| Simulation.NextBlasting | MineGuard/Dataset.py:50-57 | Defines the blast machine's transition: a set flag clears on a draw below 0.1, a clear flag sets on a draw below 0.04; no contract of its own. `Simulation.RunFlags` states it between minutes. |
| Simulation.Drive | MineGuard/Dataset.py:63-70 | The displacement drive `(0.01 + 0.02 rain + 0.5 vib) * factor * slope/45` is strictly positive for a positive slope and non-negative readings. |
| Simulation.ZoneRecord | MineGuard/Dataset.py:63-81 | Defines one zone's record of a minute: vibration is base plus boost, displacement is 0.9 times the memory plus the drive; no contract of its own. `Simulation.LogRecord` states it for every record of a run, and `Simulation.Simulator.UpdateZone` is proved against it. |
| Simulation.ZoneUpdate | MineGuard/Dataset.py:72-81 | Defines one zone's step: its record is appended to the log and its memory takes the record's displacement; no contract of its own. `Simulation.Simulator.UpdateZone` is proved against it and `Simulation.ZonesUpdateExplained` states the memory it leaves. |
| Simulation.ZonesUpdate | MineGuard/Dataset.py:59-81 | One minute's zone loop, zone by zone in order. It keeps every memory key and both flags, and it only appends to the log, exactly one record per zone. |
| Simulation.Batch | MineGuard/Dataset.py:59-81 | The records one minute's zone loop emits, one per zone, each computed from the zone's memory before the loop. `Simulation.ZonesUpdateLog` proves the loop appends exactly these. |
| Simulation.Tick | MineGuard/Dataset.py:36-81 | One minute: the flags select rainfall and boost, then flip, then the zone loop runs. It keeps every memory key and appends exactly one record per zone to the log. |
| Simulation.Run | MineGuard/Dataset.py:30-81 | The state after the first `minutes` minutes from `Initial`. The memory has an entry for every zone and the log holds `minutes` times the number of zones records. |
| Simulation.Initial | MineGuard/Dataset.py:30-34 | The initial state has both flags off, every zone's memory at 0.01 and an empty log. |
| Simulation.Simulator.constructor | MineGuard/Dataset.py:30-34 | A new simulator holds exactly `Initial(zones)` and has a memory entry for every zone. |
| Simulation.Simulator.StepEnvironment | MineGuard/Dataset.py:39-57 | It returns the rainfall and boost that the flags select before flipping (the intensity if set, otherwise 0). The new flags follow the rain machine (off below 0.08, on below 0.03) and the blast machine (off below 0.1, on below 0.04). |
| Simulation.Simulator.UpdateZone | MineGuard/Dataset.py:60-81 | One zone's update: vibration is base plus boost, displacement is 0.9 times memory plus drive, the memory holds that displacement, and one record is appended. Nothing else changes. |
| Simulation.Simulator.StepZones | MineGuard/Dataset.py:59-81 | The zone loop leaves the state equal to `ZonesUpdate` of the old state over all zones in order. The memory keeps an entry for every zone. |
| Simulation.Simulator.Step | MineGuard/Dataset.py:36-81 | One minute leaves the state equal to `Tick` of the old state: flags first, then the zone loop with the pre-flip rainfall and boost. |
| Simulation.GenerateLog | MineGuard/Dataset.py:30-81 | The generated log is `Run(zones, draws, minutes).log` and has exactly `minutes` times the number of zones records. |
| Simulation.OffsetIsProduct | MineGuard/Dataset.py:36-81 | Minute `m` over `n` zones starts at position `m * n` of the log. |
| Simulation.ZonesUpdateMemory | MineGuard/Dataset.py:72-73 | The zone loop leaves the memory of any id no zone carries unchanged. |
| Simulation.ZonesUpdateExplained | MineGuard/Dataset.py:72-73 | After the zone loop over distinct ids, each zone's memory holds the displacement of its own record. |
| Simulation.ZonesUpdateLog | MineGuard/Dataset.py:59-81 | Over distinct ids, the zone loop appends exactly the batch computed from the memory as it was before the loop. |
| Simulation.RunPrefixAt | MineGuard/Dataset.py:75-81 | The log of a shorter run is a prefix of a longer one's: records are only ever appended. |
| Simulation.MinuteBatch | MineGuard/Dataset.py:36-81 | Minute `m`'s records, one per zone: the batch over the memory after `m` minutes, with the rainfall and boost the flags at the minute's start select. `Simulation.MinuteInLog` places them in the log. |
| Simulation.MinuteInLog | MineGuard/Dataset.py:36-81 | Position `m * n + j` of the log over `n` zones holds the record that zone `zones[j]` emits in minute `m`. |
| Simulation.LogRecord | MineGuard/Dataset.py:39-81 | Over `n` zones, record `m * n + j` carries minute `m` and zone `zones[j]`'s id. Its rainfall is the intensity or 0, depending on the rain flag at the start of the minute, and is the same for every zone. Its vibration is the zone's base draw plus the shared boost. Its displacement is 0.9 times the zone's memory plus the drive, and the memory then holds that value. |
| Simulation.RunFlags | MineGuard/Dataset.py:40-57 | Between minutes the rain flag turns off only on a draw below 0.08 and on only below 0.03. The blast flag turns off only below 0.1 and on only below 0.04. |
| Simulation.ZonesUpdateBounds | MineGuard/Dataset.py:59-81 | With positive slopes, rainfall in [0, 5], a boost in [0, 0.6] and base draws in [0.1, 0.3], one minute's zone loop keeps every memory strictly positive and emits records with vibration in [0.1, 0.9], rainfall in [0, 5] and positive displacement. |
| Simulation.LogBounds | MineGuard/Dataset.py:31-73 | For draws in the generator's ranges and positive slopes, every record has vibration in [0.1, 0.9], rainfall in [0, 5] and a strictly positive displacement. Every memory stays strictly positive. |
| Simulation.AppendMinute | MineGuard/Dataset.py:75-81 | Appending a minute's records (one per zone, all stamped with that minute) to an earlier ordered log keeps it ordered. |
| Simulation.LogShape | MineGuard/Dataset.py:36-81 | Every timestamp is a minute in [0, minutes). The log is ordered by time, and within each zone strictly so. |
| Extraction.Window | MineGuard/Dataset.py:108-112 | Defines the window at `t` as the mask `t - 180 < ts <= t` over the log, in log order; no contract of its own. `Extraction.Slice` states its membership. |
| Extraction.ZoneSlice | MineGuard/Dataset.py:115 | Defines a zone's part of a window as the mask `zone_id == id`, in window order; no contract of its own. `Extraction.Slice` states its membership over the batch window, and `Live.TwoStepWindow` shows the live script's slice at predict_and_plot_zones.py:67 is the same. |
| Extraction.Slice | MineGuard/Dataset.py:108-115 | A zone's window at `t` holds exactly the log's records of that zone with `t - 180 < ts <= t`. |
| Extraction.SliceChronological | MineGuard/Dataset.py:108-123 | In a per-zone ordered log, each window slice is in time order, so its first and last rows are its earliest and latest samples. |
| Extraction.WindowCapacity | MineGuard/Dataset.py:108-115 | With at most one sample per zone per minute, a zone's window holds at most 180 records. |
| Extraction.SimulatedWindow | MineGuard/Dataset.py:108-115 | Every window slice of a simulated log is in time order and holds at most 180 records. |
| Extraction.WindowStats | MineGuard/Dataset.py:119-123 | The maximum vibration is a sample and bounds all samples. The mean is at most the maximum. The trend is the last row's displacement minus the first's. |
| Extraction.StatsBounds | MineGuard/Dataset.py:119-121 | Over a log whose records keep the simulator's bounds, a non-empty window has mean and maximum vibration in [0.1, 0.9] and total rainfall between 0 and 5 per sample. |
| Extraction.SliceStatsBounds | MineGuard/Dataset.py:119-121 | Samples with vibration in [0.1, 0.9] and rainfall in [0, 5] give a mean and maximum vibration in [0.1, 0.9] and a rainfall total between 0 and 5 per sample. |
| Extraction.Risk | MineGuard/Dataset.py:128-132 | The label is 0 or 1. It is 1 exactly when max vibration > 0.75, total rain > 6 and trend > 0.1, so a value on any threshold gives 0. |
| Extraction.RiskMonotone | MineGuard/Dataset.py:128-132 | Raising any of the three aggregates never lowers the label. |
| Extraction.MakeRow | MineGuard/Dataset.py:119-147 | A row carries the end-time, the zone's id, slope, bench, rock and position unchanged, the window's aggregates, and their risk label. |
| Extraction.ZoneRow | MineGuard/Dataset.py:114-147 | Defines one zone's outcome at `t`: no row below ten samples, otherwise `MakeRow` over its window; no contract of its own. `Extraction.RowsAtQualified` and `Extraction.RowsAtMembership` state its effect on the table. |
| Extraction.RowsAt | MineGuard/Dataset.py:114-147 | A window never yields more rows than there are zones, and every row is stamped with the end-time. |
| Extraction.Qualified | MineGuard/Dataset.py:114-117 | The qualifying zones are exactly those with at least ten window samples. |
| Extraction.RowsAtQualified | MineGuard/Dataset.py:114-147 | A window's rows come one per qualifying zone, in registry order, each built from that zone's window. |
| Extraction.RowsAtSound | MineGuard/Dataset.py:114-147 | Every row of a window is the row of one of the zones with at least ten samples. |
| Extraction.RowsAtComplete | MineGuard/Dataset.py:114-147 | Every zone with at least ten window samples has its row in the window's rows. |
| Extraction.RowsAtMembership | MineGuard/Dataset.py:114-147 | A row belongs to a window exactly when it is the row of a zone with at least ten samples there. |
| Extraction.MinTs | MineGuard/Dataset.py:102 | The earliest timestamp is a timestamp of the log and bounds all of them from below. |
| Extraction.MaxTs | MineGuard/Dataset.py:103 | The latest timestamp is a timestamp of the log and bounds all of them from above. |
| Extraction.Steps | MineGuard/Dataset.py:105-149 | The end-times are `lo + 60 i`. The sequence is empty exactly when `lo > hi`, and otherwise its last element does not pass `hi` and is within 60 of it. |
| Extraction.EndTimes | MineGuard/Dataset.py:102-107 | Defines the end-times as `Steps` from the earliest timestamp plus 180 to the latest, none for an empty log; no contract of its own. `Extraction.EndTimesOfSpan` and `Extraction.SimulatedEndTimes` state them. |
| Extraction.EndTimesOfSpan | MineGuard/Dataset.py:102-107 | A log whose timestamps span [lo, hi] has end-times from `lo + 180` to `hi` in steps of 60. |
| Extraction.MinuteStamped | MineGuard/Dataset.py:36-81 | The first record of minute `m` in a simulated log is stamped `m`. |
| Extraction.SimulatedEndTimes | MineGuard/Dataset.py:102-107 | A simulated run has its end-times at minutes 180, 240, ... up to its last minute. |
| Extraction.RowsFor | MineGuard/Dataset.py:105-149 | Defines the table built over a sequence of end-times as the windows' rows appended end-time by end-time; no contract of its own. `Extraction.RowsForMembership` states its membership. |
| Extraction.BatchRows | MineGuard/Dataset.py:100-149 | Defines the training table as the rows of every end-time's window, end-time by end-time; no contract of its own. `Extraction.RowsForMembership` states its membership and `Extraction.ExtractBatch` is proved against it. |
| Extraction.RowsForMembership | MineGuard/Dataset.py:105-149 | A row is in the table exactly when its end-time is one of the end-times and it is one of that window's rows. |
| Extraction.WindowRows | MineGuard/Dataset.py:108-147 | The per-zone loop for one end-time returns exactly `RowsAt(log, t, zones)`. |
| Extraction.ExtractBatch | MineGuard/Dataset.py:100-149 | The hourly loop returns exactly the training table: the windows' rows, end-time by end-time. |
| Extraction.RowBounds | MineGuard/Dataset.py:114-147 | Over a log that keeps the simulator's bounds and per-zone order, every training row has vibration aggregates in [0.1, 0.9] and total rainfall in [0, 900]. |
| Extraction.BuildDataset | MineGuard/Dataset.py:9-149 | Simulating the site's five zones and extracting their windows gives the log `Run(Registry(), draws, minutes).log` with 5 records per minute and the table `BatchRows` over that log. The end-times are minutes 180, 240, ... and every row's mean and maximum vibration lie in [0.1, 0.9] and its rainfall total in [0, 900]. |
| Live.History | MineGuard/predict_and_plot_zones.py:58 | Defines the history at `t` as the mask `ts <= t` over the log; no contract of its own. `Live.TwoStepWindow` and `Live.FeaturesFromHistory` state its role. |
| Live.Recent | MineGuard/predict_and_plot_zones.py:61-62 | Defines the last three hours of a history as the mask `ts > t - 180`; no contract of its own. `Live.TwoStepWindow` states what the two masks select together. |
| Live.TwoStepWindow | MineGuard/predict_and_plot_zones.py:57-62 | Cutting the history at `t` and then keeping its last three hours selects the same records, in the same order, as the training builder's single mask. |
| Live.FeaturesAt | MineGuard/predict_and_plot_zones.py:64-87 | A refresh never has more entries than there are zones. |
| Live.FeaturesFromHistory | MineGuard/predict_and_plot_zones.py:57-58 | A refresh at `t` depends on the log only through its records up to `t`. |
| Live.LaterMinutes | MineGuard/Dataset.py:36-81 | In a simulated log, every record after the first `k` minutes is stamped `k` or later. |
| Live.LiveSeesObservedLog | MineGuard/predict_and_plot_zones.py:57-87 | For a simulated run, a refresh at `t` over the log observed after any `k > t` minutes equals the refresh over the complete log. |
| Live.Feature | MineGuard/predict_and_plot_zones.py:76-87 | Defines a live entry: the zone's id, slope, bench, rock and position with its window's four aggregates; no contract of its own. `Live.LiveEntries` and `Live.ZoneFeatureMatchesBatch` state it. |
| Live.AsLive | MineGuard/predict_and_plot_zones.py:76-87 | Defines a training row without its end-time and label, as a live entry; no contract of its own. `Live.ZoneFeatureMatchesBatch` shows a live entry is this projection of its training row. |
| Live.Project | MineGuard/predict_and_plot_zones.py:64-87 | Defines the projection of a sequence of training rows, element by element; no contract of its own. `Live.LiveMatchesBatch` shows the live entries are this projection. |
| Live.ZoneFeature | MineGuard/predict_and_plot_zones.py:66-87 | Defines one zone's live entry: none below ten samples in the two-step window, otherwise the zone's attributes with the window's aggregates; no contract of its own. `Live.ZoneFeatureMatchesBatch` relates it to the training row. |
| Live.ZoneFeatureMatchesBatch | MineGuard/predict_and_plot_zones.py:66-87 | A zone's live entry exists exactly when its training row does, and equals that row without end-time and label. |
| Live.LiveMatchesBatch | MineGuard/predict_and_plot_zones.py:64-87 | The live entries at `t` are the training rows at `t` without end-time and label, in the same order. |
| Live.LiveEntries | MineGuard/predict_and_plot_zones.py:66-87 | The live entries come one per zone with at least ten samples, in registry order. Each copies the zone's id, slope, bench, rock and position and carries its window's aggregates. |
| Live.Columns | MineGuard/predict_and_plot_zones.py:92-102 | Defines one classifier input row: the seven columns vib_mean, vib_max, rain_sum, disp_trend, slope, bench and rock of an entry, in that order; no contract of its own. `Live.InputsMatchTraining` states them. |
| Live.TrainingColumns | MineGuard/Dataset.py:134-147 | Defines the same seven feature columns of a training row; no contract of its own. `Live.InputsMatchTraining` shows the classifier input equals them row by row. |
| Live.Inputs | MineGuard/predict_and_plot_zones.py:92-102 | Defines the classifier input as each entry's seven columns, in entry order; no contract of its own. `Live.InputsMatchTraining` states its columns. |
| Live.InputsMatchTraining | MineGuard/predict_and_plot_zones.py:92-102 | The classifier input has one row per training row at `t`. Each has exactly the seven columns vib_mean, vib_max, rain_sum, disp_trend, slope, bench and rock, in that order. |
| Live.LiveFeaturesAt | MineGuard/predict_and_plot_zones.py:57-87 | One refresh returns exactly `FeaturesAt(log, t, zones)`, via the two-step window. |
| Live.SiteLiveFrames | MineGuard/predict_and_plot_zones.py:47-87 | Over a simulated run of the five-zone registry, the live map refreshes once an hour from minute 180 (at `180 + 60 i`), and each refresh holds that end-time's training rows without end-time and label. |
| Live.FrameAt | MineGuard/predict_and_plot_zones.py:57-104 | Defines one refresh at `t`: its entries and the classifier input built from them; no contract of its own. `Live.LiveFramesMatchBatch` states it at every end-time. |
| Live.LiveFrames | MineGuard/predict_and_plot_zones.py:53-104 | Defines the live map as one frame per end-time, each holding that refresh's entries and classifier input; no contract of its own. `Live.RunLive` is proved against it and `Live.LiveFramesMatchBatch` relates it to the training table. |
| Live.RunLive | MineGuard/predict_and_plot_zones.py:47-125 | The live loop returns one frame per end-time, each with that end-time's entries and classifier input. |
| Live.LiveFramesMatchBatch | MineGuard/predict_and_plot_zones.py:47-125 | The live loop refreshes at the training builder's end-times. The entries at each end-time are that window's training rows without end-time and label. |

## Left out

- `MineGuard/train_model.py` is not part of this model. It only wraps library calls: the label encoder, the random forest, metrics and persistence.
- File and console I/O: the CSV writes and reads, the DataFrame construction and the prints.
- Plotting and `plt.pause`, in `MineGuard/predict_and_plot_zones.py:50-51,110-128`.
- Loading the trained model and encoder, `encoder.transform` and `model.predict`. The rock class stays a symbolic `RockClass`, and the model stops at the classifier input.
- The random generator. Each minute's draws are one `TickDraws` value, and their ranges are preconditions of the bounds lemmas.
  - numpy draws a rain or blast intensity only while its flag is set. The model supplies one every minute and uses it only while the flag is set.
  - The order in which draws are consumed from the stream is not modelled.
- Calendar time. `datetime` arithmetic from `START_TIME` is replaced by integer minute offsets.
- Floating-point rounding. Readings are `real`, so the mean, sum and drive are exact.
- The run length `MINUTES` is a parameter. The source sets it to 30 days; its comment says 7 days.
- `sort_values("timestamp")` (Dataset.py:95, predict_and_plot_zones.py:29) is not modelled. `Simulation.LogShape` proves the simulated log is already time-ordered. Each zone has one record per minute, so its window slice is the same under any sort order, stable or not.
- Unknown rock classes (the `KeyError` at Dataset.py:64) cannot occur, because `RockClass` is a closed datatype.
- The live script's own copy of the zone list (predict_and_plot_zones.py:35-41) is identical to the training builder's, so `Zones.Registry` stands for both.
- The failure on an empty refresh (predict_and_plot_zones.py:89-90) is not modelled. pandas cannot find the `rock_type` column of an empty frame, and the model returns an empty entry list instead.
- The live loop's pacing delay only affects presentation.
