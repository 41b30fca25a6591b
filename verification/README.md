# racketsense sensor analytics in Dafny

A model of the analytics core of racketsense. racketsense is a mobile app that reads a racket-mounted
IMU over Bluetooth LE and counts swings, rallies and swing speed. The model covers:

- **Decoder** (`ImuParser`). It turns a BLE notification into samples. Each 16-byte little-endian
  record holds an unsigned 32-bit timestamp and six signed 16-bit channels, scaled to m/s² and
  rad/s. Trailing partial records are dropped.
- **Filters** (`Filters`). A one-pole high-pass, a one-pole low-pass and a rolling RMS.
- **Session accumulator** (`Metrics`, with whole-batch lemmas in `MetricsProofs`). It covers:
  - `startSession`.
  - `ingest`: per-sample dt clamping, gyro-bias calibration over the first 2000 ms of device time,
    the dual-threshold impact detector with its refractory period, rally grouping and the
    running tallies.
  - `endSession`.
- **Sparkline bucketing** (`Sparkline`). It bins event times into fixed-width buckets.
- **Sport profile lookup** (`SportConfig`). `getCfg` checks that six fields are numeric.
- **Numeric helpers** (`MathUtil`). `clamp`, `mean` and `max`.
- **Batch feeding** (`BatchProofs`). `ingest` runs once per notification. For the corrected `Metrics.Ingest`, two calls in a row equal one call on the joined batch, so calibration, impact spacing and rally grouping hold across notifications. The source as written (`Metrics.IngestAsWritten`) behaves the same whenever the first sample of the session is not stamped 0 ms; a first sample at 0 ms is the case in Findings.

The source keeps the session in one module-level mutable record. Here that record is an
immutable `Metrics.Session`, and `Metrics.Ingest` folds a pure `Metrics.Step` over the batch.
The two callbacks fired on every impact (`onEvent` and `onLiveUpdate`) become a returned
sequence of `Metrics.Notice`s, one per impact, in order. `Math.sqrt` is a parameter
`root: real -> real`. Properties that need a true square root assume `MathUtil.IsSqrt(root)`.
`MetricsProofs.ImpactRule` restates the impact test without the root, comparing squared norms
with squared thresholds. All arithmetic is exact: `real` for measurements and `int` for
timestamps and raw channels.

The rally rule keeps the source's sentinel: an earlier impact counts only when its time is not 0.
So an impact that follows an impact stamped exactly 0 ms always starts a new rally.
`Metrics.RallyRule` states this as written.

The session start is different. The source treats `startedAtMs == 0` as "not started yet". The
model uses an explicit `started` flag instead (see Findings), and `Metrics.IngestAsWritten`
keeps the original test beside it.

## Model

| member | source | states |
|---|---|---|
| MathUtil.Clamp | src/utils/math.ts:1 | for a ≤ b the result lies in [a, b], equals x inside the range and the nearer bound outside it; for b < a the result is a |
| MathUtil.Mean | src/utils/math.ts:2 | the mean of an empty list is 0; otherwise mean times length is the sum |
| MathUtil.MeanBetween | src/utils/math.ts:2 | the mean of a non-empty list whose elements lie in [lo, hi] lies in [lo, hi] |
| MathUtil.Max | src/utils/math.ts:3 | no maximum exactly for the empty list (the source's −∞); otherwise the result is an element and no element exceeds it |
| MathUtil.MaxFrom | src/utils/math.ts:3 | the fold from a running maximum gives a value that is the start or an element, at least the start, and at least every element |
| MathUtil.RootAtLeast | src/lib/metrics.ts:144-159 | for a true square root and q ≥ 0, `sqrt(q) ≥ t` holds exactly when t ≤ 0 or q ≥ t² |
| ImuParser.U32At | src/lib/imuParser.ts:16 | a little-endian unsigned 32-bit read lies in [0, 2³²) |
| ImuParser.I16At | src/lib/imuParser.ts:17-22 | a little-endian signed 16-bit read lies in [−2¹⁵, 2¹⁵) and is the unsigned read, minus 2¹⁶ when negative |
| ImuParser.ParseImuNotification | src/lib/imuParser.ts:4-36 | the output has floor(length / 16) samples; sample i is the record at byte 16·i: timestamp at +0, accel at +4, +6, +8 and gyro at +10, +12, +14, each scaled by its LSB constant |
| ImuParser.ParsePacket | src/lib/imuParser.ts:39-41 | the alias returns the same samples as the decoder for every input |
| ImuParser.ParseDropsPartialRecord | src/lib/imuParser.ts:7-12 | a buffer of 16k + r bytes decodes exactly like its first 16k bytes |
| ImuParser.ParseConcat | src/lib/imuParser.ts:14-34 | when the first buffer holds whole records, decoding a concatenation is the concatenation of the decodings |
| ImuParser.EncodeRecord | src/tests/imuParser.test.ts:4-16 | the 16-byte wire image of any record that fits the wire ranges decodes back to that record |
| ImuParser.RoundTrip | src/tests/imuParser.test.ts:4-29 | decoding back-to-back encoded records yields one sample per record: the same timestamp and each channel times its scale |
| ImuParser.SingleRecordDecodes | src/tests/imuParser.test.ts:18-29 | the record with timestamp 1234 and channels 1000, −1000, 0, 500, 0, −500 decodes to exactly that sample |
| Filters.Rc | src/lib/filters.ts:4 | the time constant times 2π·fc is 1, and it is positive for a positive cut-off |
| Filters.AlphasInUnit | src/lib/filters.ts:4-15 | for positive rc and dt both filter coefficients lie strictly between 0 and 1 and add up to 1 |
| Filters.Hp1 | src/lib/filters.ts:2-9 | the new state remembers the input; for positive rc and dt the output is no larger in magnitude than `state.y + x − state.x`, and strictly smaller when that is non-zero |
| Filters.Hp1Decays | src/lib/filters.ts:4-6 | with the input unchanged the high-pass output shrinks strictly in magnitude unless it is already 0, and 0 stays 0 |
| Filters.Lpf | src/lib/filters.ts:12-19 | the output lies between the previous output and the input, strictly between them when they differ; an input equal to the state is a fixed point |
| Filters.HighPassIsComplementOfLowPass | src/lib/filters.ts:2-19 | when the high-pass state is its last input minus the low-pass state, the next outputs keep that relation |
| Filters.RollingRms | src/lib/filters.ts:21-27 | 0 for an empty buffer or a non-positive window; otherwise the root of the mean square of exactly the last min(length, window) elements |
| Filters.RollingRmsSquare | src/lib/filters.ts:23-26 | the mean square is non-negative; with a true square root the result is non-negative and its square is that mean square |
| Sparkline.Least | src/lib/sparkline.ts:12 | the default start is an element of the times and no time is earlier |
| Sparkline.Greatest | src/lib/sparkline.ts:13 | the default end is an element of the times and no time is later |
| Sparkline.BinWidth | src/lib/sparkline.ts:11 | the bin width is at least 1000 ms: 1000 below one second per bin, otherwise the floor of binSec·1000 |
| Sparkline.BucketCount | src/lib/sparkline.ts:14 | at least one bucket; the buckets cover e − s, and one fewer would not (unless there is only one) |
| Sparkline.BinIndex | src/lib/sparkline.ts:18 | the index is in [0, n); early times go to bucket 0, late ones to bucket n − 1, and a time inside the span goes to the bucket whose interval holds it |
| Sparkline.BucketCounts | src/lib/sparkline.ts:3-23 | empty input gives no bins, no counts and width binSec·1000; otherwise n bins starting at s + i·w, and count i is the number of times whose clamped index is i; the counts always add up to the number of times |
| SportConfig.ValidProfileChecksEveryKey | src/lib/sportConfig.ts:17-18 | a profile is valid exactly when every one of the six required keys holds a number |
| SportConfig.FirstInvalid | src/lib/sportConfig.ts:17-18 | no key is reported exactly when all keys hold numbers; a reported key is one of the keys |
| SportConfig.GetCfg | src/lib/sportConfig.ts:13-20 | a missing or falsy entry is a missing-sport error; success happens exactly when the entry exists and is valid, and returns the typed profile whose six fields are the numbers stored under their keys; otherwise the error names the first key that is not numeric |
| SportConfig.ExtraFieldsIgnored | src/lib/sportConfig.ts:17 | adding or changing a field outside the six keys never changes the outcome: neither success, nor the profile returned, nor the error |
| Metrics.StartSession | src/lib/metrics.ts:74-98 | the new session is the initial state with only the profile and label replaced: zero tallies, timers, filter state and bias, calibration open |
| Metrics.SampleDt | src/lib/metrics.ts:114-125 | dt always lies in [dtNom/3, 3·dtNom]; a non-positive gap gives dtNom; otherwise the gap in seconds, clamped at either bound |
| Metrics.WelfordStep | src/lib/metrics.ts:130-134 | the update `(1 − 1/n)·b + (1/n)·g` times n equals b·(n − 1) + g: a running mean stays a running mean |
| Metrics.CalibStep | src/lib/metrics.ts:127-138 | once closed, the accumulator is frozen; a sample past the window only closes it; a sample inside adds one to the count and its reading to count × mean, per axis |
| Metrics.Sense | src/lib/metrics.ts:140-155 | each accel axis's high-pass state is `hp1` of that axis with the profile's cut-off; the accel squared norm is that of the three high-pass outputs and the gyro squared norm that of the reading minus the bias; both are non-negative and the magnitudes are their roots; the gyro envelope is `lpf` of the gyro magnitude at 5 Hz |
| Metrics.RallyRule | src/lib/metrics.ts:162-167 | the rally length after an impact is at least 1 |
| Metrics.RecordImpact | src/lib/metrics.ts:161-176 | an impact adds one swing and one speed sample, adds the speed to the sum, raises the peak to the speed if larger, sets the rally by the rally rule and raises maxRally to it if larger, and records the time |
| Metrics.Step | src/lib/metrics.ts:119-183 | the filter state becomes the one the sample was measured with, and the bias accumulator takes the calibration step; a sample without an impact changes neither tallies nor refractory time; an impact happens only once the refractory period is over, restarts it, updates the tallies as for one impact with speed = gyro magnitude × radiusM, and reports them; the timestamps become the sample's |
| Metrics.Run | src/lib/metrics.ts:119-183 | an empty batch changes nothing; swings and speed samples grow by exactly the number of notices, at most one per sample; profile, label and session clock are kept |
| Metrics.Begin | src/lib/metrics.ts:103-107 | the first sample sets the session start, the previous timestamp and the calibration deadline 2000 ms later; the started flag is set; tallies, filter state, bias, count, calibration flag, refractory time, profile and label are left as they were |
| Metrics.Ingest | src/lib/metrics.ts:100-184 | without a profile or for an empty batch nothing changes; the first batch fixes the session clock from its first sample; later batches never move it |
| Metrics.IngestAsWritten | src/lib/metrics.ts:100-107 | the clock is re-fixed by any batch while the recorded start time is 0, and kept otherwise |
| Metrics.EndSession | src/lib/metrics.ts:186-198 | the duration is max(0, lastTs − startedAtMs); the average is sum / count, or 0 without swings; swings, maxRally, peak, label and start are copied |
| MetricsProofs.StepAdvancesFilters | src/lib/metrics.ts:140-155 | each sample moves every accel high-pass state to `hp1` of that axis from the previous state and the gyro envelope to `lpf` of the bias-corrected gyro magnitude; an impact's speed is that magnitude times radiusM |
| MetricsProofs.FiresSquared | src/lib/metrics.ts:157-159 | for magnitudes that are true roots of non-negative squares, the dual-threshold test holds exactly when the refractory period is over and each square reaches its squared threshold |
| MetricsProofs.MotionOfSample | src/lib/metrics.ts:140-155 | the accel squared norm a step tests is that of the three `hp1` outputs of the sample, and the gyro squared norm is that of the reading minus the bias after the calibration update |
| MetricsProofs.ImpactOnSample | src/lib/metrics.ts:140-161 | a sample reports an impact exactly when the refractory period is over, the squared norm of its high-passed accel reaches (impactG·G)² and that of its bias-corrected gyro reaches the square of the threshold in rad/s |
| MetricsProofs.ImpactRule | src/lib/metrics.ts:157-161 | an impact fires exactly when the refractory period is over, the squared high-passed accel norm reaches (impactG·G)² and the squared gyro norm reaches the square of the threshold in rad/s |
| MetricsProofs.StepChain | src/lib/metrics.ts:157-176 | one sample yields at most one impact, which comes after the refractory time, follows the rally rule and numbers the swing one past the last; the state then reflects it |
| MetricsProofs.ChainedCompose | src/lib/metrics.ts:161-176 | two chains of impacts, the second starting where the first ends, form one chain |
| MetricsProofs.RunChain | src/lib/metrics.ts:161-176 | within a batch each impact follows the previous one by at least refractoryMs, its rally follows the rally rule from the previous impact, swing numbers count up by one, and the final state reflects the last impact |
| MetricsProofs.RefractorySpacing | src/lib/metrics.ts:158-176 | any two impacts of one batch are at least refractoryMs apart |
| MetricsProofs.RallyIsMaximalRun | src/lib/metrics.ts:162-167 | from a state with no recorded impact, the rally length of each impact is the length of the maximal run of impacts ending there in which each follows a non-zero previous impact time by no more than rallyGapSec·1000 ms (the gap itself included); the gap just before the run does not qualify |
| MetricsProofs.StepRallies | src/lib/metrics.ts:163-168 | one sample keeps maxRally monotone and at least the rally it reports, and moves it only to that rally |
| MetricsProofs.RalliesTalliedCompose | src/lib/metrics.ts:163-168 | rally tracking over two consecutive runs of impacts is rally tracking over both |
| MetricsProofs.RunMaxRally | src/lib/metrics.ts:163-168 | maxRally never decreases, bounds every reported rally, and is the old maximum or one of the reported rallies |
| MetricsProofs.StepSpeeds | src/lib/metrics.ts:170-173 | one sample adds its impact speed, if any, to the sum and raises the peak to it if larger |
| MetricsProofs.SpeedsTalliedCompose | src/lib/metrics.ts:170-173 | speed tallying over two consecutive runs of impacts is speed tallying over both: the sums add and the peak is the larger |
| MetricsProofs.RunSpeeds | src/lib/metrics.ts:170-173 | the speed sum grows by exactly the impact speeds; the peak never decreases, bounds every impact speed, and is the old peak or one of them |
| MetricsProofs.CalibPrefix | src/lib/metrics.ts:128-137 | the calibration prefix is the longest run of leading samples stamped no later than the deadline |
| MetricsProofs.RunFrozen | src/lib/metrics.ts:128-138 | once the window has closed no batch changes the bias accumulator |
| MetricsProofs.AbsorbedCompose | src/lib/metrics.ts:129-134 | taking in two runs of samples one after the other takes in their concatenation: counts and per-axis count × mean add up |
| MetricsProofs.CalibStepAbsorbs | src/lib/metrics.ts:129-134 | a sample inside the open window keeps it open, adds one to the count and its reading to count × mean |
| MetricsProofs.RunClosesWindow | src/lib/metrics.ts:128-137 | the first sample past the deadline closes the window, and the rest of the batch leaves the accumulator as it was |
| MetricsProofs.RunCalibration | src/lib/metrics.ts:127-138 | while the window is open a batch adds exactly its calibration prefix: the count grows by its length, count × mean by its gyro sum per axis, and the window stays open only if the whole batch was inside |
| MetricsProofs.FirstIngest | src/lib/metrics.ts:100-107 | the first batch of a fresh session runs from a clock set by its first sample, with an empty accumulator open until 2000 ms later |
| MetricsProofs.AbsorbedFromEmpty | src/lib/metrics.ts:129-134 | an accumulator that started empty holds, per axis, the arithmetic mean of the readings it took in, and their number as its count |
| MetricsProofs.BiasIsCalibrationMean | src/lib/metrics.ts:100-138 | after the first batch of a session the bias is the arithmetic mean of the gyro readings within 2000 ms of the first sample (0 when there are none), and the count is their number |
| MetricsProofs.RecordImpactKeepsConsistent | src/lib/metrics.ts:163-176 | one impact keeps the tally invariant: swings == nSpeed, rally ≤ maxRally, sum ≤ count × peak, peak ≥ 0, all zero before the first swing, rally ≥ 1 after |
| MetricsProofs.RunKeepsConsistent | src/lib/metrics.ts:119-183 | a batch keeps the tally invariant |
| MetricsProofs.IngestKeepsConsistent | src/lib/metrics.ts:74-184 | a started session satisfies the tally invariant and every `ingest` keeps it |
| MetricsProofs.SummaryBounds | src/lib/metrics.ts:186-198 | for a consistent session the average speed never exceeds the maximum speed, and average × swings is the speed sum |
| BatchProofs.RunConcat | src/lib/metrics.ts:119-183 | the per-sample loop over two consecutive runs of samples ends where running both in one loop ends, with the notices of the first run followed by those of the second |
| BatchProofs.IngestSplit | src/lib/metrics.ts:100-184 | two `ingest` calls in a row give the same session as one call on the concatenated batch, and the notices of the first call followed by those of the second |
| BatchProofs.IngestEachIsOneBatch | src/lib/metrics.ts:100-184 | however a stream is cut into batches, one `ingest` per batch gives the same session and notices as one `ingest` of the whole stream |
| BatchProofs.BiasOverBatches | src/lib/metrics.ts:100-138 | for a fresh session fed batch by batch, the bias is the mean of the gyro readings within 2000 ms of the session's first sample, whatever batches they came in, and the count is their number |
| BatchProofs.SpacingOverBatches | src/lib/metrics.ts:157-176 | any two impacts reported while a session is fed batch by batch, also from different batches, are at least refractoryMs apart |
| BatchProofs.RallyOverBatches | src/lib/metrics.ts:162-167 | for a session fed batch by batch with no recorded impact yet, every impact's rally length is its maximal run of rally-continuing impacts, across batch boundaries |
| BatchProofs.AsWrittenAgrees | src/lib/metrics.ts:100-107 | when the start test `startedAtMs == 0` agrees with the started flag and the sample that would start the session is not stamped 0 ms, the source's `ingest` gives exactly the corrected result, and the two tests still agree afterwards |
| BatchProofs.AsWrittenStreamAgrees | src/lib/metrics.ts:100-107 | fed batch by batch, the source's `ingest` gives the same session and notices as the corrected one whenever the first sample of the session is not stamped 0 ms |
| BatchProofs.BiasOverBatchesAsWritten | src/lib/metrics.ts:100-138 | for the source as written, a fresh session fed batch by batch whose first sample is not stamped 0 ms ends with the bias equal to the mean of the gyro readings within 2000 ms of that sample |
| BatchProofs.AsWrittenSplitDiffers | src/lib/metrics.ts:103-107 | as written, the samples 0 ms and 2500 ms fed as two batches leave the start at 2500 ms, and fed as one batch leave it at 0 ms: splitting changes the session |
| MetricsProofs.ZeroStampRestartsClock | src/lib/metrics.ts:103-107 | as written, after a batch at 0 ms a batch at 2500 ms moves the start to 2500 ms and reopens calibration until 4500 ms, and the later sample joins the bias |
| MetricsProofs.ZeroStampKeepsClock | src/lib/metrics.ts:103-107 | with the flag, the same two batches keep the start at 0 ms and the later sample closes the window |
| MetricsProofs.SessionClockSetOnce | src/lib/metrics.ts:103-107 | with the flag, the session start and calibration deadline come from the first sample of the session and later batches never change them |

## Left out

- I/O and platform: the development-mode warning for odd buffer lengths (imuParser.ts:7-9), the `DataView` over a shared buffer, and the mock transport, stores, persistence, export and UI. None of these affect the computed values.
- Floating point: values are exact reals and integers. IEEE rounding, `NaN`, `Infinity` and the `isFinite` test of metrics.ts:124 are not modelled, and a timestamp gap is never non-finite.
- `Math.sqrt` is the parameter `root`; `Math.PI` is the literal 3.141592653589793. Only its positivity is used.
- Callbacks: `onEvent` and `onLiveUpdate` are not called. Each impact yields one `Notice` carrying what both would receive. Re-entrancy is not modelled.
- The low-pass gyro envelope (metrics.ts:155) is computed and kept in the state, as in the source, but nothing reads it.
- `startSession`'s default label `'tennis'` is not modelled: the label is an explicit argument.
- `getCfg`'s compile-time sport key type and the JSON import: the table is a parameter `map<string, Json>`, and any string may be looked up.
- Metrics.Ingest: requires a positive `accelHpHz` when a profile is set. The source would divide by zero or use a negative time constant and go on with `Infinity`/`NaN` values.
- Metrics.IngestAsWritten: carries the same positive `accelHpHz` requirement as `Metrics.Ingest`.
- Metrics.Step: timestamps are integers. The source's `t_ms` is any number, but the decoder only produces integers.
- MetricsProofs.RefractorySpacing: requires a non-negative `refractoryMs`. With a negative one, impacts can be closer together, and the statement is false.
- MathUtil.Max: returns `None` for the empty list where the source returns `-Infinity`.
- Sparkline.BucketCounts: times and explicit start and end are integers, and `binSec` is a real. The source accepts any numbers. The default `binSec = 5` (sparkline.ts:5) is not modelled: `binSec` is always an explicit argument.
- Filters.RollingRms: the window is an integer. The source's `window` is any number; a fractional one below the length starts the loop at a fractional index, so every read is `undefined` and the result is `NaN` (filters.ts:22-25).
- SportConfig.GetCfg: returns the six typed fields only. The source returns the whole stored object, fields outside the six included, cast to the profile type.
- ImuParser.ParseImuNotification: works on a byte sequence rather than a typed-array view with an offset.

## Findings

| source | as written | input that shows it | evidently intended | confidence | as-written member | corrected member |
|---|---|---|---|---|---|---|
| src/lib/metrics.ts:103 | a session counts as not started while its recorded start time is 0, so a session whose first sample is stamped 0 ms is started again by the next batch | start a session, ingest one motionless sample at 0 ms, then one at 2500 ms: the start moves to 2500 ms, calibration reopens until 4500 ms and the 2500 ms sample is averaged into the gyro bias | the session clock and calibration window are fixed once, by the first sample of the session, so how the stream is cut into notifications does not change the result | medium, not executed | BatchProofs.AsWrittenSplitDiffers | BatchProofs.IngestSplit |
