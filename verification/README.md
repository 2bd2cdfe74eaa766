# Verified model of the synchronized-audio core

This project models the timing and buffering machinery of the library in Dafny and proves what it is for: the
clock filter and what feeds it, the playback scheduler and its heap, the discovery dialer, the buffers that must agree
with something simple, the event bus, the resampler and the PCM wire path. `dafny verify dfyconfig.toml` checks
everything.

Objects that the source updates in place are classes with the same fields, and each of their methods is tied to a
specification function of the old state (`View`, `Contents`, `Step`). The theorems are lemmas about those functions, by
induction over whole runs.

| file | what it models |
|---|---|
| Kalman.dfy | 2x2 covariances: predict, scale, correct, and the quadratic cost they stand for |
| TimeFilter.dfy, FilterConfig.dfy, FilterRuns.dfy, DefinedRuns.dfy | the clock filter, what its settings do, whole runs of it, and when a run divides by zero |
| LeastSquares.dfy, PlainFit.dfy | what the filter minimises without process noise, and when that is the plain fit |
| Convolution.dfy, NoisyPath.dfy | what process noise means for the cost, and what the filter minimises with it |
| Clock.dfy | NTP measurement, best-of-burst selection, quality, local time |
| Scheduler.dfy, SchedulerRun.dfy | the buffer heap, the startup gate, the play/drop/wait window, and whole runs |
| Dialer.dfy | claim and release with int64 backoff, and whole runs of dials |
| Rings.dfy, BufferTracker.dfy, AudioOutput.dfy | circular buffers; the send tracker; the playback ring and its producer |
| FlacSource.dfy | re-chunking of decoded frames into fixed-size reads |
| Metadata.dfy | tristate messages, deferred and merged |
| Group.dfy, GroupEffect.dfy, GroupStream.dfy | the event bus, what each operation achieves, and what one subscriber sees of it |
| Resampler.dfy, ResampledSample.dfy | linear resampling, chunk by chunk and sample by sample |
| PcmWire.dfy | samples to bytes to frames and back |
| Numbers.dfy, Options.dfy | Go's number conversions; values that may be absent |

## Findings

- `Update` computes `1/0` when the predicted offset variance and the sample's error are both zero; every gain is then
  0 * Inf, and offset, drift and covariances are NaN from there on (`TimeFilters.ZeroTimesInf`). The guard in
  `NewTimeFilter` against a zero scale is there to avoid a zero variance but cannot prevent this. Nothing but a reset
  repairs it, the library resets only at construction, and until then the sync quality stays lost
  (`Clocks.LostForever`). `DefinedRuns.RunDefinedIff` gives the exact condition for every configuration with a nonzero
  forget factor:
  - with offset process noise it never happens;
  - with drift process noise only, as by default, exactly when the first three accepted samples all have zero error
    (round trips under 2 µs); `DefinedRuns.DefaultConfigDividesByZero` is such an input;
  - without process noise, in exact arithmetic, also after any number of good samples
    (`DefinedRuns.LateDivisionByZero`): from the second sample on, a run survives two zero errors if the second sample
    had an error, one if only the first had, and none otherwise.
- The filter is a least-squares fit from its second sample on, but its prior there is not the fit of the first two
  samples: the covariance between offset and drift is left at zero (pkg/sync/timefilter.go:118-125), though both
  depend on the second measurement. `LeastSquares.SecondPriorIsNotTheFit` shows the prior strictly too low on every
  other parallel line. In consequence the filter's line is the weighted least-squares fit of all accepted samples if
  and only if it passes through the first two measurements (`PlainFits.PlainFitIff`).
- The role dispatcher reads the bus through a channel of 32 like every other subscriber, and a leave published while it
  is full is lost. Roles can then be told twice in a row that the same client joined
  (`GroupStreams.DispatcherJoinsTwice`). `GroupStreams.StreamAlternates` says exactly when: if and only if every leave
  between the two joins was lost.
- A client that joins while the playback state is the empty string, which `SetPlaybackState` accepts and publishes, is told
  "playing" (`Groups.EmptyStateIsToldAsPlaying`); in every other open state it is told what the log ends in
  (`Groups.BusLog`).
- At ratio 1 the resampler drops the last frame of every chunk, for want of a right-hand neighbour, so "all L frames
  from m*L" holds exactly for integer ratios m of at least 2 (`Resamplers.CountInteger`).
- A file without a single non-empty frame would keep `FLACSource.Read` in its loop for ever; with one it always returns
  (`FlacSources.FLACSource.Read`, whose `parses` bounds how often the parser succeeds).
- If every answer of a burst has the largest int64 as its round trip, four zeros are handed to the filter
  (`Clocks.RunBurst`).

## Model

| member | source | states |
|---|---|---|
| Kalman.PredictPSD | pkg/sync/timefilter.go:131-136 | prediction keeps a covariance positive (semi)definite for any elapsed time and noise |
| Kalman.PredictDet | pkg/sync/timefilter.go:131-136 | exact determinant of the predicted covariance |
| Kalman.CorrectForm | pkg/sync/timefilter.go:151-160 | the corrected covariance times S, entry by entry, and the determinant law det' * S = det * measVar |
| Kalman.CorrectPSD | pkg/sync/timefilter.go:151-160 | correction keeps the covariance positive (semi)definite and never raises the offset variance above either variance |
| Kalman.CostPositive | pkg/sync/timefilter.go:128-160 | the cost a covariance stands for is nonnegative and zero only at its centre |
| Kalman.PredictCost | pkg/sync/timefilter.go:129-136 | noiseless prediction carries the cost of every point along unchanged |
| Kalman.ScaleCost | pkg/sync/timefilter.go:144-148 | inflating the covariance divides every cost by the factor |
| Kalman.CorrectCost | pkg/sync/timefilter.go:150-160 | correction is the minimising update: predicted cost plus weighted squared error is the new cost plus a constant, at every point |
| TimeFilters.FromConfig | pkg/sync/timefilter.go:71-87 | no variance or factor is ever negative, and the parameters are well formed exactly when the forget factor is nonzero |
| TimeFilters.TimeFilter.constructor | pkg/sync/timefilter.go:71-87 | a new filter is fresh, with the configuration's squares and a positive error scale |
| TimeFilters.TimeFilter.Reset | pkg/sync/timefilter.go:224-239 | every mutable field is back to its initial value |
| TimeFilters.TimeFilter.Update | pkg/sync/timefilter.go:94-164 | for every sample, zero errors included, the whole new estimate is Next of the old one; Prediction, NoisyFit, TracksLine and DriftUsedIff say what that means |
| TimeFilters.NextSound | pkg/sync/timefilter.go:94-164 | every update on every configuration keeps the covariance positive semidefinite, or finds it NaN |
| TimeFilters.ZeroTimesInf | pkg/sync/timefilter.go:131-160 | a division by zero finds error, offset variance and cross covariance all at zero, so both gains are 0 * Inf |
| TimeFilters.AfterIs | pkg/sync/timefilter.go:94-164 | a run ends in numbers if and only if no update of it divides by zero |
| TimeFilters.AfterTime | pkg/sync/timefilter.go:98-104 | numbers or NaN, the filter's time is that of the last sample accepted |
| TimeFilters.StepInv | pkg/sync/timefilter.go:94-164 | one update with nonzero error never divides by zero and keeps the invariant: definite covariance from the second sample on |
| TimeFilters.RunInv | pkg/sync/timefilter.go:94-164 | the same over every run whose accepted samples have nonzero errors, stale timestamps and forgetting included |
| TimeFilters.AcceptedOnly | pkg/sync/timefilter.go:98-100 | a run does what the run of its accepted samples does, division by zero included |
| TimeFilters.KalmanUncertainty | pkg/sync/timefilter.go:128-160 | S > 0, the determinant law, and the offset variance at most the predicted one and measVar |
| TimeFilters.KalmanBlend | pkg/sync/timefilter.go:150-156 | the gain is in [0,1] and the new offset lies between prediction and measurement |
| TimeFilters.TimeFilter.ComputeServerTime | pkg/sync/timefilter.go:167-178 | returns FromClient, of which LineConversion and ConversionsInvert speak; with NaN, what the platform makes of it |
| TimeFilters.TimeFilter.ComputeClientTime | pkg/sync/timefilter.go:181-192 | returns FromServer, of which LineInverse and ConversionsInvert speak; with NaN or an effective drift of -1, what the platform makes of the quotient |
| TimeFilters.VarianceBound | pkg/sync/timefilter.go:206-214 | after any run whose accepted samples have nonzero errors, the reported variance is at most the rounded error variance of the last of them; before any, the largest int64 |
| FilterConfigs.DefaultParameters | pkg/sync/timefilter.go:58-87 | the recommended settings, squared and in their places |
| FilterConfigs.FirstVariance | pkg/sync/timefilter.go:106-116 | the first sample's reported variance is its error bound times the scale, squared, to the nearest |
| FilterConfigs.ErrorWeight | pkg/sync/timefilter.go:106-107 | the weight of a sample's squared error is the inverse square of that deviation |
| FilterConfigs.Prediction | pkg/sync/timefilter.go:129-148 | predicted covariance from the configuration's own settings: process deviations squared times the elapsed time, and the forget factor squared exactly for outliers to either side after minSamples |
| FilterConfigs.CountIs | pkg/sync/timefilter.go:110-143 | the samples counted, NaN or not: every accepted one up to minSamples, and the first two |
| LeastSquares.PredictLine | pkg/sync/timefilter.go:129-148 | prediction and forgetting carry the cost of every line to the new time, divided by the inflation |
| LeastSquares.CorrectLine | pkg/sync/timefilter.go:150-160 | with any process noise, the correction adds exactly the sample's weighted squared error to the cost of every line |
| LeastSquares.StepCost | pkg/sync/timefilter.go:128-160 | one noiseless step: discounted cost plus squared error is the new cost plus a constant |
| LeastSquares.RunCost | pkg/sync/timefilter.go:94-164 | the same over every run, with stale samples and forgetting anywhere |
| LeastSquares.UniqueMinimiser | pkg/sync/timefilter.go:94-164 | after any noiseless run the filter's line costs strictly less than every other line |
| LeastSquares.PlainObjective | pkg/sync/timefilter.go:142-148 | where forgetting never fires the cost is the prior plus the plain sum over accepted samples |
| LeastSquares.SecondPrior | pkg/sync/timefilter.go:118-126 | the prior fixed at sample two, in terms of the two measurements |
| LeastSquares.SecondPriorTerms | pkg/sync/timefilter.go:118-126 | that prior as the second sample's squared error plus the slope's |
| LeastSquares.SecondPriorIsNotTheFit | pkg/sync/timefilter.go:118-126 | it is strictly below the squared errors of the first two samples on every other parallel line |
| LeastSquares.FitCentre | pkg/sync/timefilter.go:94-164 | over such a run the objective of any line exceeds that of the filter's by exactly its distance from the estimate |
| LeastSquares.LeastSquaresFit | pkg/sync/timefilter.go:94-164 | from a fresh filter, over any noiseless run without forgetting, stale timestamps anywhere: the filter's line is the unique minimiser of the first two samples' slope error plus every later weighted square |
| PlainFits.PlainFitIff | pkg/sync/timefilter.go:118-160 | over such a run the filter's line is the plain weighted fit of all accepted samples if and only if it passes through the first two measurements |
| Convolutions.DriftNoise | pkg/sync/timefilter.go:131-132 | adding drift variance is taking the least cost over all drift jumps, and one jump attains it |
| Convolutions.PredictionJumps | pkg/sync/timefilter.go:129-136 | the predicted cost, any noise settings, is the least cost over all jumps of offset and drift, and one pair attains it |
| NoisyPaths.StepPath | pkg/sync/timefilter.go:128-160 | one update with noise and forgetting: no path pays less than the filter's bookkeeping, and one arriving jump pays the same |
| NoisyPaths.PathBound | pkg/sync/timefilter.go:94-164 | over a run no path is cheaper than the distance of its end from the estimate allows |
| NoisyPaths.CheapestPath | pkg/sync/timefilter.go:128-160 | for any noise settings, forgetting included, the estimate is the end of one path strictly cheaper than every other |
| NoisyPaths.NoisyFit | pkg/sync/timefilter.go:94-164 | the same from a fresh filter over any run, stale timestamps anywhere, so also on the default configuration |
| FilterRuns.TracksLine | pkg/sync/timefilter.go:98-156 | samples on one line, stale ones interleaved: from the second accepted one the filter holds exactly that line, whatever the settings |
| FilterRuns.ExactConversion | pkg/sync/timefilter.go:167-178 | hence the conversion of c is c + round(A + B*c) once drift is in use |
| FilterRuns.DriftUsedIff | pkg/sync/timefilter.go:162-163 | from the third sample on drift is used if and only if it is more than the configured number of its standard deviations from zero |
| FilterRuns.DriftUsedAfter | pkg/sync/timefilter.go:110-163 | over every run: never before the third accepted sample, and then as the last one decides |
| FilterRuns.LineConversion | pkg/sync/timefilter.go:162-178 | over samples on a line, conversions extrapolate along it exactly when there are three and the slope stands out, and never for a clock without drift |
| FilterRuns.ClientRoundTrip | pkg/sync/timefilter.go:167-192 | client to server to client is within 1 µs for every time, for any effective drift above -2/3 |
| FilterRuns.ServerRoundTrip | pkg/sync/timefilter.go:167-192 | server to client to server is within 1 µs for every time, for any effective drift between -1 and 2 |
| FilterRuns.ConversionsInvert | pkg/sync/timefilter.go:167-192 | both round trips, within 1 µs, of what the two conversion methods return |
| FilterRuns.LineInverse | pkg/sync/timefilter.go:181-192 | on a tracked line the client time is the exact inverse, to the nearest, halves away from zero |
| FilterRuns.ServerTimeMonotone | pkg/sync/timefilter.go:167-178 | client to server keeps order for effective drift above -1 |
| FilterRuns.ClientTimeMonotone | pkg/sync/timefilter.go:181-192 | server to client keeps order for effective drift above -1 |
| DefinedRuns.RunDefinedIff | pkg/sync/timefilter.go:94-164 | for every configuration with a nonzero forget factor, a run from fresh divides by zero if and only if its accepted samples' errors say so (SafeErrors) |
| DefinedRuns.HoldsNumbersIff | pkg/sync/timefilter.go:94-164 | under the same condition the filter holds numbers and not NaN |
| DefinedRuns.OffsetNoiseDefined | pkg/sync/timefilter.go:134-151 | with offset noise no sample of any error divides by zero |
| DefinedRuns.RunByRank | pkg/sync/timefilter.go:128-160 | without noise a run survives exactly as many zero errors as the rank of its covariance |
| DefinedRuns.LateDivisionByZero | pkg/sync/timefilter.go:128-160 | without noise the third zero error after the second sample divides by zero, whatever came between |
| DefinedRuns.RunSafe | pkg/sync/timefilter.go:128-160 | with drift noise, past the first three samples' danger no sample of any error divides by zero |
| DefinedRuns.UpdateDefinedIff | pkg/sync/timefilter.go:128-151 | for every configuration, a forget factor of zero included, exactly when one update divides by zero, in terms of error, predicted variance and residual |
| DefinedRuns.DefaultConfigDividesByZero | pkg/sync/timefilter.go:58-68 | an input on the default configuration that does divide by zero |
| Clocks.NtpBound | pkg/sync/clock.go:64-77 | the truncated measurement is within maxError + 1 of the true offset (section 8 of RFC 5905) |
| Clocks.HonestIff | pkg/sync/clock.go:64-77 | the bound is tight: an offset is possible if and only if it is within half the round trip of the midpoint; the sample's time is t4 |
| Clocks.MeasureIs | pkg/sync/clock.go:73-75 | measurement and error bound are the two halves, cut towards zero |
| Clocks.QualityThresholds | pkg/sync/clock.go:38-47 | the quality as exact thresholds on the variance, through root and rounding |
| Clocks.LostForever | pkg/sync/clock.go:64-87 | once the filter has divided by zero no response restores the quality |
| Clocks.ClockSync.ProcessSyncResponse | pkg/sync/clock.go:64-87 | feeds exactly this measurement to the filter, whatever it is, and sets round trip, sync time and quality |
| Clocks.ClockSync.CheckQuality | pkg/sync/clock.go:96-105 | quality is lost after five seconds without a response and otherwise unchanged |
| Clocks.ClockSync.ServerToLocalTime | pkg/sync/clock.go:108-119 | returns LocalTime, of which LocalTimeInverts, LocalTimeUnsynced and LocalTimeMonotone speak |
| Clocks.LocalTimeInverts | pkg/sync/clock.go:116-118 | a synced local time is 1000 times a client time that converts back to the timestamp within 1 µs |
| Clocks.LocalTimeUnsynced | pkg/sync/clock.go:112-114 | before the first response it is 1000 times the timestamp |
| Clocks.LocalTimeMonotone | pkg/sync/clock.go:108-119 | for a fixed filter, local times are ordered as server timestamps |
| Clocks.RunBurst | pkg/sendspin/receiver.go:637-685 | the filter's next sample is the first answer with the smallest round trip of all, whatever subset failed; nothing changes if and only if the burst was cancelled or unanswered |
| Clocks.SelectBest | pkg/sendspin/receiver.go:647-682 | the loop's choice, and four zeros if no round trip is below the largest int64 |
| Clocks.BurstBound | pkg/sendspin/receiver.go:647-684 | that sample is within half of every answered round trip, plus 1, of the true offset |
| Schedulers.BufferQueue.Push | pkg/sendspin/scheduler.go:213-231 | keeps heap order and adds one buffer to the bag |
| Schedulers.BufferQueue.Pop | pkg/sendspin/scheduler.go:213-241 | keeps heap order and takes out the root |
| Schedulers.BufferQueue.Up | pkg/sendspin/scheduler.go:213-227 | sifting up repairs a heap broken above one index |
| Schedulers.BufferQueue.Down | pkg/sendspin/scheduler.go:213-227 | sifting down repairs a heap broken below one index and leaves the tail alone |
| Schedulers.RootIsLeast | pkg/sendspin/scheduler.go:213-219 | the root plays no later than any other buffer |
| Schedulers.Scheduler.constructor | pkg/sendspin/scheduler.go:51-83 | the delay clamped to 0 to 5000 ms, a target of the whole chunks in the buffer and at least one, gate closed, counters zero |
| Schedulers.Scheduler.Schedule | pkg/sendspin/scheduler.go:85-103 | the play time is the local time plus the static delay; one more received and queued |
| Schedulers.Scheduler.Clear | pkg/sendspin/scheduler.go:192-198 | empties the queue and closes the gate |
| Schedulers.Scheduler.ProcessQueue | pkg/sendspin/scheduler.go:119-165 | behind a closed gate nothing happens; otherwise the queue is partitioned exactly, emitted in play order; also when cut short by a stop |
| Schedulers.Drain | pkg/sendspin/scheduler.go:134-162 | the loop drops exactly the late buffers, emits exactly the due ones in order and keeps exactly the early ones |
| Schedulers.PartitionUnique | pkg/sendspin/scheduler.go:134-162 | that partition is determined by queue and time alone |
| Schedulers.RunConserves | pkg/sendspin/scheduler.go:85-198 | in every reachable state received = played + dropped + queued + cleared |
| Schedulers.StartupGate | pkg/sendspin/scheduler.go:122-130 | nothing is emitted or dropped before a tick since the last Clear saw the target |
| SchedulerRuns.WindowMeans | pkg/sendspin/scheduler.go:137-148 | late, due and early in nanoseconds, both ends of the 50 ms window played |
| SchedulerRuns.GateIff | pkg/sendspin/scheduler.go:122-148 | a tick works if and only if it, or an earlier one since the last Clear, saw the target; otherwise it changes nothing |
| SchedulerRuns.CountersCount | pkg/sendspin/scheduler.go:88-155 | received, played and dropped each count exactly what arrived, was emitted and was dropped |
| SchedulerRuns.PlayedStands | pkg/sendspin/scheduler.go:192-198 | whatever is played was scheduled since the last Clear |
| Schedulers.EmittedInOrder | pkg/sendspin/scheduler.go:85-165 | over a whole run of buffers arriving in play order, everything emitted, tick after tick, comes out in play order |
| Schedulers.ServerOrder | pkg/sendspin/scheduler.go:85-165 | with a fixed filter and timestamps that do not go back, all buffers of a run come out in server-timestamp order up to equal play times |
| Dialers.DefaultBackoff | pkg/sendspin/client_dialer.go:174-177 | the wrapped int64 arithmetic equals min(2^(f-1) s, 30 s) for every failure count |
| Dialers.ClientDialer.Claim | pkg/sendspin/client_dialer.go:126-137 | succeeds exactly when the slot is free and the cooldown over, and then owns it |
| Dialers.ClientDialer.Release | pkg/sendspin/client_dialer.go:146-179 | latches on nil, frees at once on restart, backs off otherwise |
| Dialers.ClaimIff | pkg/sendspin/client_dialer.go:126-137 | a claim succeeds if and only if the history of dials allows it |
| Dialers.RunSafe | pkg/sendspin/client_dialer.go:93-179 | over every run the maps agree with the history, the log is safe, and at most one dial per instance is in flight |
| Dialers.DialsAreSafe | pkg/sendspin/client_dialer.go:93-179 | from an idle dialer, every dial of every run started when its history allowed it |
| Dialers.LatchedForever | pkg/sendspin/client_dialer.go:150-158 | after a nil result the instance is never dialed again |
| Dialers.DefaultWait | pkg/sendspin/client_dialer.go:173-178 | a dial after a streak of f failures follows a failure, by at least min(2^(f-1), 30) s |
| BufferTrackers.BufferTracker.constructor | pkg/sendspin/buffer_tracker.go:39-51 | empty, with the default capacity for a nonpositive one |
| BufferTrackers.BufferTracker.PruneConsumed | pkg/sendspin/buffer_tracker.go:55-66 | drops the leading finished chunks and keeps both sums exact |
| BufferTrackers.BufferTracker.CanSend | pkg/sendspin/buffer_tracker.go:70-78 | true exactly when both totals stay within their caps |
| BufferTrackers.BufferTracker.Register | pkg/sendspin/buffer_tracker.go:82-95 | appends the chunk, across wraparound and growth |
| BufferTrackers.BufferTracker.Grow | pkg/sendspin/buffer_tracker.go:107-115 | doubles the ring and preserves the sequence |
| BufferTrackers.SendTick | pkg/sendspin/server_stream.go:117-142 | one tick for one client: prune, ask, send, and register only what was sent; SendsLog says what that is |
| BufferTrackers.SendsLog | pkg/sendspin/server_stream.go:117-142 | for every run with a monotone clock the chunks sent are those of a reference on the log alone: accepted, bytes and 30 s fitting beside what lies ahead, each with its tick's size and ending 520 ms after it |
| BufferTrackers.SentLogEntry | pkg/sendspin/server_stream.go:139-142 | each log entry is one accepted tick's time and size, in order |
| BufferTrackers.TracksLog | pkg/sendspin/buffer_tracker.go:55-95 | for every run with a monotone clock the tracker is the send log filtered by end > now, its sums are theirs, and neither cap is exceeded |
| BufferTrackers.AtMost26 | pkg/sendspin/server_stream.go:41-142 | with ticks 20 ms apart at most 26 chunks are in flight, so a tick sends exactly when the bytes fit and the connection accepts |
| BufferTrackers.ServeClient | pkg/sendspin/server_stream.go:119-142 | all ticks of a client leave the tracker as Run says, and with ticks 20 ms apart the ring of 1500 never grows |
| AudioOutput.RingBuffer.Write | pkg/audio/output/malgo.go:66-78 | appends exactly the leading samples there is room for |
| AudioOutput.RingBuffer.Read | pkg/audio/output/malgo.go:81-99 | takes the oldest samples and fills the rest with zeros |
| AudioOutput.Fifo | pkg/audio/output/malgo.go:66-99 | under any interleaving, delivered ++ queued = accepted |
| AudioOutput.Perform | pkg/audio/output/malgo.go:66-99 | any sequence of writes and reads on the ring takes and gives what Fifo speaks of |
| AudioOutput.Malgo.DataCallback | pkg/audio/output/malgo.go:396-400 | the samples returned are the front of the stream, then zeros; nothing is lost |
| AudioOutput.Malgo.Write | pkg/audio/output/malgo.go:358-393 | appends all volume-scaled samples in order when done, exactly a prefix when stalled, and ends as Passes says |
| AudioOutput.DrainingFinishes | pkg/audio/output/malgo.go:372-392 | if the callback drains something in every pass, the write completes within as many passes as samples |
| AudioOutput.StallMeansNoDrain | pkg/audio/output/malgo.go:384-388 | a stall is reported only after more than 50 ms in which the callback took nothing |
| AudioOutput.UndrainedStalls | pkg/audio/output/malgo.go:380-389 | a full ring that is not drained makes the write report a stall if and only if some pass comes more than 50 ms after the last progress |
| FlacSources.ConvertFits | internal/server/audio_source.go:276-292 | samples that fit their depth land in the 24-bit range: the exact multiple up to 24 bits, the floored quotient above |
| FlacSources.DecodeFrame | internal/server/audio_source.go:268-297 | fills the buffer with the interleaved frame, of which InterleavedAt speaks |
| FlacSources.InterleavedAt | internal/server/audio_source.go:272-296 | sample i of channel ch stands, converted, at i*channels + ch |
| FlacSources.FileSample | internal/server/audio_source.go:268-312 | the decoded file holds it there after all frames before |
| FlacSources.StreamSample | internal/server/audio_source.go:224-317 | and so does whatever Read delivers, in every pass |
| FlacSources.FLACSource.Read | internal/server/audio_source.go:224-317 | delivers the next stretch of the decoded, endless stream, fills the buffer exactly when there is no error, and finishes whenever the file has a non-empty frame |
| FlacSources.ReadAll | internal/server/audio_source.go:224-317 | re-chunking is lossless: the results of reads of any sizes are one stretch of the endless stream, all of it if none fails |
| FlacSources.OnePass | internal/server/audio_source.go:252-263 | every whole pass of that stream is the file itself |
| Metadata.TristateRoundTrip | pkg/protocol/messages.go:179-215 | omitted, null and value can be told apart for every field after decoding |
| Metadata.MessageMentions | pkg/sendspin/receiver.go:466-540 | a decoded message changes each field by the key of its own name, the duration in whole seconds |
| Metadata.ControllerMentions | pkg/sendspin/receiver.go:439-440 | the controller mentions repeat and shuffle and nothing else |
| Metadata.SnapshotIsLastMention | pkg/sendspin/receiver.go:466-546 | each snapshot field is what the last update mentioning it said; null clears, omission preserves |
| Metadata.SearchTimestamp | pkg/sendspin/receiver.go:459-461 | finds the first pending update that is not earlier |
| Metadata.InsertSorted | pkg/sendspin/receiver.go:458-464 | insertion keeps the pending list sorted |
| Metadata.InsertAtIndex | pkg/sendspin/receiver.go:459-464 | inserting at the index the binary search finds is sorted insertion, before equals |
| Metadata.Receiver.EnqueueMetadata | pkg/sendspin/receiver.go:447-465 | applies a due update at once and inserts any other |
| Metadata.Receiver.DrainPendingMetadata | pkg/sendspin/receiver.go:559-575 | applies the due prefix in order and keeps the rest |
| Metadata.Receiver.ApplyMetadata | pkg/sendspin/receiver.go:466-541 | merges field by field by the tristate rule |
| Metadata.Receiver.ApplyController | pkg/sendspin/receiver.go:435-446 | overwrites repeat and shuffle only |
| Metadata.DrainIsFilter | pkg/sendspin/receiver.go:563-574 | the early-exit drain applies exactly all pending updates that are due |
| Metadata.EnqueueDefers | pkg/sendspin/receiver.go:451-464 | an update with a positive timestamp ahead of the clock is never applied on arrival, any other is |
| Metadata.RunInv | pkg/sendspin/receiver.go:435-575 | over every run the list is sorted, applied + pending = enqueued, and the snapshot is the merge of what was applied |
| Groups.Group.PublishLocked | pkg/sendspin/group.go:189-201 | offers the event to every subscriber, never to a closed channel |
| Groups.Group.SubscribeLocked | pkg/sendspin/group_role.go:143-163 | adds one empty channel, or nothing once closed |
| Groups.Group.Unsubscribe | pkg/sendspin/group.go:154-164 | closes the channel once, however often it is called |
| Groups.Group.AddClient | pkg/sendspin/group.go:206-232 | attaches and announces a new client and tells it the group and its playback state; a no-op otherwise |
| Groups.Group.RemoveClient | pkg/sendspin/group.go:236-249 | detaches and announces a known client, and is a no-op otherwise |
| Groups.Group.Close | pkg/sendspin/group.go:268-282 | closes every subscribed channel exactly once |
| Groups.Group.SetPlaybackState | pkg/sendspin/group.go:288-300 | announces real changes only |
| Groups.Group.RegisterRole | pkg/sendspin/group_role.go:47-71 | stores the role and subscribes the dispatcher the first time |
| Groups.StepInv | pkg/sendspin/group.go:133-300 | every operation keeps the bus invariant |
| GroupEffects.OpenEffects | pkg/sendspin/group.go:206-300 | while open, joining makes present, leaving absent, and setting the state is what the log ends in |
| GroupEffects.SubscriptionEffects | pkg/sendspin/group.go:133-166 | subscribing opens one new channel, unsubscribing closes that one alone |
| GroupEffects.CloseEffects | pkg/sendspin/group.go:268-282 | closing leaves no subscriber, client or open channel, and nothing is published afterwards |
| GroupEffects.RolesAre | pkg/sendspin/group_role.go:51-70 | the roles are the families registered, and the first starts the dispatcher |
| GroupEffects.LogTells | pkg/sendspin/group.go:189-300 | every event of a run's log carries the client, name or state of one of its operations |
| Groups.BusLog | pkg/sendspin/group.go:206-300 | in every reachable state the log alternates and chains; while open, attached clients are exactly those whose last event is a join, and a joiner is told the state the log ends in if and only if that is not empty, otherwise "playing" |
| Groups.EmptyStateIsToldAsPlaying | pkg/sendspin/group.go:222-229 | an input for which the two differ |
| Groups.AlternatesMeans | pkg/sendspin/group.go:206-249 | between two joins of a client lies its leave, between two leaves its join, and it joined first |
| Groups.ChainsMeans | pkg/sendspin/group.go:288-300 | consecutive playback events chain and each changes the state |
| Groups.SubscriberStream | pkg/sendspin/group.go:189-201 | each subscriber has or holds, in order, exactly the events that found room since it subscribed |
| GroupStreams.StreamIsLog | pkg/sendspin/group.go:194-200 | every place of a subscriber's stream is one queued event of the log, in order |
| GroupStreams.StreamAlternates | pkg/sendspin/group_role.go:107-138 | between two joins of a client sent to a subscriber a leave was published, and its stream shows none if and only if every such leave was lost |
| GroupStreams.DispatcherJoinsTwice | pkg/sendspin/group_role.go:107-120 | a run in which the role dispatcher gets the same client's join twice with no leave between |
| Groups.LostOnlyWhenFull | pkg/sendspin/group.go:194-200 | over whole runs, an event is lost to a subscriber if and only if 32 of those queued before it were still waiting |
| Groups.ClosedForGood | pkg/sendspin/group.go:133-282 | a closed channel stays closed and is never sent to |
| Groups.OneDispatcher | pkg/sendspin/group_role.go:64-70 | later registrations leave dispatcher and subscriptions alone |
| Resamplers.CountExact | pkg/audio/resample.go:38-44 | every frame yielded has both neighbours in the chunk, and no more could be yielded |
| Resamplers.LerpBetween | pkg/audio/resample.go:52-53 | a truncated interpolation lies between its two samples, and is the first one at fraction 0 |
| Resamplers.LerpExact | pkg/audio/resample.go:52-53 | the output is a + (b - a)*f cut towards zero, for every f |
| Resamplers.RowBetween | pkg/audio/resample.go:48-54 | every output sample lies between its two neighbours in its own channel |
| ResampledSamples.ResamplesRamp | pkg/audio/resample.go:38-58 | at any ratio a ramp becomes the ramp's value at start + k*ratio, cut towards zero, in its own channel |
| ResampledSamples.ChunkSamples | pkg/audio/resample.go:28-64 | a chunk's samples are those rows, and it carries the fraction of the next position |
| ResampledSamples.DecimateAt | pkg/audio/resample.go:38-58 | decimation by m takes every m-th frame, channel by channel |
| Resamplers.Resampler.Resample | pkg/audio/resample.go:28-64 | output and carried position are those of Chunk, the rest of the output is untouched, the position stays in [0,1) |
| Resamplers.Resampler.OutputSamplesNeeded | pkg/audio/resample.go:73-77 | the estimate used by ChunkDecimates |
| Resamplers.NeededIs | pkg/audio/resample.go:73-77 | the estimate is the whole frames in the input's length over the ratio |
| Resamplers.CountInteger | pkg/audio/resample.go:38-44 | an integer ratio m yields all L frames of m*L exactly when m is at least 2 |
| Resamplers.ChunkDecimates | pkg/audio/resample.go:28-77 | a chunk of m*L frames yields its L estimated frames, decimated, and the position returns to 0 |
| Resamplers.RunDecimates | pkg/audio/resample.go:28-64 | a whole run of such chunks, the position carried along, is decimation of the whole input |
| PcmWire.SampleRoundTrip | pkg/audio/types.go:41-57 | packing and unpacking sign-extends the low 24 bits, and is the identity exactly on the 24-bit range |
| PcmWire.BytesRoundTrip | pkg/audio/types.go:41-57 | unpacking and packing is the identity on every byte triple |
| PcmWire.LittleEndian | pkg/sendspin/server_stream.go:223-231 | on the wire a sample's low 24 bits stand lowest byte first |
| PcmWire.SixteenBits | pkg/audio/decode/pcm.go:40-45 | a 16-bit sample, lowest byte first, becomes the upper 16 of 24 bits |
| PcmWire.Int16RoundTrip | pkg/audio/types.go:31-38 | 16-bit samples survive the trip up and down; the other way exactly 24-bit samples with a zero low byte do |
| PcmWire.EncodePCM | pkg/sendspin/server_stream.go:223-231 | three bytes per sample, in order |
| PcmWire.Decode | pkg/audio/decode/pcm.go:30-48 | every whole sample of the data, a rest of one or two bytes ignored |
| PcmWire.BigEndianRoundTrip | pkg/sendspin/server_stream.go:198 | every int64 timestamp survives its eight bytes |
| PcmWire.BigEndianBytes | pkg/sendspin/server_stream.go:198 | the eight bytes of a timestamp, highest first, in two's complement |
| PcmWire.FrameLayout | pkg/sendspin/server_stream.go:195-211 | type, timestamp, payload: 4 for audio, 8 to 11 for artwork |
| PcmWire.DroppedIff | pkg/protocol/client.go:445-470 | only messages shorter than nine bytes or of another type are dropped |
| PcmWire.AudioFraming | pkg/protocol/client.go:444-459 | a message parses as an audio chunk if and only if it is the frame of that chunk |
| PcmWire.ArtworkFraming | pkg/protocol/client.go:460-466 | the same for the four artwork channels |
| PcmWire.WireRoundTrip | pkg/sendspin/server_stream.go:195-231 | encode, frame, parse, decode: same timestamp, each sample's low 24 bits sign-extended, the identity exactly when all samples are in the 24-bit range |

## Left out

- Floating point: the filter and the resampler work over the reals. Rounding to the nearest integer, truncation and
  floor are exact; rounding errors, overflow to infinity and conversions of out-of-range floats to int64 are not modelled.
- TimeFilters.TimeFilter.Update: the infinite initial variance and NaN are flags beside the real fields; its prediction and correction phases are methods of their own.
- TimeFilters.TimeFilter.ComputeClientTime: Go leaves the conversion of NaN and infinities to int64 to the platform, so that result is a parameter.
- DefinedRuns.RunDefinedIff: a forget factor of zero is covered one update at a time (UpdateDefinedIff), not over whole runs, because forgetting then erases the covariance and the condition depends on every residual.
- Timestamps in the filter, the scheduler and the tracker are unbounded integers; int64 wrap-around is modelled where it
  matters (the backoff, the burst's round trip, the unsynced local time, the frame's timestamp).
- Dialers.ClientDialer.Release: the failure count itself does not wrap at 2^63 failures.
- Locks and goroutine interleavings: every public call is one atomic step. In particular processQueue unlocks its mutex while
  sending, so a concurrent Clear can land in the middle of its loop; the gate and conservation results do not cover that.
- Schedulers.Scheduler.ProcessQueue: the output channel is the sequence of buffers sent; a stop during a send is the parameter `sends`.
- The order of pending metadata with equal timestamps on arrival, of heap ties, and of immediately applied against
  still-pending metadata: the source promises none.
- Groups.Group.PublishLocked: channels are values inside the group, so a receive is an operation of the system rather than of another goroutine. The already closed channel handed out after Close is not given a number.
- Role handlers, GetRole, RouteMessage, and the bodies of the dispatch loop's calls.
- Metadata.TristateRoundTrip: starts from the decoded JSON object; JSON syntax, unknown keys and Go's case-insensitive matching of keys are not modelled.
- The perceptual volume curve is an arbitrary function applied sample by sample; the callback's conversion to device bytes is not modelled.
- FlacSources.FLACSource.Read: the file is its sequence of parsed frames, and the parser's successes and failures are parameters. After a failed parse the model's stream stays where it is.
- FlacSources.DecodeFrame: requires as many samples per channel as the frame announces, without which the source panics.
- Resampling in chunks at non-integer ratios is not the same as resampling the whole; no such claim is made.
- Opus and FLAC coding, WebSockets, mDNS, files, HTTP, device callbacks, TUIs, configuration and logging.
