# NeuroSky pipeline model

A Dafny model of the three-stage biosignal pipeline of the NeuroSky
repository: connectors that read the headset's JSON stream, processors that
window the raw samples and turn them into spectrum slices, and trainers that
feed those slices to a classifier. Also modelled: the identifier registry
that labels recordings, and the small pure helpers of the experiment scripts.

The repository holds several near-duplicate versions of each stage. The model
follows that layout with one module per source file. Shared behaviour is
defined once:

- `Framing` and `Routing`: record framing and the routing of one record.
- `Ingest`: the per-chunk loop.
- `Rate`: the sampling-rate counter.
- `Recorder`: the `record` / `_save` guard.
- `Windowing`: buffer swapping.
- `Spectral`: the artifact gate and the slice arithmetic.
- `Classifier`: an abstract classifier.

Each source file's module wraps these shared parts with its own differences:

- whether the sampling rate is published or stored;
- which exceptions are caught;
- what `close` disposes;
- the slice rule.

**State and steps.** All state is immutable datatypes, and every operation
is a pure step function. An Rx `Subject` is a log of published values plus
a disposed flag: publishing on a disposed subject raises, and disposing
never raises.

**Threads.** Worker threads are run synchronously. These are the
transforms, the training runs and the one-second timer, which becomes an
explicit event. An exception on a worker thread ends that thread: the state
stays as it was at the raise.

**Abstracted inputs.** These become parameters:

- JSON decoding, a partial function;
- the FFT magnitudes;
- the classifier's `fit`, `score` and `predict`;
- random draws;
- directory sizes;
- clock readings.

**Behaviour the model keeps as written.** The code differs from what its
authors evidently meant in these places, and the model keeps the code's
behaviour:

- **The OR-gate.** The processors' artifact gate is a disjunction, not the
  two-sided bound its name suggests. A window is rejected only when one
  sample reaches the threshold and another reaches its negation.
  `Spectral.GateBySamples` states this, and `Spectral.GateAdmitsOneSidedArtifact`
  gives concrete windows.
- **`close` does not stop the processor.** The `close` of
  `src/neurosky/processor.py` sets `_is_open` to true, so buffers keep being
  transformed after it (`SrcProcessor.CloseKeepsSwapping`).
- **`predict` never fires in `neurosky/_trainer.py`.** That file never sets
  `is_previously_trained`, so its `predict` is always a no-op
  (`PkgTrainer.PredictNeverFires`).
- **Fall-through on a disposed subject.** A raw sample that meets a disposed
  `data` subject falls through into the quality branch
  (`Routing.DisposedDataRoutesRawToQuality`).
- **The first wrapped run can stall.** Scoring a classifier that was never
  fitted raises. In that case the first wrapped training run of
  `neurosky/_new_trainer.py` leaves its `_is_training` guard raised for good
  (`NewTrainer.FirstRunStalls`, `NewTrainer.StuckGuardIsPermanent`).
- **`fft_data` is never assigned.** `_trainer.py` reads `fft_data`, which no
  code assigns, so its recording loop raises on the first poll
  (`RootTrainer.MissingFramesStopRecording`).

## Model

| member | source | states |
|---|---|---|
| Recorder.Start | src/neurosky/connector.py:106-117 | `record` starts a fresh, empty recording unless one is running, in which case nothing changes |
| Recorder.Save | src/neurosky/connector.py:119-122 | `_save` clears the recording flag and keeps what was recorded |
| Recorder.StartGuard | src/neurosky/processor.py:113-129 | a second `record` while recording is a no-op; after `_save` a `record` starts afresh |
| Recorder.RecordingHoldsCaptured | src/neurosky/connector.py:106-121 | a recording started from idle holds exactly the values published while it ran, in order |
| JsonValues.Get | src/neurosky/connector.py:90 | a key lookup succeeds exactly on an object holding the key and yields its value; otherwise it raises |
| JsonValues.Size | src/neurosky/connector.py:93 | `len` is defined on objects, arrays and strings and is the key count of an object |
| Framing.StripRepr | src/neurosky/connector.py:84 | `[2:-3]` drops two leading and three trailing characters and clamps short texts to empty |
| Framing.StripReprOfRepr | src/neurosky/connector.py:83-84 | stripping the repr of a separator-terminated chunk gives back its payload |
| Framing.Split | src/neurosky/connector.py:84 | splitting on backslash-r gives at least one segment, none containing the separator, and joining them gives the text back |
| Framing.SplitJoin | src/neurosky/connector.py:84 | splitting the join of separator-free segments gives those segments back (the inverse of the join) |
| Framing.Frame | src/neurosky/connector.py:84 | the segments of a chunk are non-empty in number and rejoin to its stripped text |
| Routing.QualityOf | src/neurosky/connector.py:92-96 | with more than three keys the quality is `eSense.poorSignalLevel`, otherwise the flat `poorSignalLevel`; a failed lookup yields nothing |
| Routing.Classify | src/neurosky/connector.py:88-98 | a record is a sample exactly when it has `rawEeg`, a quality value exactly when it has no `rawEeg` but a quality lookup succeeds, and dropped otherwise (always when undecodable) |
| Routing.Deliver | neurosky/_connector.py:79-90 | on open subjects one record reaches at most one subject as classified; a disposed `data` subject sends the record down the quality branch; logs only grow |
| Routing.DisposedDataRoutesRawToQuality | src/neurosky/connector.py:89-96 | once `data` is disposed, a short raw record that carries `poorSignalLevel` is published as a quality value |
| Ingest.Outcomes | src/neurosky/connector.py:85-98 | every segment of a chunk gets exactly one routing outcome |
| Ingest.OneOutcomePerSegment | src/neurosky/connector.py:85-98 | samples, quality values and drops together number exactly the segments |
| Ingest.SegmentStep | src/neurosky/connector.py:86-98 | one segment bumps the counter by one whatever its fate and appends its routed value to the right log |
| Ingest.IngestSegments | neurosky/_connector.py:77-90 | the loop bumps the counter once per segment, and on open subjects appends exactly the sample values and the quality values in segment order |
| Ingest.IngestChunk | _connector.py:65-79 | a chunk bumps the counter by its segment count and publishes its samples and quality values in order |
| Ingest.AcceptedDraws | src/neurosky/connector.py:69 | the kept draws are the draws strictly inside (-150, 150) |
| Ingest.AcceptedDrawsConcat | neurosky/_connector.py:60-65 | the filter of two runs of draws is the concatenation of their filters |
| Ingest.Generate | src/neurosky/connector.py:67-73 | the debug source publishes exactly the accepted draws, each with one quality value in [0, 100) and one counter increment |
| Rate.Blocks | src/neurosky/connector.py:59-62 | a run has one tick-free block more than ticks, and the blocks hold every increment |
| Rate.ReplayCarry | src/neurosky/connector.py:58-62 | a meter starting from a count reports the block counts, the first including the carried count |
| Rate.ReportsAreBlockCounts | src/neurosky/connector.py:59-62 | each reported rate is the number of increments since the counter was last reset |
| Rate.ReportsAccountForEveryBump | src/neurosky/connector.py:59-62 | one report per tick, and the reports plus the pending count are every increment |
| Rate.ReplayConcat | src/neurosky/connector.py:58-62 | replaying two runs one after the other is replaying their concatenation |
| Rate.ReplayBumps | src/neurosky/connector.py:86 | a run of increments reports nothing and adds its length to the counter |
| SrcConnector.Init | src/neurosky/connector.py:18-49 | a new connector is open with live subjects and a zero counter |
| SrcConnector.Close | src/neurosky/connector.py:128-142 | `close` clears both flags, disposes all three subjects, closes the socket and keeps every log |
| SrcConnector.CloseIdempotent | src/neurosky/connector.py:134-138 | closing twice is closing once, since disposing a disposed subject is swallowed |
| SrcConnector.AfterIngest | src/neurosky/connector.py:111-112 | a running recording receives exactly the samples newly published on `data` |
| SrcConnector.ReceiveChunk | src/neurosky/connector.py:83-98 | a chunk bumps the counter per segment, publishes its samples and quality values, and a running recording captures the samples |
| SrcConnector.ReceiveAll | src/neurosky/connector.py:82-98 | consecutive chunks count every segment of every frame and leave the open flag, the published rates and the subjects' consistency as they were |
| SrcConnector.Stream | src/neurosky/connector.py:76-104 | the read loop stops at once on a closed connector; a connection error closes it and re-raises; logs only grow |
| SrcConnector.Connect | src/neurosky/connector.py:76-104 | a failed connect closes the connector and raises `ConnectionError`; otherwise the read loop runs |
| SrcConnector.StreamPublishesSamples | src/neurosky/connector.py:82-98 | on an open connector a run of chunks publishes exactly their raw samples in arrival order, and the loop keeps waiting |
| SrcConnector.GenerateDebug | src/neurosky/connector.py:64-73 | the debug branch publishes the accepted draws with their quality values and one increment each, and does nothing once closed |
| SrcConnector.TimerTick | src/neurosky/connector.py:58-62 | a timer pass publishes the current count and resets it while the connector is open |
| SrcConnector.PublishedRatesCountSegments | src/neurosky/connector.py:58-62 | every published sampling rate is the number of segments received in that interval |
| SrcConnector.Record | src/neurosky/connector.py:106-117 | `record` starts an empty recording and changes nothing else, or changes nothing while recording |
| SrcConnector.Save | src/neurosky/connector.py:119-122 | `_save` ends the recording and keeps its data |
| SrcConnector.RecordingHoldsStreamedSamples | src/neurosky/connector.py:106-115 | a recording holds exactly the raw samples of the chunks received while it ran |
| PkgConnector.Stream | neurosky/_connector.py:68-95 | any failure in the read loop closes the connector and is not re-raised; a run of chunks keeps the loop waiting |
| PkgConnector.Connect | neurosky/_connector.py:68-95 | a failed connect closes the connector quietly; otherwise the read loop runs |
| PkgConnector.FailuresCloseQuietly | neurosky/_connector.py:93-95 | every failure closes quietly, where the `src` connector re-raises connection errors and dies on others |
| RootConnector.Init | _connector.py:14-30 | a new connector is open with live subjects and a stored rate of 0 |
| RootConnector.Close | _connector.py:86-95 | `close` clears `is_open`, closes the socket, disposes the two subjects and keeps the stored rate |
| RootConnector.CloseIdempotent | _connector.py:86-95 | closing twice is closing once |
| RootConnector.ReceiveChunk | _connector.py:65-79 | a chunk bumps the counter per segment and publishes its samples and quality values |
| RootConnector.Stream | _connector.py:64-84 | every failure closes the connector; a closed connector leaves the loop at once |
| RootConnector.Connect | _connector.py:57-84 | a failed connect closes the connector; otherwise the read loop runs |
| RootConnector.GenerateDebug | _connector.py:45-54 | the debug branch publishes the accepted draws with one increment each |
| RootConnector.TimerTick | _connector.py:37-41 | a timer pass stores the count, not publishing it, and resets the counter while open |
| RootConnector.ReplayStoresLatest | _connector.py:37-41 | over any interleaving the stored rate is the latest report of the meter |
| RootConnector.StoredRateIsLastBlock | _connector.py:37-41 | the stored rate is the segment count of the last completed interval, or 0 before the first tick |
| Monolith.Init | neurosky.py:15-26 | the object starts with an empty batch, no spectrum and a zero counter |
| Monolith.Linspace | neurosky.py:98 | the axis has m points, starting at 0 and ending exactly at the end point |
| Monolith.LinspaceEvenlySpaced | neurosky.py:98 | neighbouring axis points are one step of stop/(m-1) apart, the last step included |
| Monolith.ComputerFft | neurosky.py:93-101 | `computer_fft` empties the batch and leaves a spectrum with one bin per sample and an axis of half as many points |
| Monolith.Segment | neurosky.py:72-88 | a segment bumps the counter and cannot push the batch to 250 |
| Monolith.FeedKeepsRemainder | neurosky.py:69-95 | the batch is always the samples not yet taken by a spectrum, and a spectrum exists exactly once 250 samples arrived |
| Monolith.FeedCountsAndLatest | neurosky.py:72-83 | every segment is counted; `raw_data` is the last routed value and `poor_signal_level` the last quality value |
| Monolith.ReceiveChunk | neurosky.py:70-88 | one chunk counts each of its segments, leaves `raw_data` on the chunk's last routed value, and neither closes the object nor stores a rate |
| Monolith.ChunkBatches | neurosky.py:70-88 | a chunk's samples join the batch modulo whole spectra, and the counter grows by its segment count |
| Monolith.DebugStep | neurosky.py:47-56 | an accepted draw becomes `raw_data` with a random quality and a counter bump; a rejected draw changes nothing |
| Monolith.DebugStepIsSampleSegment | neurosky.py:49-56 | a debug draw enters the batch exactly as a raw-sample segment would |
| Monolith.TimerTick | neurosky.py:36-40 | a timer pass stores the count and resets it while not closed |
| Monolith.KeyPress | neurosky.py:119-124 | ESC (27) closes the object, and nothing else changes |
| Monolith.Run | neurosky.py:36-124 | interleaving the reader loop (lines 69-91), the timer (36-42) and the keypress handler (119-124): under any order of chunks, timer passes and key presses, the object ends up closed exactly when ESC (27) was pressed or it already was closed |
| Monolith.BatchStaysShort | neurosky.py:86-95 | with each FFT thread run synchronously, the batch never reaches 250 samples under any order of chunks, timer passes and key presses |
| Monolith.ClosedIgnoresChunks | neurosky.py:69-88 | once closed, no later event changes the batch |
| Windowing.Remainder | src/neurosky/processor.py:66-70 | what is left after whole windows is shorter than a window |
| Windowing.Chunks | src/neurosky/processor.py:66-83 | every window taken has exactly the window size |
| Windowing.ChunksCover | src/neurosky/processor.py:66-83 | the windows and the remainder are the input, in order, with nothing lost or duplicated |
| Windowing.ChunksConcat | src/neurosky/processor.py:66-83 | taking windows off a prefix first changes neither the later windows nor the remainder |
| Spectral.Max | src/neurosky/processor.py:87 | `amax` bounds every sample and is one of them |
| Spectral.Min | src/neurosky/processor.py:87 | `amin` bounds every sample from below and is one of them |
| Spectral.GateBySamples | src/neurosky/processor.py:86-87 | a window passes exactly when it is non-empty and lies wholly below the threshold or wholly above its negation |
| Spectral.GateAdmitsOneSidedArtifact | neurosky/_processor.py:45-46 | a window with a one-sided large excursion passes; only a two-sided one is rejected |
| Spectral.FreqBelow50 | src/neurosky/processor.py:88-92 | bin k is below 50 Hz exactly when k·fs < 100·n |
| Spectral.BinsBelow50 | src/neurosky/processor.py:88-92 | the closed-form count equals the bin-by-bin count below 50 Hz |
| Spectral.BinsBelow50Correct | src/neurosky/processor.py:88-92 | for positive rates the count is min(n/2+1, (100n-1)/fs+1), and all bins for negative rates |
| Spectral.RoundTen | src/neurosky/processor.py:92 | `round(c, -1)` is a multiple of ten within 5 of c, strictly nearest off ties, even on ties |
| Spectral.SliceSize | src/neurosky/processor.py:89-92 | live mode slices 48 bins; otherwise the count of bins below 50 Hz rounded to a multiple of 10 with ties to the even multiple, as `round(c, -1)` |
| Spectral.DefaultSlice | src/neurosky/processor.py:88-92 | at 250 samples and 512 Hz, 49 bins are below 50 Hz and the slice is 50 |
| Spectral.Slice | src/neurosky/processor.py:94-96 | a Python slice has the clamped length and the elements from its start |
| Spectral.FixedSliceLength | neurosky/_processor.py:47-48 | the `[2:50]` slice is 48 long for spectra of 50 bins or more |
| SrcProcessor.Init | src/neurosky/processor.py:24-34 | the constructor's window 250, threshold 50000000 and rate 512, open with an empty buffer |
| SrcProcessor.Vector | src/neurosky/processor.py:88-98 | an emitted vector is the `[:slice_size]` prefix of the magnitudes: min(slice size, n/2+1) entries, entry k being bin k's magnitude |
| SrcProcessor.Transform | src/neurosky/processor.py:81-99 | `_fft` always empties the buffer; it emits and publishes once exactly when the gate passes on a nonzero rate and an open subject, and raises when the gate passes otherwise |
| SrcProcessor.AddData | src/neurosky/processor.py:66-70 | ignored in batch mode; otherwise appends, and transforms only when the buffer is full and `_is_open` holds |
| SrcProcessor.Fft | src/neurosky/processor.py:72-76 | in batch mode appends all samples and runs exactly one transform, leaving the buffer empty; otherwise nothing |
| SrcProcessor.BatchFftOneVector | src/neurosky/processor.py:72-99 | one batch `fft` makes exactly one gate decision on exactly the given samples |
| SrcProcessor.SetSamplingRate | src/neurosky/processor.py:78-79 | only the rate changes |
| SrcProcessor.Record | src/neurosky/processor.py:113-124 | `record` goes through the shared guard and changes nothing else |
| SrcProcessor.Save | src/neurosky/processor.py:126-129 | `_save` clears the flag and keeps the data |
| SrcProcessor.Close | src/neurosky/processor.py:131-139 | `close` leaves `_is_open` true and disposes `data`, keeping its log |
| SrcProcessor.CloseKeepsSwapping | src/neurosky/processor.py:131-132 | after `close`, `add_data` swaps a full buffer exactly as before |
| SrcProcessor.FeedBuffer | src/neurosky/processor.py:66-83 | fed sample by sample, the buffer is exactly the unfinished window |
| SrcProcessor.FeedWindows | src/neurosky/processor.py:66-99 | fed sample by sample, one vector is published per consecutive full window passing the gate, in order |
| RootProcessor.Init | _processor.py:10-23 | window 250, threshold 150, empty buffer, open subject |
| RootProcessor.FixedRows | _processor.py:38-43 | the two rows have equal length and hold bin i+2's frequency and magnitude at position i |
| RootProcessor.DefaultRows | _processor.py:41-43 | at 250 samples both rows hold 48 entries, entry i at (i+2)·512/500 Hz |
| RootProcessor.Transform | _processor.py:34-43 | the buffer is always emptied; the rows are published exactly when the gate passes and the subject is open |
| RootProcessor.AddData | _processor.py:29-32 | appends, and transforms once the buffer is full |
| RootProcessor.Close | _processor.py:45-47 | disposes the subject and keeps its log |
| RootProcessor.FeedBuffer | _processor.py:29-36 | fed sample by sample, the buffer is exactly the unfinished window |
| RootProcessor.FeedWindows | _processor.py:29-43 | fed sample by sample, the rows of every full window passing the gate are published, in order, and nothing else |
| PkgProcessor.Init | neurosky/_processor.py:13-29 | the same core as the top-level processor, not recording |
| PkgProcessor.AddData | neurosky/_processor.py:35-57 | the recording captures exactly what the step published |
| PkgProcessor.Record | neurosky/_processor.py:51-62 | `record` goes through the guard and leaves the core alone |
| PkgProcessor.Save | neurosky/_processor.py:64-67 | `_save` clears the flag and keeps the data |
| PkgProcessor.Close | neurosky/_processor.py:69-73 | disposes the subject and leaves the recording alone |
| PkgProcessor.FeedRecordsPublished | neurosky/_processor.py:35-57 | a running recording receives exactly what the core publishes meanwhile |
| PkgProcessor.RecordingHoldsWindows | neurosky/_processor.py:35-60 | what a recording holds is the published rows of the full windows that pass the gate |
| Classifier.KindOf | neurosky/_new_trainer.py:37-57 | a name finds its classifier exactly when it is one of the five keys; otherwise `KeyError` |
| Classifier.KindNameRoundTrip | neurosky/_new_trainer.py:37-57 | every classifier is found again under its own name |
| Classifier.Create | neurosky/_new_trainer.py:37-56 | the random forest and AdaBoost start with 100 estimators; none starts fitted |
| Classifier.Fit | neurosky/_new_trainer.py:169 | `fit` succeeds exactly when the oracle says so and yields a fitted model of the same kind |
| NewTrainer.Init | neurosky/_new_trainer.py:33-83 | construction succeeds exactly for the five names, open and untrained with empty lists |
| NewTrainer.AddData | neurosky/_new_trainer.py:91-96 | the pairs are appended in order to both lists; too few labels raise `IndexError` after the unpaired sample went in |
| NewTrainer.AddDataConsistency | neurosky/_new_trainer.py:91-96 | a well-formed call keeps the lists paired and the session a suffix of the cumulative lists; a short one unpairs them by one |
| NewTrainer.ClearData | neurosky/_new_trainer.py:98-102 | empties all four lists and nothing else |
| NewTrainer.FitBody | neurosky/_new_trainer.py:166-190 | only the forest gains one tree; the fit uses the cumulative lists and success sets `is_trained` |
| NewTrainer.TrainUnguarded | neurosky/_new_trainer.py:104-118 | `_train` empties the session lists, keeps the cumulative ones, bypasses the guard and adds no summary |
| NewTrainer.WrappedRun | neurosky/_new_trainer.py:137-164 | skipped while training; a completed run appends one summary entry with the session and cumulative sizes, empties the session and lowers the guard; a raise leaves the guard up |
| NewTrainer.Train | neurosky/_new_trainer.py:120-135 | ignored once closed; sets the identifier; AdaBoost is not dispatched, the others run the wrapped fit |
| NewTrainer.Predict | neurosky/_new_trainer.py:192-198 | publishes exactly one prediction iff trained and not training, unless predicting or publishing raises |
| NewTrainer.Close | neurosky/_new_trainer.py:200-214 | clears `_is_open` and disposes the prediction subject |
| NewTrainer.ClosedTrainerIsInert | neurosky/_new_trainer.py:120-121 | after `close`, `train` changes nothing and `predict` publishes nothing |
| NewTrainer.StuckGuardIsPermanent | neurosky/_new_trainer.py:139-146 | with the guard left raised, no later `train` fits or summarises and `predict` stays silent |
| NewTrainer.FirstRunStalls | neurosky/_new_trainer.py:139-146 | if scoring an unfitted classifier raises, a fresh trainer never becomes trained through `train` |
| PkgTrainer.Init | neurosky/_trainer.py:13-41 | a 100-tree forest, all flags down, empty lists, prediction still the subject |
| PkgTrainer.AddData | neurosky/_trainer.py:55-59 | always sets the current data; appends the pair with the current target iff recording |
| PkgTrainer.FeedAppends | neurosky/_trainer.py:55-59 | frames fed while recording are appended in order with the current target, others leave the lists alone |
| PkgTrainer.Train | neurosky/_trainer.py:61-78 | `train` grows the forest by one tree, always closes the recording window, leaves `is_training` raised exactly when the fit raised, and a fit that succeeds leaves the model fitted |
| PkgTrainer.TrainPhases | neurosky/_trainer.py:61-78 | `train` keeps exactly the frames of its recording window (and of the wait, had a window already been open) with the target, adds one tree, closes the recording, and lowers `is_training` unless the fit raised |
| PkgTrainer.Predict | neurosky/_trainer.py:87-96 | gated on `is_previously_trained` and not training; label 0 gives 'Arms Up', others 'Arms Down'; classifier exceptions are caught |
| PkgTrainer.Close | neurosky/_trainer.py:98-100 | disposes the registered subject |
| PkgTrainer.PredictNeverFires | neurosky/_trainer.py:87-88 | no sequence of calls sets `is_previously_trained`, so `predict` is always a no-op |
| PkgTrainer.ListsStayPaired | neurosky/_trainer.py:55-59 | every kept example has a label in every reachable state |
| RootTrainer.Init | _trainer.py:17-29 | a 100-tree forest, untrained, 'Initialising...', zero counter and empty lists |
| RootTrainer.TrainThread | _trainer.py:39-77 | a training session only ever adds examples and labels, counts itself only when it completes, and a completed session leaves the model trained with status 'Ready...' |
| RootTrainer.Dedup | _trainer.py:48-54 | the recording loop keeps no more frames than it polled |
| RootTrainer.DedupChanges | _trainer.py:48-54 | kept frames have no consecutive duplicates; every polled frame is kept or repeats its predecessor |
| RootTrainer.DedupKeepsChanges | _trainer.py:48-54 | a polled run that changes at every step is kept whole |
| RootTrainer.DedupIdempotent | _trainer.py:48-54 | deduplicating a recording again changes nothing |
| RootTrainer.SessionStatuses | _trainer.py:42-76 | statuses follow Waiting, Recording, Storing, Scoring (only if trained), Training, Ready; a session ending early shows a prefix |
| RootTrainer.CompletedSession | _trainer.py:55-77 | a completed session stores the deduplicated frames with the target, adds one tree and one session, ends trained, and adds a timed confidence entry only if a model existed |
| RootTrainer.SessionKeepsPairs | _trainer.py:55-58 | storing keeps samples and targets equal in length, whether or not the session completes |
| RootTrainer.MissingFramesStopRecording | _trainer.py:44-50 | when polling `fft_data` raises, the session stops at 'Recording Data...' with nothing stored |
| Decimal.NatToString | neurosky/_status_manager.py:33 | `str` of a number is a non-empty digit string without a leading zero |
| Decimal.ParseNat | neurosky/_status_manager.py:33 | a text parses exactly when it is a non-empty digit string |
| Decimal.ParseNatToString | neurosky/_status_manager.py:33 | reading back the decimal text of a number gives the number |
| Decimal.NatToStringInjective | neurosky/_status_manager.py:33 | distinct numbers have distinct decimal texts |
| StatusManager.Init | neurosky/_status_manager.py:9-17 | an empty registry with an open status subject |
| StatusManager.AddIdentifier | neurosky/_status_manager.py:19-26 | appends exactly one identifier whose target is the registry size and whose label index is half the file count |
| StatusManager.DistinctTargets | neurosky/_status_manager.py:19-26 | identifiers registered in order have pairwise distinct targets |
| StatusManager.ParseLabel | neurosky/_status_manager.py:33 | a parsed label starts with the name and an underscore |
| StatusManager.LabelRoundTrip | neurosky/_status_manager.py:33 | the label `name_k` reads back as k |
| StatusManager.LabelsDistinct | neurosky/_status_manager.py:31-33 | different label indices give different labels |
| StatusManager.NextLabel | neurosky/_status_manager.py:28-33 | a registered name bumps the passed identifier's index by one and returns `name_index`; an unregistered one returns None and changes nothing |
| StatusManager.NextLabelsCountUp | neurosky/_status_manager.py:28-33 | successive labels for a registered identifier count up by one and differ |
| StatusManager.UpdateStatus | neurosky/_status_manager.py:35-36 | publishes exactly the given status, or raises once disposed |
| StatusManager.Alerts | neurosky/_status_manager.py:38-49 | no more matches than identifiers |
| StatusManager.AlertsFromBase | neurosky/_status_manager.py:38-49 | with consecutive targets a prediction matches exactly the identifier at its offset, or none |
| StatusManager.AtMostOneMatch | neurosky/_status_manager.py:38-49 | in a registry built by `add_identifier` every prediction announces at most one identifier, the one at that position |
| StatusManager.Close | neurosky/_status_manager.py:51-53 | disposes the status subject |
| UnitTesting.CheckPoorLevel | neurosky/_unit_testing.py:144-152 | the status is 'Poor Signal...' iff the level is positive, else 'Good Signal', and it is printed iff it changed |
| UnitTesting.CheckPoorLevelSettles | neurosky/_unit_testing.py:144-152 | the status depends only on the latest level; a repeated level changes nothing |
| UnitTesting.LoopData | neurosky/_unit_testing.py:85-87 | a non-empty window keeps its length, drops its oldest sample and ends with the new one; an empty one raises |
| UnitTesting.LoopAllSlides | neurosky/_unit_testing.py:85-87 | the window always holds the latest samples of the old window followed by the stream |
| UnitTesting.TogglePrediction | neurosky/_unit_testing.py:89-90 | the mode flips |
| UnitTesting.ToggleTwice | neurosky/_unit_testing.py:89-90 | toggling twice is the identity |
| UnitTesting.Range | neurosky/_unit_testing.py:97 | `range(lo, hi)` in order |
| UnitTesting.SplitPoint | neurosky/_unit_testing.py:94 | the split point never passes the recording count |
| UnitTesting.SplitPartitions | neurosky/_unit_testing.py:93-111 | training and test indices are disjoint and together are 0 … dir_size-1 in order |
| UnitTesting.Examples | neurosky/_unit_testing.py:97-105 | two examples and two labels per recording index |
| UnitTesting.ExamplesAt | neurosky/_unit_testing.py:97-105 | position 2k is the right-arm example of index k with its identifier, 2k+1 the left-arm one |
| UnitTesting.ExamplesConcat | neurosky/_unit_testing.py:97-119 | examples of consecutive index runs concatenate |
| UnitTesting.InitTrainingUsesEveryRecording | neurosky/_unit_testing.py:92-119 | training and test examples together are one right/left pair per recording index, in order |
| Analysis.FirstSection | neurosky/analysing_data.py:22 | the first section is no longer than the input, and is the whole input for one section |
| Analysis.FirstSectionIsCeiling | neurosky/analysing_data.py:22 | the first section holds n/k samples rounded up |
| Analysis.Sections | neurosky/analysing_data.py:22 | `array_split` gives exactly k sections |
| Analysis.SectionsCover | neurosky/analysing_data.py:22 | the sections put back together are the input |
| Analysis.ArraySplit | neurosky/analysing_data.py:22 | a section count of 0 raises; otherwise k sections covering the input |
| Analysis.Tag | neurosky/analysing_data.py:22-23 | each section is paired with the label |
| Analysis.Entries | neurosky/analysing_data.py:20-26 | one recording index gives 2k examples |
| Analysis.Batch | neurosky/analysing_data.py:18-26 | the batch holds 2k examples per recording |
| Analysis.DataBatch | neurosky/analysing_data.py:18-26 | the loop raises exactly when there is a file to split into 0 sections |
| Analysis.EntriesSelect | neurosky/analysing_data.py:20-26 | one index's label-0 sections are its right file and its label-1 sections its left file |
| Analysis.BatchKeepsRecordings | neurosky/analysing_data.py:18-26 | labelling loses, duplicates and reorders nothing: label 0 sections are the right-arm files in order, label 1 the left-arm files |
| Analysis.SplitXY | neurosky/analysing_data.py:47-53 | `split_x_y` returns equal-length lists with X[i] and y[i] taken from data[i] |
| Analysis.SplitXYRoundTrip | neurosky/analysing_data.py:47-53 | zipping what `split_x_y` returns gives its input back |
| Analysis.TrainCount | neurosky/analysing_data.py:114 | `int(0.8·n)` is the largest c with 5c ≤ 4n |
| Analysis.TrainTest | neurosky/analysing_data.py:114 | the training part has the first `int(0.8·n)` items and the two parts rejoin to the batch |
| Analysis.Process | neurosky/analysing_data.py:33-44 | `process` returns one entry per section when it does not raise |
| Analysis.ProcessStep | neurosky/analysing_data.py:35-37 | one batch `fft` cannot raise, keeps the processor ready, and leaves `processed_data` at the section's vector or its old value |
| Analysis.ProcessIsExpected | neurosky/analysing_data.py:33-37 | a ready processor collects exactly the expected entries, one per section, in order |
| Analysis.ExpectedAt | neurosky/analysing_data.py:33-37 | entry i is section i's vector when it passes the gate, otherwise the entry before it |

## Left out

- Threads, `sleep` timing, busy waits (`await_recording`) and the timed `take_until_with_time` windows are left out: transforms, training runs and the timer are synchronous steps, and a recording's end is the explicit `_save` step.
- Sockets (`connect`, `recv`, `sendall`) are left out: a received chunk is given as the text of `str(raw_bytes)`, and the exact escaping of that text is not modelled.
- JSON decoding is an abstract partial function: verifying a JSON parser is outside this model.
- The numeric FFT (`rfft`, `fft`, magnitudes), PCA and FastICA are left out because they are floating-point numerics. Magnitudes are an abstract function of the window, and only lengths, the gate and the integer bin counts are modelled.
- Monolith.BatchStaysShort: the model runs each `computer_fft` thread as soon as it is started. In the program (neurosky.py:54-56 and 86-88) the reader keeps appending, and may start further FFT threads, before the first one empties the batch at line 95, so there the batch can exceed 250 samples.
- Monolith.ComputerFft: the spectrum values are not modelled, only its bin count and axis length. `linspace` is called with the float `batch_size / 2`, which is modelled as the integer half.
- Spectral.FreqBelow50: it compares exact rationals, not the floating-point values `rfftfreq` computes. This can differ only at a bin that lies exactly on 50 Hz.
- Gaussian draws, `randint` and `np.random.shuffle` are inputs, because randomness cannot be modelled. The shuffled order of the analysis batch is a parameter.
- File I/O is left out: `np.save`, `np.load`, `trainer_summary.json`, and the `os.listdir` counts (the `fileCount` and `dirSize` parameters).
- `winsound.Beep` and `print` are left out: they are output only. The beep pitch is kept in `StatusManager.Alert`.
- The key handlers, the GUI, the demos and the package bootstrapping are not part of this model. They are console UI or entry points.
- The `poor_signal_level == 200` and `is 200` checks compare a subject object with a number and never fire. They only print, so they are not modelled.
- Python `is` on strings and small integers is modelled as equality.
- Samples and thresholds are unbounded integers. Floats, and numpy's integer widths, are not modelled.
- The sklearn classifiers are an abstract oracle for `fit`, `score` and `predict`, because their numerics are out of scope.
- NewTrainer.WrappedRun: the summary entry's `training_time` is omitted, because it is a clock reading.
- RootTrainer.TrainThread: the fit time is a parameter (`elapsed`), and the constructor's thread start on the commented-out `predict` (_trainer.py:30), which raises, is not modelled. `RootTrainer.Init` is the state built before that line.
- SrcConnector.Stream: the `sendall` handshake and the verbose prints are not modelled. A failed connect stands for any connection error before the read loop.
- Analysis.Sections: only the section count and the cover are proved. That numpy's section lengths differ by at most one is not proved.
- Analysis.Process: the `pca` and `ica` options are not modelled, since they are floating-point numerics.
- Analysis.TrainCount: modelled as the exact ⌊4n/5⌋. The floating product `0.8 * n` can only differ from it for batches of 2^50 items or more.
- `neurosky/analysing_data.py` and `neurosky/_unit_testing.py` are modelled against the batch-mode processor of `src/neurosky/processor.py`. The processor they import (`neurosky/_processor.py`) does not have that API, and `add_data_batch` exists nowhere.
- `recursive_predict`, `train` and `close_all` of `neurosky/_unit_testing.py` are left out. They drive the connector, the key handler and timed recordings, and only the helpers they call are modelled.
