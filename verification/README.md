# Codarr: a verified model of its core

Codarr re-encodes the files of a media library and replaces each of them in place, which cannot be undone. This
project models the parts that decide what is written and what is destroyed, and proves what they keep.

- **The life of a library file** (`Protocol`, `ProtocolInvariant`, `ProtocolSafety`, `RestartCap`, `RecoveryRule`): the disk, the
  job row, the worker and the restart as one step relation, in which a process death, a cancel, a re-analysis or any
  answer of the stream guard may come between any two steps.
- **The replace itself** (`PromoteTrace`, `Promote`): the calls of a promotion in order, as a class over the disk and
  the row, whose every state is also a state of the protocol.
- **The restart over the whole queue** (`Numerals`, `StagingNames`, `Recovery`): which staging files survive it and
  which leftovers go.
- **The plan compiler** (`Media`, `Policy`, `Decide`, `Argv`, `Ffmpeg`, `Realise`, `Converge`, `ForceEncode`,
  `PlanFacts`, `OutputFacts`, `CommandShape`, `Transform`): a probe becomes a plan, the plan an ffmpeg option list, the option list, interpreted,
  an output, and that output a plan again.
- **The output validator** (`Verify`, `Validator`, `ForcedOutput`): what it accepts, and what it makes of a faithful output.
- **Concrete inputs** on which the exact conditions fail (`Counterexamples`).
- **The schedule** (`Calendar`, `Cron`, `CronBits`, `Text`, `CronParse`, `CronText`): the text of a cron expression,
  the sets of values it denotes, and the search for the next minute they all allow.
- **The encode loop** (`Hardware`, `EncodeLoop`), **the in-flight slot** (`WorkerSlot`), **the error ring**
  (`StderrRing`), and the arithmetic of bitrates, sweeps, estimates and scans (`Bitrate`, `SpaceSweep`, `Estimate`,
  `Scan`).

Code that computes a value is a function with lemmas about it. Code that changes things step by step is a method or a
class, proved against a specification. An answer from outside (the disk, the store, ffmpeg, Plex) is an arbitrary
value, so each result holds for all of them.

## What the proofs rest on

- A rename is atomic, and a failed one changes nothing. Only the program writes its files. A write to the store is one
  transaction. An analysis reads a file's fingerprint and stores it in one step. A job is not restarted by hand while the
  worker still holds it.
- The sparse fingerprint separates contents where a lemma says `Separating`. The library lemmas do not need it.
- ffprobe is a function of a file's content. The primary video stream is known by its position among the video streams.
- ffmpeg does what `Ffmpeg` says of the options used: a stream-addressed option acts on that output stream, the last
  one of a kind wins, hardware surfaces are 4:2:0, a requested profile is honoured, a deinterlacer treats every frame, a Dolby Vision record goes into
  MP4 only with unofficial strictness, and the H.264 level rewrite acts on H.264 only. What an encoder chooses for itself
  is arbitrary, and may differ from one output stream to the next.
- Levels are compared in tenths, and bitrates by exact ratios.
- The clock is UTC. A cron mask is the set of its bits.

## What turned out not to hold

Each of these is proved: by an input or a run that shows it, and by the exact condition.

- **Several audio streams and subtitles together are always refused.** Output indices count within a type, the validator
  sorts by them across types, and the output is grouped by type. A faithful output passes the shape check if and only
  if at most one audio stream is kept or no subtitles (`Validator.OrdersAgree`, `Validator.AcceptableExactly`,
  `Counterexamples.FilmIsRefused`).
- **A landed rename can be requeued.** Analysing a file between its rename and the record of it replaces the recorded
  fingerprint, and the restart then takes the output for the source (`ProtocolSafety.RequeuedAfterReanalysis`). With an
  output staged on another device, a job resumed after its rename goes back to `verifying`, and a second interruption
  requeues it (`ProtocolSafety.RequeuedAfterCrossing`). In every other run it cannot happen
  (`ProtocolSafety.RequeueFindsTheSource`). A job found `verifying` had landed, with no analysis since, exactly when the
  recorded fingerprint is not the library's, which the restart does not look at (`ProtocolSafety.SweptThoughLandedExactly`);
  one requeued after its promotion was looked into had landed exactly when the file was analysed since
  (`ProtocolSafety.RequeuedThoughLandedExactly`).
- **A job can be recorded done with no rename**, exactly when no fingerprint was recorded, the file can be probed, and
  the source already carries the current policy's tags (`ProtocolSafety.DoneWithoutRename`, exact in
  `ProtocolSafety.DoneUnlandedExactly`). The row must have come without a fingerprint from elsewhere: on one the program
  has analysed it cannot happen (`ProtocolSafety.AnalysedDoneMeansLanded`).
- **A cancel can leave a row running.** If it comes between the worker's look at the request and its look at the context,
  the job is taken for one stopped by a shutdown, and its row stays in flight unless its promotion was already recorded
  or another cancel writes it (`WorkerSlot.CancelInTheGap`, exact in `WorkerSlot.LeftInFlightExactly`).
- **A cancelled job can still be promoted.** A cancel that looks for the job after its claim and before it enters the slot
  writes the row, and the run goes on and is recorded done (`WorkerSlot.CancelledThenDone`). A cancelled row can be undone
  exactly while the worker has the job claimed, in its pipeline, unasked on its way out, or about to be marked failed
  (`WorkerSlot.RowCancelUndoneExactly`).
- **An undecidable job's staging file is swept**, though its failure message says that it was left in place. It is kept
  exactly when the sweep does not reach it (`Recovery.Service.Recover`, `Recovery.UndecidableKept`), and the sweep reaches
  every staging file under a root or in the temp directory (`Recovery.StagingIsSwept`).
- **An HLG source is re-encoded as PQ**, by the engine's own plan or a forced one: the plan's transfer field is never set
  (`OutputFacts.TransferKeptExactly`, `OutputFacts.ForcedTransferKeptExactly`).
- **Frames decoded on the GPU keep the depth of the source**, so a ten-bit source that is not HDR reaches an encoder told to
  write eight bits in ten. After a software decode the depth is always the plan's (`OutputFacts.DepthExactly`).
- **Planning does not converge** for a source with interlaced fields planned with an idet answer of "progressive", which
  the job never asks for (`Counterexamples.HiddenInterlacing`, `Converge.AskedForIdetConverges`), and for some Dolby
  Vision profile 5 streams that are not HEVC, which lose their record in MP4 (`Counterexamples.LostRecord`, exact in
  `Converge.PlanningConverges` and `PlanFacts.SettlesExactly`).
- **A cron step near the largest 64-bit integer wraps around** and sets bits below the value it starts from; and `3-3/2`
  is read as `3/2` (`Counterexamples.WrappedStep`, `Counterexamples.OneValueRangeRunsOn`, exact in
  `CronText.PartMeansExactly`).
- **A schedule for the 29th of February, asked at the very start of its own minute, finds nothing**: the four-year limit
  ends just before the match (`Counterexamples.LeapDayMissed`, exact in `Cron.LeapDaySearch`).

## Model

| member | source | states |
|---|---|---|
| ProtocolSafety.LibraryAlwaysSafe | internal/promote/promote.go:162-188 | in every state of every run, with crashes, cancels, re-analyses and guard answers anywhere: the library holds the content it started the run with or a whole output that verification accepted; before the rename it is the attempt's own source; automatic restarts stay under the cap |
| RestartCap.RestartedBelowTheCap | internal/pkg/store/jobs.go:568-623 | a job found running or verifying, or its source intact, is requeued with its count raised by one if it was restarted fewer than three times, and failed otherwise |
| RestartCap.RestartsAreCounted | internal/pkg/domain/job.go:59-61 | between two submissions the count is exactly the number of restarts, of which there are at most three in any run |
| RestartCap.CountStartsAtNothing | internal/pkg/store/jobs.go:344-394 | a job comes to the queue, and is submitted again, with no restarts behind it |
| RestartCap.InterruptedIsFound | internal/pkg/store/jobs.go:396-423 | a job cut short anywhere in the pipeline is found by the next restart, and judged by the policy of the program then running, unless a cancel has ended its row |
| RestartCap.EndsClean | internal/job/worker.go:178-231 | a job that ends without its promotion leaves no staging file, and its row is failed, or cancelled if it was asked to stop |
| ProtocolSafety.OnlyRenameReplaces | internal/promote/promote.go:394-408 | no other step changes the library, and a rename puts there exactly the content verification accepted |
| ProtocolSafety.RestartVerdict | internal/job/recover.go:129-152 | with a fingerprint recorded and readable: "intact" if and only if no rename landed or the file was analysed after it; "promoted" if and only if one landed, was not analysed since, and the library can be probed and carries the current policy |
| ProtocolSafety.DoneUnlandedExactly | internal/job/recover.go:129-164 | a job that was not renamed is recorded done by a restart if and only if no fingerprint was recorded, the file can be probed, and its source carried the current policy's tags |
| ProtocolSafety.RequeueFindsTheSource | internal/job/recover.go:105-125 | a requeued job's library is still its source, unless the file was analysed after the rename or staged on another device; for a job whose output was finished the next two rows say exactly when |
| ProtocolSafety.SweptThoughLandedExactly | internal/pkg/store/jobs.go:527-540 | a job the store requeues from `verifying`, with a fingerprint recorded, had landed and was not analysed since if and only if that fingerprint is not the library's |
| ProtocolSafety.RequeuedThoughLandedExactly | internal/job/recover.go:313-327 | a job requeued after its promotion was looked into had landed if and only if the file was analysed after the rename |
| ProtocolSafety.DoneMeansLanded | internal/job/recover.go:168-229 | with a fingerprint to compare, a restart records a job done only if its rename landed an accepted output, and records that output's fingerprint |
| ProtocolSafety.AnalysedDoneMeansLanded | internal/promote/preflight.go:88-133 | on a row the program has analysed, a restart that looks at an interrupted promotion always has a fingerprint, and records the job done only if its rename landed an accepted output |
| ProtocolSafety.ResumesTheSameBytes | internal/job/recover.go:251-268 | a job resumed after its rename landed holds, and renames again, the very bytes of the library |
| ProtocolSafety.RequeuedAfterReanalysis | internal/pkg/store/media.go:39-94 | for every fingerprint function, a run in which a file analysed between its rename and the record of it is requeued |
| ProtocolSafety.RequeuedAfterCrossing | internal/job/recover.go:356-376 | a run in which a job staged on another device is requeued after its rename, with no analysis in between |
| ProtocolSafety.DoneWithoutRename | internal/job/recover.go:156-164 | on a row that came without a fingerprint, a run in which a job with a tagged source is recorded done and nothing was renamed |
| ProtocolInvariant.StagingStep | internal/job/execute.go:539-570 | every step keeps: a finishing job's staging file is a whole output of its own attempt, and after the rename the library's own bytes |
| ProtocolInvariant.ToldStep | internal/promote/preflight.go:88-133 | every step keeps what the recorded fingerprint tells about the library and its source |
| PromoteTrace.EveryRenameIsGuarded | internal/promote/promote.go:303-329 | in a lawful trace each rename comes directly after a "nobody is streaming"; earlier in the same call come both flushes with no deferral since, a verified output and a source with one link, and no rename or failure |
| PromoteTrace.EveryBlockIsReported | internal/promote/promote.go:362-376 | a blocked answer is followed by its report and a wait, and by nothing else |
| PromoteTrace.EveryWaitIsForABlock | internal/promote/promote.go:362-376 | a wait comes only directly after a block and its report |
| PromoteTrace.FailureBeforeRenameStops | internal/promote/promote.go:162-188 | nothing follows a failure before the rename |
| PromoteTrace.SettledAfterTheRename | internal/promote/promote.go:192-225 | the calls that settle a promotion are exactly those after its rename, and the media server is told only if nothing in the call failed |
| PromoteTrace.FlagsMean | internal/promote/promote.go:162-188 | the watch's flags say what happened since the call under way began, and which flushes no deferral has followed |
| Promote.Promoter.Promote | internal/promote/promote.go:162-188 | for all answers the trace is lawful; it fails exactly if a call failed; it reports a rename exactly if one happened, when the library holds the verified bytes and the identity and full hash are theirs; otherwise library and staging file are untouched |
| Promote.Promoter.LibraryIsSafe | internal/promote/promote.go:159-161 | between any two calls of a promotion the library holds the content its run started with or a whole accepted output |
| Promote.Promoter.Replace | internal/promote/promote.go:303-329 | however often it is deferred: one file moved over the library, or nothing changed; only a block moves the row |
| Promote.Promoter.WaitForStreamEnd | internal/promote/promote.go:331-342 | ends on a free answer, or when the job is cancelled while it waits |
| Promote.Promoter.RecheckAndRename | internal/promote/promote.go:394-408 | a blocked last answer changes nothing; a free one is followed by the rename and nothing else |
| Promote.Promoter.StageOnDestination | internal/promote/promote.go:261-277 | what will be renamed is the verified content, on the library's filesystem; only the sibling file may change |
| Promote.Promoter.OriginState | internal/promote/promote.go:244-257 | succeeds only on a source that could be read and has one link |
| Promote.Promoter.Settle | internal/promote/promote.go:192-225 | whatever fails after the rename, the result says that it happened; only a flawless one notifies |
| Promote.Promoter.Restore | internal/promote/promote.go:412-437 | owner, mode and times are all attempted, and only mode and times can fail it |
| Promote.Promoter.Finalise | internal/job/execute.go:539-570 | nothing is recorded without a rename, and a rename is recorded whatever failed after it, unless the row cannot be written; it fails exactly if a row could not be written, the output could not be probed, or the promotion failed |
| StagingNames.StagingNameInjective | internal/promote/preflight.go:154-155 | two jobs never share a staging name, whatever their extensions |
| StagingNames.BothAreDebris | internal/promote/sweep.go:96-98 | every staging file and write probe is a leftover when unclaimed, and the two are never the same file |
| Numerals.DecimalInjective | internal/promote/preflight.go:136-155 | distinct job ids print differently |
| Numerals.AtoiExactly | internal/ingest/cron.go:207-218 | a text is read as a number exactly when it is one sign or none, then digits that make it, and it fits 64 bits |
| Recovery.Service.Sweep | internal/promote/sweep.go:16-94 | removes only leftovers nothing holds, reports exactly what it removed, and with no failed call leaves no other |
| Recovery.SweptExactly | internal/promote/sweep.go:49-98 | what the sweep reaches: staging files and write probes under a root, and what bears the program's prefix directly in the temp directory; never a file without that prefix |
| Recovery.Service.RecoverPromoting | internal/job/recover.go:105-125 | the row becomes what the verdict says, or stays if a store call failed or a promoted file could not be measured; the staging file goes only on "intact" |
| Recovery.RestartAgrees | internal/job/recover.go:84-125 | for every state an interruption leaves, and whatever the restart meets, the restart over the queue does to the row and to the files what the protocol does, from the store's sweep to the orphan sweep, and resumes the same jobs |
| Recovery.StagingIsSwept | internal/promote/sweep.go:49-98 | the sweep reaches a job's staging file if and only if it lies under a root or in the temp directory |
| Recovery.UndecidableKept | internal/job/recover.go:233-247 | the staging file of a job found undecidable outlives the restart if and only if the sweep does not reach it |
| Recovery.Service.RecoverOne | internal/job/recover.go:84-101 | one of the outcomes allowed for the state found; only this job's staging file may go, and with no failed call it does for an unfinished encode or an intact source |
| Recovery.Service.Recover | internal/job/recover.go:34-69 | every row has its outcome; the jobs resumed are exactly those whose staging file still verifies, and each keeps that file; with no failed store call only they stay in flight, and promoted ones whose file could not be measured; nothing goes but leftovers and the staging files of unfinished encodes and intact sources; with no failed file call none of these remains, and an undecidable job's file is kept if and only if the sweep does not reach it |
| Decide.AssignOutputIndices | internal/decide/engine.go:200-212 | in place, for any order of the list: each kept stream gets the number of kept streams of its type before it |
| Validator.PositionsAreTheIndices | internal/ffmpeg/argv.go:141-167 | those indices are the positions the generator counts in its three passes |
| Validator.AssignedIsIndexed | internal/decide/engine.go:200-212 | and they are 0, 1, 2, ... within each type |
| Argv.ListOutputStreams | internal/ffmpeg/argv.go:141-167 | the three counting passes list the kept streams by type, numbered |
| Argv.Validate | internal/ffmpeg/argv.go:169-212 | the counting loop finds the first of the generator's reasons to refuse, stated over the kept streams: an output without a codec, no mapped video, no mapped audio, or an encode without encoder, bitrate or device |
| Argv.BuildsExactly | internal/ffmpeg/argv.go:94-212 | a command is built if and only if there is something to do, some picture and some sound are kept, every kept stream has a codec, and an encode has encoder, bitrate and device; the error of a refusal names a reason that holds |
| CommandShape.ArgumentOrder | internal/ffmpeg/argv.go:94-137 | the input stands once, after its own options only, and the output last, after its own only; timestamps are made anew exactly for an old container; chapters and tags come along |
| Realise.BuildRealisesThePlan | internal/ffmpeg/argv.go:94-137 | the option list, interpreted, gives one output stream for each kept plan stream, in video, audio, subtitle order, each from its own source with its planned codec, channels, labels and dispositions, and the planned container and tags |
| Realise.BuiltStreams | internal/ffmpeg/argv.go:263-474 | the options in force at each output position are exactly those planned for it, bitrates, peak and buffer included, whatever the other streams' options are; an encode's filters deinterlace exactly as planned and bring the frames where the encoder works, in ten bits for HDR and eight otherwise after a software decode |
| Realise.StreamRealised | internal/ffmpeg/argv.go:263-324 | ffmpeg accepts what one output position asks for, and gives the planned stream |
| Realise.NoDanglingOption | internal/ffmpeg/argv.go:263-324 | no option addresses an output stream that does not exist |
| PlanFacts.PictureDecided | internal/decide/video.go:39-83 | for every plan: the primary video is copied if and only if it is Dolby Vision profile 5, or is not told interlaced and plays but for a level that is right or only overstated; it is deinterlaced if and only if it is encoded and the idet answer, or without one the field order, says interlaced; when the level is rewritten and an idet sample owed, likewise |
| PlanFacts.SoundDecided | internal/decide/audio.go:18-37 | each sound stream is kept under its labels and its ordinal; copied if and only if it plays; else to AAC or surround AC-3 with at most six of its channels at the table's bitrate |
| PlanFacts.SubtitleDecided | internal/decide/subtitle.go:17-44 | each text subtitle is kept, as it is or in the container's codec, and each picture subtitle dropped |
| PlanFacts.KindDecided | internal/decide/engine.go:214-258 | each label of a plan, by an exact condition on the source's streams and container |
| PlanFacts.PlanFails | internal/decide/engine.go:40-82 | planning fails only without a picture, or without sound where there is work |
| PlanFacts.PrimaryIsFirst | internal/ffprobe/result.go:305-314 | the primary video is the first that is not cover art, if there is one |
| PlanFacts.SettlesExactly | internal/decide/engine.go:94-110 | the condition of `Converge.PlanningConverges`, read off the source's own fields |
| PlanFacts.ExtensionKept | internal/decide/policy.go:109-117 | an MP4 source's output keeps its extension, any other's is mkv |
| PlanFacts.LevelsInTenths | internal/ffprobe/result.go:226-241 | a level in tenths, for H.264 and HEVC alike |
| Converge.PlanningConverges | internal/decide/engine.go:40-82 | planning the output of a plan succeeds, and says "nothing to do" if and only if the source settles, a condition on its fields and the idet answer |
| Converge.AskedForIdetConverges | internal/job/execute.go:290-314 | as the job uses it, for HEVC profile 5 and all other sources, that condition always holds |
| Converge.PlanIsSourced | internal/decide/engine.go:112-181 | every plan the engine makes suits the probe it was made from |
| Converge.EveryPlanBuilds | internal/ffmpeg/argv.go:94-212 | a plan the engine makes is accepted by the generator if and only if there is something to do, given the encoder's own needs |
| ForceEncode.ForceVideoEncode | internal/decide/video.go:220-257 | the cloning loop computes the forced plan |
| ForceEncode.RefusesExactly | internal/decide/video.go:220-257 | it refuses exactly Dolby Vision profile 5 and a plan that keeps no video |
| ForceEncode.ChangesOnlyTheVideo | internal/decide/video.go:220-257 | the first kept video is encoded to HEVC and all other decisions and every output index stay; the kind is video, plus the audio and subtitle work, plus a remux exactly when the container changes |
| ForceEncode.ForcingIsIdempotent | internal/decide/video.go:220-257 | forcing twice is forcing once |
| ForceEncode.ForcedPlanConverges | internal/job/execute.go:137-172 | the forced plan's output is planned as "nothing to do", under an exact condition |
| ForcedOutput.ForcedPlanBuilds | internal/ffmpeg/argv.go:169-212 | a forced plan is built if and only if the source has sound, given the encoder's own needs |
| Verify.SortSorts | internal/promote/verify.go:250-264 | the sort by output index orders and loses nothing |
| Verify.SortIsStable | internal/promote/verify.go:250-264 | and keeps the order of equal indices |
| Verify.ExpectedStreams | internal/promote/verify.go:250-264 | the filter and sort give the expected order |
| Verify.VerifyAudio | internal/promote/verify.go:129-155 | the loops find exactly the first missing language, or no audio |
| Verify.VerifyOutput | internal/promote/verify.go:40-72 | it accepts if and only if all six checks pass, stops at the first that fails, and returns the warnings of those that passed on both paths |
| Verify.AcceptedMeansPlanned | internal/promote/verify.go:111-155 | an accepted output has the planned number of streams of each type, some audio, and every kept audio language |
| Verify.DurationExactly | internal/promote/verify.go:76-109 | the duration check passes if and only if the output's length is within one hundredth of a known source length, or for an old container of what ffmpeg says it wrote; only the latter warns |
| Verify.AcceptsExactly | internal/promote/verify.go:40-72 | for any output: accepted if and only if its length is right, its stream types are the planned ones in order, it has every kept language in whatever case, a copied video kept all that was known of it, profile 5 kept its record, and an encode did not grow the file |
| Verify.WarningsTell | internal/promote/verify.go:40-72 | the warnings of an accepted output: a length that is not the source's, and a lost record |
| Validator.OrdersAgree | internal/promote/verify.go:111-127 | the expected order is the output's if and only if at most one audio stream is kept or no subtitles |
| Validator.ShapeOfFaithfulOutput | internal/promote/verify.go:250-264 | the shape check on the faithful output of a plan, with the same condition |
| Validator.FaithfulOutputAccepted | internal/promote/verify.go:40-72 | the whole validator accepts a faithful output if and only if: its length is right, at most one audio stream or no subtitles, no profile 5 record lost, and no re-encode grew the file |
| Validator.EverySoundIsKept | internal/decide/audio.go:18-37 | the engine never drops audio |
| Validator.TextIsKept | internal/decide/subtitle.go:17-44 | it keeps subtitles if and only if some are text |
| Validator.AcceptableExactly | internal/promote/verify.go:40-72 | the validator on the faithful output of a source: accepted if and only if the source is acceptable, read off its own streams, its length is right and no re-encode grew the file |
| ForcedOutput.ForcedAcceptableExactly | internal/promote/verify.go:40-72 | the validator on the faithful output of a forced re-encode: accepted if and only if the source has at most one sound track or no text subtitles, its length is right and the file did not grow |
| Counterexamples.FilmIsRefused | internal/promote/verify.go:250-264 | a file with two sound tracks and a text subtitle is planned, encoded faithfully and refused |
| Counterexamples.HiddenInterlacing | internal/decide/engine.go:94-110 | an interlaced file planned with an idet answer of "progressive" is planned for work again |
| Counterexamples.LostRecord | internal/ffmpeg/argv.go:310-324 | a non-HEVC profile 5 file in MP4 loses its record, is refused, and would be planned for work again |
| Counterexamples.WrappedStep | internal/ingest/cron.go:171-174 | minute 59 with a step of the largest integer sets minute 57 |
| Counterexamples.OneValueRangeRunsOn | internal/ingest/cron.go:167-169 | `3-3/2` sets minute 5 |
| Counterexamples.LeapDayMissed | internal/ingest/cron.go:78-97 | asked at 04:00:00 on any leap day with another four years on, the schedule finds nothing and the limit itself is allowed |
| OutputFacts.OutputIsTagged | internal/job/recover.go:156-164 | every output carries both tags a restart looks for, under the request's policy and no other, and without either would not be recognised |
| OutputFacts.TransferKeptExactly | internal/ffmpeg/argv.go:476-484 | a re-encode under the engine's plan keeps the transfer if and only if the source is not HLG |
| OutputFacts.ForcedTransferKeptExactly | internal/decide/video.go:220-257 | the same for a forced re-encode |
| OutputFacts.InterlacedComesOutProgressive | internal/ffmpeg/argv.go:326-356 | under the engine's plan a picture comes out progressive, whatever it is, if it is encoded and told interlaced by the idet answer or without one by its fields, and else as it is; told so it is encoded, but for profile 5 |
| OutputFacts.ForcedComesOutProgressive | internal/job/execute.go:137-172 | the same for a forced plan |
| OutputFacts.DepthExactly | internal/ffmpeg/argv.go:358-382 | an encoder is told main10 exactly for HDR, and given frames of that depth if and only if they were decoded in software or have it in the source |
| Transform.MergeAudio | internal/decide/transform.go:234-251 | in place: each track's after becomes the measurement at its output index; nothing else changes |
| Transform.MergeSubtitles | internal/decide/transform.go:253-264 | the same for subtitles |
| Transform.OutputAtIndex | internal/decide/transform.go:266-272 | what is measured at a track's index is the output stream mapped from that track's own source |
| Transform.RecordsTheSource | internal/decide/transform.go:137-198 | the before half of every track is the source stream as it was |
| Transform.AudioMeasuredAsPredicted | internal/decide/transform.go:137-173 | on a faithful output the measured codec and channels are the predicted ones, and merging changes a track's record if and only if it was encoded and the encoder gave it a profile |
| Transform.SubtitleMeasuredAsPredicted | internal/decide/transform.go:175-198 | the same for subtitles |
| Calendar.DayOfDate | internal/ingest/cron.go:113-119 | the day number of the date of a day is that day |
| Calendar.DateOfDay | internal/ingest/cron.go:113-119 | the date of the day number of a date is that date |
| Cron.Next | internal/ingest/cron.go:78-97 | the result is after t, allowed, before the limit, and no minute between is allowed; with no result, no minute before the limit is |
| Cron.DayFieldsJoin | internal/ingest/cron.go:99-111 | with both day fields restricted a minute is allowed if and only if it is with either one freed, and otherwise if and only if it is with each |
| Cron.OneDayField | internal/ingest/cron.go:99-111 | with one day field freed, a minute is allowed exactly by month, the other day field, hour and minute |
| Cron.MondayAsWellAsTheFirst | internal/ingest/cron.go:99-111 | `0 4 1 * 1` is met at 04:00 on Monday the 8th of January 2024 |
| Cron.LeapDaySearch | internal/ingest/cron.go:78-97 | a leap-day schedule asked at its own minute finds the next one if and only if that is four years on and some of the minute has passed |
| Cron.DailyMatches | internal/ingest/cron.go:99-111 | a single daily time is met exactly at that time of every day |
| CronBits.Bits | internal/ingest/cron.go:171-174 | the 64-bit loop sets the values a step apart, and those a wrapped step comes back to |
| CronBits.StraysExactly | internal/ingest/cron.go:171-174 | there are none of the latter if and only if the start is below twice the step's distance from the largest integer, plus two |
| CronParse.ParseField | internal/ingest/cron.go:125-146 | the loop over comma parts computes the field's set |
| CronParse.FieldMeans | internal/ingest/cron.go:125-146 | a field is refused exactly when a part is; a bit is set exactly when some part sets it |
| CronParse.ParseCron | internal/ingest/cron.go:37-74 | five fields in order, 7 read as Sunday too, the first bad field refusing the whole |
| CronText.PartMeansExactly | internal/ingest/cron.go:148-205 | every written value, range or star, with or without a step, is read with its crontab meaning, if and only if it is not a one-value range whose step reaches on, nor a step that wraps |
| CronText.EveryPartMeans | internal/ingest/cron.go:148-218 | every text the parser accepts for a part, signs and leading zeros included, stands for a written form and is read as that form is |
| CronText.ParsesAsWritten | internal/ingest/cron.go:37-74 | writing an expression and parsing it gives back its meaning, field by field |
| CronText.SundayIsSevenToo | internal/ingest/cron.go:37-74 | the days of a written weekday field are its values, and Sunday for a 7 |
| CronText.DefaultIsDaily | internal/ingest/cron.go:15-15 | the default expression is met once a day, at 04:00 |
| EncodeLoop.Task.Encode | internal/job/execute.go:374-405 | the runs are a prefix of the ladder, each once, every one before the last having failed; the last decides the outcome, and it gives up only at the ladder's end; a command that cannot be built stops it before any run, and no later command can fail so |
| EncodeLoop.Task.StepBack | internal/job/execute.go:409-442 | one rung down, or the end of the ladder |
| EncodeLoop.JobLadder | internal/hardware/hardware.go:159-262 | at most five runs, no encoder and decode path twice, libx265 last for a video encode, no hardware encoder whose probe failed, one run when video is copied |
| EncodeLoop.LadderExactly | internal/hardware/hardware.go:159-262 | the runs of a video encode are exactly: QSV if its probe worked, VAAPI if its probe worked, each in hardware decode first where silicon, and for VP9 the driver, decode the source; then libx265 |
| Hardware.WorksExactly | internal/hardware/hardware.go:125-140 | a question is answered yes exactly if the first probe that asked it worked |
| EncodeLoop.NoAttemptTwice | internal/job/execute.go:409-442 | the same for any rung |
| EncodeLoop.FallbackBuilds | internal/ffmpeg/argv.go:197-212 | if the first command can be built, so can every fallback |
| WorkerSlot.ClosesAfterTheRow | internal/job/service.go:137-143 | a run's channel is closed once, and only after its row reached done, failed or cancelled, or was left in flight with nothing recorded, by a shutdown or a late request |
| WorkerSlot.OneInFlight | internal/job/execute.go:59-80 | in every interleaving: the slot holds the worker's run only; each job has at most one run; the row of every run that left is done, failed or cancelled, or was left in flight; a failed row was not first asked to stop in time |
| WorkerSlot.AskedInTimeIsCancelled | internal/job/worker.go:178-192 | the row of a run first asked to stop in time, whatever calls come later, is cancelled, or done if its promotion was recorded; it is never failed |
| WorkerSlot.CancelInTimeWins | internal/job/worker.go:120-192 | a cancel that finds its job in the pipeline, or before the worker's first look, has it cancelled or done by the time the worker lets it go, whatever other cancels come before or after |
| WorkerSlot.CancelReturnsAfterTheJob | internal/job/worker.go:120-160 | a cancel that found its job in flight, and was not itself given up, returns only once the worker no longer holds the job and its row is settled |
| WorkerSlot.LeftInFlightExactly | internal/job/execute.go:67-79 | short of a shutdown, the row of a run that left has not ended if and only if the request fell between the worker's two looks, nothing was recorded, and no other cancel wrote the row |
| WorkerSlot.CancelInTheGap | internal/job/execute.go:67-79 | a run in which a cancel returns and the row stays running with no worker |
| WorkerSlot.RowCancelSticks | internal/job/worker.go:130-137 | a cancelled row stays cancelled once the worker does not hold the job or is past writing its row |
| WorkerSlot.RowCancelUndone | internal/job/execute.go:59-80 | every run that ends with a cancelled row the worker may still write extends to one in which the row is not cancelled |
| WorkerSlot.RowCancelUndoneExactly | internal/job/execute.go:59-80 | so a cancelled row can be undone if and only if the worker holds the job and may still write its row |
| WorkerSlot.CancelledThenDone | internal/job/execute.go:59-64 | a run in which a job cancelled between its claim and the slot is recorded done all the same |
| WorkerSlot.NoneForgotten | internal/job/worker.go:45-71 | a promotion to resume is at any time still pending, in the worker's hands, run, or cancelled for good |
| WorkerSlot.ResumedExactly | internal/job/worker.go:45-71 | taking one up leads into a run if and only if its row has not been cancelled |
| WorkerSlot.NoneClaimedAfterShutdown | internal/job/worker.go:16-43 | after a shutdown no job is claimed |
| StderrRing.Ring.Write | internal/ffmpeg/progress.go:186-202 | the ring stands for the log so far plus these bytes, so the cut into writes does not matter |
| StderrRing.Ring.Lines | internal/ffmpeg/progress.go:219-236 | the last lines that ended, in order, without carriage returns, then the unfinished one |
| StderrRing.PushHolds | internal/ffmpeg/progress.go:204-215 | overwriting the oldest slot keeps the last lines in order |
| StderrRing.LogSnoc | internal/ffmpeg/progress.go:186-202 | one byte completes a line or lengthens the unfinished one, against the log split at newlines |
| StderrRing.TrimExactly | internal/ffmpeg/progress.go:186-202 | a line loses all carriage returns at its end and nothing else |
| Bitrate.OrderStatistic | internal/ffmpeg/bitrate.go:156-171 | the k-th smallest sample is at most b if and only if more than k samples are |
| Bitrate.MedianExactly | internal/ffmpeg/bitrate.go:156-171 | the median is the mean of the two middle order statistics, which are one for an odd number |
| Bitrate.TargetExactly | internal/ffmpeg/bitrate.go:104-152 | the target is five quarters of the median, or the bound it passes: the width's floor and ceiling, or 85% of a known source bitrate unless the floor is higher |
| Bitrate.TargetFollowsSamples | internal/ffmpeg/bitrate.go:104-111 | the order of the samples does not matter, and a higher sample never lowers the target |
| Bitrate.TargetInBounds | internal/ffmpeg/bitrate.go:143-152 | between the resolution's floor and ceiling, and at most the larger of the floor and 85% of a known source bitrate |
| SpaceSweep.Projection | internal/job/bulk.go:276-305 | a candidate's saving is positive, above the threshold and at most the file |
| SpaceSweep.CandidateExactly | internal/job/bulk.go:276-305 | a file is a candidate if and only if a lower target frees more than 35% of it, and its saving is the most whole bytes it frees |
| SpaceSweep.Run | internal/job/bulk.go:170-212 | wherever it stops, the totals are the candidates' and current is projected plus saving |
| Estimate.Estimator.Record | internal/job/estimate.go:123-152 | a positive observation joins its own kind's history and no other's, unless the statistic could not be read or written, and every stored average stays that of its own history |
| Estimate.Estimator.StaysBetween | internal/job/estimate.go:105-119 | the average a prediction reads lies between the least and greatest observation of its own kind of work |
| Estimate.AverageStaysWithin | internal/job/estimate.go:123-152 | the average lies between the least and greatest observation, over at most 21 samples |
| Estimate.AverageIsMean | internal/job/estimate.go:123-152 | over the first 21 observations the average is their mean |
| Estimate.OneInTwentyOne | internal/job/estimate.go:123-152 | after that each observation counts for one part in 21 |
| Estimate.ConvergesOn | internal/job/estimate.go:123-152 | k observations of one value bring the average within (20/21)^k of the distance |
| Scan.Scanner.Visit | internal/ingest/scan.go:205-254 | a walked file raises exactly one of five counts, unless the scan is stopped; it is left alone if and only if its row is current and has its size and time |
| Scan.ByPathExactly | internal/ingest/scan.go:148-152 | a file is compared with the last known row at its path |
| Scan.Scanner.ScanRoot | internal/ingest/scan.go:132-163 | the counts balance when the scan was not stopped; a scan that was stopped, an unreadable root or a failed walk sends no row as missing, and a scan that sends any sends exactly those `Scan.GoneExactly` describes |
| Scan.GoneExactly | internal/ingest/scan.go:268-299 | a row is sent as missing if and only if its file was not reached, was not already missing, and has a stat that fails |

## Left out

- HTTP, events, metrics, logging and reason texts: they carry no state the modelled code reads.
- Radarr, Sonarr and Plex: only the stream guard's answer and the notification's outcome remain, as arbitrary values.
- ffmpeg and ffprobe are not executed; `Ffmpeg` interprets the options Codarr emits and no others.
- Policy hashing and fingerprint computation: opaque values.
- SQL: each store call is one atomic step. Priorities and the order of the queue are not modelled.
- The planners' append loops are sequences of per-stream plans; the order is theirs.
- Attachments and chapters of a file, and audio layouts and measured bitrates in the transform record.
- CronParse.ParseCron: error texts are not told apart; any unreadable expression is None.
- Promote.Promoter.Promote: what verification looks at is in `Verify`, including its warnings; here its answer is arbitrary, and failures are not told apart by code.
- Recovery.Service.Recover: what a library file shows is arbitrary here; what it shows in a real run, and whether the verdict is right, is in the protocol. Directories named like staging files are not modelled.
- Recovery.Service.Sweep: the removed paths are a set, not a sorted list.
- EncodeLoop.Task.Encode: the recorded fallback reasons are left out.
- WorkerSlot.OneInFlight: store writes succeed; a manual restart of an ended job, which starts a new life of its row, and the pause are left out.
- Transform.AudioMeasuredAsPredicted: layout and bitrate of a sound track, the video track's prediction, sizes and durations are left out.
- Scan.Scanner.ScanRoot: the rate limit is only a place where the scan may be stopped.
- The fallback bitrate formula, the progress parser, the throttle and filename exclusions: case analysis without an invariant across calls.
- The duration check's tolerance is part of `Verify`; no lemma says when a faithful output meets it, because that depends on the container's clock.
