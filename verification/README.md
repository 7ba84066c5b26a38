# NovaBrief: a verified model

NovaBrief records a meeting on a desktop, sends the recording to a server in parts, has it
transcribed and analysed by workers, and publishes a report. This project models that path in
Dafny and proves what it promises: that the object the server ends up holding is the recording,
byte for byte, through any interruption; that a meeting's state, transcript, report and charge
always agree; that the segments of a recording are one unbroken Ogg stream; and the laws of the
smaller mechanisms around it.

Each mechanism has two layers. Functions over values say what one step does. Classes and methods
do the same step by step, with the source's fields, loops and early returns, and their contracts
equate the new state with the function of the old one. The lemmas about runs are about the
functions.

## How the model is laid out

| files | what they model |
|---|---|
| `Assembly` | weighing a recording and cutting it into parts; the slots the server signs |
| `ObjectStore`, `Meetings`, `MeetingServices` | the multipart store; the meeting services, the worker stages and their transactions, as functions and as assigned attributes |
| `Lifecycle`, `Retention`, `Decisions` | what every serial run of those transactions keeps; when a recording comes due, and that it is then gone; exactly which requests and stages succeed, and what they bill |
| `Uploads`, `Uploader` | one attempt to send a recording, as a function of every fault, and as it runs |
| `Isolation`, `UploadSafety`, `UploadProgress` | what interrupted attempts keep, and when an attempt succeeds |
| `Billing` | overlapping analysis tasks on the same rows |
| `Recording`, `Tape`, `SegmentWriter`, `Finished` | frames, packets, pages and segments: the formula, the steps, the running writer, the facts about the result |
| `Mixer`, `Endpoints`, `Capture` | two captures into one stereo stream; the resampler and the bounded queue; the session and the capture loop |
| `EndToEnd` | from recorded audio to the stored object |
| `Tokens`, `Rotation`, `Account` | refresh-token rotation on the server, serial and with requests that overlap; the desktop that renews under a lock |
| `RateLimits`, `Router`, `Segments`, `Deadlines` | the two rate limiters; the supplier chain; transcript merging and source checking; calendar arithmetic |

## What is taken as given

- The codec, the sink, the resampling filter and the digest are arbitrary functions of
  everything they were given so far, so they may keep any state and may refuse. The muxer's page
  layout is an arbitrary predicate and a page's bytes an arbitrary function of the page.
- Every call that can fail is a parameter of the step it belongs to: a request lost, an answer
  lost, a store that refuses or breaks with or without having acted, a commit that is rolled back,
  a file that cannot be written. A crash is an attempt that stops at that call.
- A progress record is saved whole or not at all
  (`apps/desktop/src-tauri/crates/uploader/src/progress.rs`); a recording does not change once it
  is finished, except that a segment may become unreadable at any time, and then stays so; the
  server's part size is constant.
- The store answers a deletion whether or not the object is there, and refuses to complete or to
  abort an upload it does not have, as S3 does.
- A network call may also be answered 401 or 403 before any service runs, when its access token
  has expired, or succeed with an answer that cannot be understood.
- `Billing` runs PostgreSQL's default isolation: a statement reads what is committed, an updated
  row stays locked until its transaction ends, and a unique constraint is checked at the flush.

## What the proofs turned up

- **A limit met exactly.** The comment in `apps/api/app/ratelimit.py:13-16` says a fixed window
  lets through up to twice the limit. The exact maximum in a half-open minute is one less
  (`RateLimits.AnyMinuteIsBounded`, `BoundIsMet`).
- **Merging can lose coverage, and reports.** A merged window can be narrower than a fragment it
  absorbed, and a timestamp that was accepted then points nowhere (`Segments.StartsMatter`).
  `CoveredIff` and `SourcesKeptIff` give the exact conditions on the transcript, and
  `MomentsStayAccepted` what holds regardless.
- **A day number may have a later date all the same.** "The 30th" said on 31 January has no
  deadline, because only one month is tried (`Deadlines.ThirtyAfterTheThirtyFirst`). The words
  "next" and "prochain" beside a weekday change nothing (`FirstSuchWeekday`).
- **The start skew can be put in late.** It goes in front of whatever is queued, not of what was
  already emitted. It ends up in front of the recording exactly when everything the late side had
  emitted by then is silence (`Mixer.SkewIsInFrontIff`). Stamped chunks are enough, since then
  nothing was emitted (`SkewGoesFirst`); `UnstampedSkewComesLate` is a run where it fails.
- **Finalize checks the state last.** The store is asked to assemble before the transition table
  is consulted. A meeting that failed is safe from it because no signed slot exists for an upload
  its row does not name (`Lifecycle.FinishIsSafe`).
- **Two windows strand an upload for good.** One is a start that took effect while no record of
  it was written down (`UploadProgress.LostStartStrands` says exactly when), the other a record
  whose upload the server no longer waits for, as after a finish whose answer was lost. From
  either, as once a segment cannot be read, no run of attempts ever delivers the recording
  (`OutOfReachForGood`); from everywhere else a fault-free attempt does (`DeliveredIffInReach`).
- **An access token that expires during an attempt is reported as a fault that does not pass.** The
  client reads 401 and 403 as a session that is over, and the queue shows the recording as
  abandoned, although it stays owed and the next pass would deliver it
  (`UploadProgress.ExpiredTokenAbandons`). `UploadSafety.AbandonedIff` says exactly when an attempt
  ends so.
- **Deleted recordings can stay in the store for good.** When the store lets go of an upload and the
  transaction that should say so does not commit, or the answer is lost, the row goes on naming it.
  Once the meeting is cancelled or deleted, every sweep asks to abort that upload, is refused, and
  never gets to the object (`Retention.LeakingRun`, `LeakedForGood`). All other due meetings are
  purged (`SweepLeavesNothingRemovable`).
- **Overlapping refreshes are not one.** Nothing is locked between looking a token up and writing
  its use, so two refreshes of one token can both succeed and a refresh can outlive a revocation
  (`Rotation.OverlapLeavesTwo`). `LateExchangeIff`, `StepKeepsOneLiveIff` and `RevocationHoldsIff` say
  exactly when.
- **The limiter's breaker lets through all that are waiting.** In an outage not three requests of any
  ten seconds wait for the shared store but two more than may wait at once, and more still if calls
  that began earlier fail late, since the pause is counted from a call's beginning
  (`RateLimits.OutageIsBounded`, `OutageBoundIsMet`, `LateFailuresSpendAll`).
- **A renewal that is not written down ends the session.** So does a `restore` that overlaps one
  (`Account.UnwrittenAnswerEndsTheFamily`, `RestoreMustBeAlone`).
- **After a refused write the tail may be cut.** `finish` keeps at most one frame of what is left
  (`Tape.TailKeptIff`); while no write was refused there is never more, and after a refusal there
  can be (`SegmentWriter.RefusedWriteLosesTail`).

## Model

| member | source | states |
|---|---|---|
| `Assembly.CutPiece` | apps/desktop/src-tauri/crates/uploader/src/assembly.rs:95-109 | part `k` is the `k`-th slice of the plaintext; every part but the last is full, none is empty |
| `Assembly.SlotsMatchParts` | apps/api/app/storage.py:96-105 | the client's parts are as many as the slots the server signs, for exactly the sizes it accepts, and concatenate to the recording |
| `Assembly.Measure` | apps/desktop/src-tauri/crates/uploader/src/assembly.rs:39-55 | weighs and hashes exactly the plaintext, and answers exactly when every segment can be read |
| `Assembly.Parts.NextPart` | apps/desktop/src-tauri/crates/uploader/src/assembly.rs:95-109 | the next piece of what was not handed out yet; nothing exactly at the end, an error exactly when a segment it needs cannot be decrypted |
| `Assembly.HandOver` | apps/desktop/src-tauri/crates/uploader/src/assembly.rs:58-109 | calling it until it stops gives the whole cut, for any segmentation; with an unreadable segment, the full parts before it and then the error |
| `Assembly.DamagedFits` | apps/desktop/src-tauri/crates/uploader/src/lib.rs:390-397 | segments that become unreadable shorten the list of parts handed over and change nothing else |
| `ObjectStore.CompleteStoresTheData` | apps/api/app/storage.py:251-275 | completing with the tags of all the slices stores the data, and is accepted exactly when every listed part is still the confirmed one |
| `ObjectStore.AssembleSuffix` | apps/api/app/storage.py:251-275 | parts listed in order are joined in order; one missing or replaced part refuses the whole |
| `ObjectStore.ReplacedIsRefused` | apps/api/app/storage.py:251-275 | a part that was sent again is confirmed by its new tag only, and leaves the other parts alone |
| `MeetingServices.StorageProvider.CompleteMultipart` | apps/api/app/storage.py:251-275 | the store's completion as its dictionaries are updated, with every way the call can end |
| `MeetingServices.Advance` | apps/api/app/services/meetings.py:135-194 | a move in the table sets the status, its timestamps and one audit entry; any other changes nothing |
| `MeetingServices.StartUpload` | apps/api/app/services/meetings.py:392-435 | what is declared, the move to UPLOADING and the upload's identifier, or the refusal and what the store was left with |
| `MeetingServices.Finalize` | apps/api/app/services/meetings.py:478-568 | assembly, size check, retention clock and quota gate in the source's order, with each refusal and its effect on the store |
| `MeetingServices.Abandon` | apps/api/app/services/meetings.py:571-597 | an abort that fails never keeps the meeting from being cancelled |
| `MeetingServices.Retry` | apps/api/app/services/meetings.py:605-651 | a failed meeting goes back to the stage whose input survives; nothing else is retried |
| `MeetingServices.DropRecording` | apps/api/app/services/meetings.py:744-769 | the upload first, then the object; an abort that is refused, as for an upload the store no longer has, leaves both; answers whether the store is clean |
| `MeetingServices.PurgeDueAudio` | apps/api/app/services/meetings.py:665-741 | the loop over the due meetings equals the sweep function, row by row and entry by entry |
| `MeetingServices.Books.Consume` | apps/api/app/services/usage.py:63-125 | the charge is refused without a trace or added whole, and only an allowed overshoot passes the quota |
| `MeetingServices.TranscribeMeeting` | apps/api/app/services/transcription.py:127-191 | the stage's moves, checks and transcript, or the failure it records, or the exception that rolls it back |
| `MeetingServices.AnalyseMeeting` | apps/api/app/tasks/analysis.py:43-123 | report, charge, ledger entry and publication together or not at all |
| `Lifecycle.StepKeeps` | apps/api/app/services/meetings.py:71-194 | one transaction keeps rows, store, audit log and books in agreement, whatever it is and however it ends |
| `Lifecycle.EveryRunKeeps` | apps/api/app/services/meetings.py:71-194 | so does every serial run from an empty organization |
| `Lifecycle.StatesAgree` | apps/api/app/services/meetings.py:605-651 | QUEUED has an audio key and no transcript; ANALYZING, PUBLISHED and AUDIO_PURGED have exactly one; replaying a meeting's audit entries from CREATED is a path of the table to its status |
| `Lifecycle.WorkersAreNeverSurprised` | apps/api/app/tasks/pipeline.py:63-91 | in no run does a worker meet NO_AUDIO, NO_TRANSCRIPT, a second transcript or report, or an illegal move |
| `Lifecycle.StoredAudioIsNamed` | apps/api/app/services/meetings.py:478-568 | every object in the store is named by the audio key of its meeting's row, over every run with store failures and rolled-back commits |
| `Lifecycle.KeyOutlivesAudio` | apps/api/app/services/meetings.py:665-769 | a row's key becomes null only when the store no longer holds the object |
| `Lifecycle.SweepTellsTheTruth` | apps/api/app/services/meetings.py:665-741 | what the sweep reports has neither an object nor an upload left; what it does not report keeps its key and its status |
| `Lifecycle.FinishIsSafe` | apps/api/app/services/meetings.py:511-563 | a finish that is accepted is about the upload the row names, whatever identifier was sent |
| `Lifecycle.RetryIsSafe` | apps/api/app/services/meetings.py:605-651 | a retry leaves the row fit for the stage it goes back to |
| `Retention.FinalizeDates` | apps/api/app/services/meetings.py:533-562 | an accepted finish stores an object of the declared size, closes the upload, keeps the declared times, starts the clock at the retention that was bought, and queues the meeting exactly when there is no quota, nothing to pay, or what was consumed and its duration together do not exceed the quota; otherwise it is held |
| `Retention.EverythingComesDue` | apps/api/app/services/meetings.py:692-710 | in every reachable database whatever still holds audio or parts and has no work outstanding comes due: cancelled and deleted at once, published and failed exactly at a deadline they all have |
| `Retention.SweepLeavesNothingRemovable` | apps/api/app/services/meetings.py:665-769 | after any run, a sweep of a store that every call reaches purges a due meeting exactly when its row names no upload or one the store still has, and then neither key, upload nor object is left |
| `Retention.LeakedForGood` | apps/api/app/services/meetings.py:744-769 | a row that names an upload the store no longer has keeps it, its key and its object over every later run, and no sweep ever reports it |
| `Retention.RolledBackFinishLeaks` | apps/api/app/services/meetings.py:478-568 | a finish carried out by the store and rolled back by the database leaves such a row, with the object stored |
| `Retention.LostAbortLeaks` | apps/api/app/services/meetings.py:590-597 | so does a cancellation whose abort took effect while its answer was lost |
| `Retention.LeakingRun` | apps/api/app/storage.py:277-285 | a run from an empty organization to a cancelled meeting, due, whose recording is stored for good |
| `Decisions.EnteredFrom` | apps/api/app/services/meetings.py:71-95 | the table read backwards: from which states each state is entered |
| `Decisions.HiddenIff` | apps/api/app/services/meetings.py:287-303 | a meeting is not found exactly when it is absent, deleted, or private and the caller neither its author nor an administrator |
| `Decisions.StartedIff` | apps/api/app/services/meetings.py:392-435 | only its author starts an upload, only from CREATED and of a size the store takes; the row then has what was declared, and row, ticket and store name one new upload |
| `Decisions.ResumedIff` | apps/api/app/services/meetings.py:438-475 | new signatures are given exactly to the author of an upload in progress of a declared size, for the same slots |
| `Decisions.FinishedIff` | apps/api/app/services/meetings.py:478-568 | after any run a finish is accepted exactly from the author, of an upload in progress that the store puts together to the declared size; the organization's committed quota and total alone decide between QUEUED and QUOTA_HOLD |
| `Decisions.FinalizedIff` | apps/api/app/services/meetings.py:478-568 | which refusal: not the author, or an object of another size than declared, which is then taken out of the store again |
| `Decisions.CancelledIff` | apps/api/app/services/meetings.py:571-597 | exactly when a cancellation is accepted, and that only an answered abort clears the upload |
| `Decisions.RemovedIff` | apps/api/app/services/meetings.py:373-389 | the author or an administrator deletes anything but what is cancelled or deleted; nothing but the status changes |
| `Decisions.RetriedIff` | apps/api/app/services/meetings.py:605-651 | exactly which retries are accepted: a failed meeting whose transcript or audio survives, with a transcript to analysis, otherwise to the queue |
| `Decisions.TranscribedIff` | apps/api/app/services/transcription.py:127-191 | a queued meeting is transcribed exactly when its audio is there with the declared digest and a supplier answers; its row then has the measured duration; a missing audio or a wrong digest is a failure that says so |
| `Decisions.PublishedIff` | apps/api/app/tasks/analysis.py:88-123 | a meeting in analysis is published exactly with a report; ledger and total then grow by its row's duration, and otherwise not at all |
| `Decisions.PurgedIff` | apps/api/app/services/meetings.py:665-741 | a committed sweep purges exactly the due meetings whose upload, if the row names one, is still in the store and for which both calls are answered; what it leaves of each row |
| `Decisions.RequestAudits` | apps/api/app/services/meetings.py:135-194 | an accepted request adds one audit entry, from the state the meeting was in to the one it is in now |
| `Decisions.StageAudits` | apps/api/app/services/transcription.py:127-191 | a transcription adds its two moves, or three if a fallback answered; a publication its two |
| `Decisions.SecondIsRefused` | apps/api/app/models.py:553 | a second transcript or report is refused by the database whatever the rows say, and leaves nothing behind |
| `Decisions.MeasuredIsBilled` | apps/api/app/services/transcription.py:179-180 | over every run between the two, a transcription followed by a publication bills the duration the supplier measured, or the declared one if it measured none |
| `Isolation.ForeignFrame` | apps/api/app/services/meetings.py:287-303 | requests about other meetings, workers and the sweep can only take things away from a meeting being uploaded |
| `Uploader.IdentifyMeeting` | apps/desktop/src-tauri/crates/uploader/src/lib.rs:438-455 | the record's meeting, the job's, or a new declaration, in that order |
| `Uploader.OpenUpload` | apps/desktop/src-tauri/crates/uploader/src/lib.rs:333-385 | resume or start, and the record that is on disk before the first part |
| `Uploader.SendParts` | apps/desktop/src-tauri/crates/uploader/src/lib.rs:390-412 | the loop over the slots: every part is read, confirmed ones are skipped, the record is saved after each; a segment that cannot be decrypted ends it as a vault error |
| `Uploader.CloseUpload` | apps/desktop/src-tauri/crates/uploader/src/lib.rs:414-429 | only an answered finish takes the recording off what is owed |
| `Uploader.AttemptUpload` | apps/desktop/src-tauri/crates/uploader/src/lib.rs:310-429 | a whole attempt, with every fault in its place |
| `Uploads.DeclaredOnlyIfUnknown` | apps/desktop/src-tauri/crates/uploader/src/lib.rs:438-455 | a meeting is declared only if neither the record nor the job names one; it is the caller's, and not private |
| `Uploads.ResumedOnlyIfOurs` | apps/desktop/src-tauri/crates/uploader/src/lib.rs:333-385 | a record is resumed exactly when it is about this meeting and these bytes; its parts count only under the upload they were sent to; the record in use is on disk before the first part, and a record that cannot be written ends the attempt |
| `Uploads.FinalOnlyIfTurnedAway` | apps/desktop/src-tauri/crates/uploader/src/lib.rs:70-81 | of the ways a request can fail only an expired token and a 403 are final |
| `Uploads.OnlyDeliveredIsAnswered` | apps/desktop/src-tauri/crates/uploader/src/lib.rs:390-429 | no call is answered unless it was delivered, and one that was lost or turned away changed nothing |
| `Uploads.DecayIsFelt` | apps/desktop/src-tauri/crates/uploader/src/assembly.rs:39-55 | a segment that can no longer be read ends every attempt before its first call |
| `UploadSafety.AttemptKeeps` | apps/desktop/src-tauri/crates/uploader/src/lib.rs:310-429 | every confirmed part in the saved record is held by the store under that upload with exactly its slice, through any interruption |
| `UploadSafety.RecordingArrivesWhole` | apps/desktop/src-tauri/crates/uploader/src/lib.rs:310-429 | over every run of interrupted attempts, with anything else happening on the server: whatever the store holds under our key is the recording, and it is there whenever an attempt moves the meeting to QUEUED or QUOTA_HOLD |
| `UploadSafety.DeclaredTimesArrive` | apps/desktop/src-tauri/crates/uploader/src/lib.rs:353-385 | over the same runs: a meeting that an attempt moves to UPLOADING, QUEUED or QUOTA_HOLD has the whole seconds recorded as its duration and those paused as its pauses |
| `UploadSafety.ChecksumHolds` | apps/api/app/services/transcription.py:58-97 | the worker's checksum never refuses such a recording |
| `UploadSafety.NothingIsDoneTwice` | apps/desktop/src-tauri/crates/uploader/src/lib.rs:335-428 | once a record is saved nothing is declared or started again, no part it confirms is sent again, and only an answered finish ends what is owed |
| `UploadSafety.AbandonedIff` | apps/desktop/src-tauri/crates/uploader/src/lib.rs:70-81 | after any run, an attempt on a recording that holds audio ends in an error that does not pass exactly when some segment cannot be read already, one of its calls was answered 401 or 403, a segment could not be read again, or the vault could not be told; `Changed` is unreachable |
| `UploadProgress.ExpiredTokenAbandons` | apps/desktop/src-tauri/src/queue.rs:254-267 | an expired access token has a recording reported as abandoned that stays owed and that the next attempt would deliver |
| `UploadProgress.OneSmoothAttemptDelivers` | apps/desktop/src-tauri/crates/uploader/src/lib.rs:390-429 | with the server waiting for the recorded upload and every segment readable, one attempt without faults sends exactly the unconfirmed parts and ends uploaded |
| `UploadProgress.SmoothAttemptSucceedsIff` | apps/api/app/services/meetings.py:438-475 | with a record, an attempt without faults succeeds exactly when the server is still waiting for the upload the record names and every segment can be read |
| `UploadProgress.SmoothFirstAttemptSucceedsIff` | apps/api/app/services/meetings.py:392-435 | without a record an attempt without faults succeeds exactly when every segment can be read, the store takes a recording of this size and the meeting is either undeclared, with an unused identifier, or still CREATED; it then sends every part once and delivers the recording |
| `UploadProgress.LostStartStrands` | apps/desktop/src-tauri/crates/uploader/src/lib.rs:353-381 | a first attempt on a readable recording leaves it stranded exactly when the start took effect and its answer was lost or not understood, or the disk refused the record |
| `UploadProgress.DeliveredIffInReach` | apps/desktop/src-tauri/crates/uploader/src/lib.rs:310-429 | from any state an attempt without faults delivers exactly when the recording is neither stranded, nor tied to an upload the server has let go, nor unreadable in part, and the store takes its size |
| `UploadProgress.OutOfReachForGood` | apps/api/app/services/meetings.py:422-424 | from any of those states no run of attempts, with whatever luck and whatever else the server does, ever delivers it |
| `Billing.EverySchedule` | apps/api/app/services/usage.py:95-117 | over every schedule of overlapping, redelivered and retried tasks the consumed seconds are the initial ones plus the ledger, with at most one entry and one report a meeting |
| `Billing.PublishedOnce` | apps/api/app/models.py:553 | at most one task ever answers that it published a meeting, and every report has one |
| `Billing.NoChargeIsLost` | apps/api/app/services/usage.py:95-103 | the total rises by exactly what was answered as published, whoever overlapped |
| `Billing.LoserPaysNothing` | apps/api/app/tasks/analysis.py:88-123 | a task loses exactly when the report is already there, and takes its charge back with it |
| `Billing.ChargesQueue` | apps/api/app/services/usage.py:95-103 | while one task holds the organization's row another waits, and then adds to what the first one left |
| `Billing.AReportIsRecorded` | apps/api/app/tasks/analysis.py:88-123 | a task that has its report and finds the row free is billed and recorded, quota or not |
| `Billing.BillsWhatItRead` | apps/api/app/tasks/analysis.py:43-123 | a task bills the seconds it read at its beginning, whatever is written to the row since |
| `Billing.AloneIsSerial` | apps/api/app/tasks/analysis.py:43-123 | without an overlap the steps are the serial stage |
| `Recording.SegmentSamples` | apps/desktop/src-tauri/crates/audio-engine/src/encode.rs:383-390 | the segment length is the seconds asked for at 16 kHz, rounded down, between five and ten seconds |
| `Recording.MuxKeepsPackets` | apps/desktop/src-tauri/crates/audio-engine/src/encode.rs:607-629 | no packet is lost, repeated or reordered on its way into pages |
| `Recording.PageLayout` | apps/desktop/src-tauri/crates/audio-engine/src/encode.rs:607-629 | a page ends exactly where a packet is marked or the next one does not fit, and carries the position and the flag of its last packet (section 6 of RFC 3533); so the packets settle the pages |
| `Recording.PageInItsPlace` | apps/desktop/src-tauri/crates/audio-engine/src/encode.rs:631-662 | every page's bytes are in the output once, at its place |
| `Tape.HoldKeeps` | apps/desktop/src-tauri/crates/audio-engine/src/encode.rs:421-438 | encoding holds one packet back and writes the one before it |
| `Tape.CloseKeeps` | apps/desktop/src-tauri/crates/audio-engine/src/encode.rs:631-662 | closing a full segment hands the sink exactly its pages |
| `Tape.TurnKeeps` | apps/desktop/src-tauri/crates/audio-engine/src/encode.rs:421-452 | one turn of the loop takes the formula for the frames so far to the formula for one more, and is refused exactly when encoder or sink refuses |
| `Tape.DrainKeeps` | apps/desktop/src-tauri/crates/audio-engine/src/encode.rs:418-455 | a whole buffer, likewise |
| `Tape.LastFrame` | apps/desktop/src-tauri/crates/audio-engine/src/encode.rs:502-522 | the tail becomes one more frame, filled with silence |
| `Tape.TailKeptIff` | apps/desktop/src-tauri/crates/audio-engine/src/encode.rs:502-510 | the flush keeps the tail exactly when it is at most a frame |
| `Tape.FinishKeeps` | apps/desktop/src-tauri/crates/audio-engine/src/encode.rs:496-551 | finishing computes the formula for the padded recording; an end-of-stream packet is written exactly when an unfinished segment or a tail remains |
| `SegmentWriter.Writer.Write` | apps/desktop/src-tauri/crates/audio-engine/src/encode.rs:418-455 | the running writer is the formula of everything fed to it; its buffer is under a frame afterwards; and the samples ever moved by compaction plus those buffered never exceed those fed |
| `SegmentWriter.Writer.Compact` | apps/desktop/src-tauri/crates/audio-engine/src/encode.rs:466-483 | keeps the live region and always ends with an empty prefix |
| `SegmentWriter.Writer.EncodeOne` | apps/desktop/src-tauri/crates/audio-engine/src/encode.rs:421-452 | one turn, with the frame left in the buffer if the encoder refused it |
| `SegmentWriter.Writer.CloseSegment` | apps/desktop/src-tauri/crates/audio-engine/src/encode.rs:631-662 | takes the muxer's output, offers it and records what was stored; segments already stored are never touched |
| `SegmentWriter.Writer.FinishRecording` | apps/desktop/src-tauri/crates/audio-engine/src/encode.rs:496-551 | what a finished writer holds and its manifest says, and exactly when finishing succeeds |
| `SegmentWriter.OnlyTheAudioMatters` | apps/desktop/src-tauri/crates/audio-engine/src/encode.rs:418-455 | after any sequence of writes the writer is the formula for their concatenation |
| `SegmentWriter.CutDoesNotMatter` | apps/desktop/src-tauri/crates/audio-engine/src/encode.rs:418-455 | two ways of cutting the same audio succeed together and leave the same writer |
| `SegmentWriter.EveryFrameIsAudio` | apps/desktop/src-tauri/crates/audio-engine/src/encode.rs:502-522 | the frames encoded are the audio in 640-sample chunks and then nothing but silence, less than a frame of it |
| `SegmentWriter.FinishedRecordingIsTheStream` | apps/desktop/src-tauri/crates/audio-engine/src/encode.rs:631-662 | the segments put back together are the one stream: both headers once, then every packet in order |
| `SegmentWriter.RefusedWriteLosesTail` | apps/desktop/src-tauri/crates/audio-engine/src/encode.rs:502-510 | a refused first frame leaves the whole write in the buffer, and the flush then encodes one frame of it |
| `Finished.SegmentsPartition` | apps/desktop/src-tauri/crates/audio-engine/src/encode.rs:440-451 | every segment but the last is full, none is empty, and each starts where the one before ends |
| `Finished.NothingLostToRounding` | apps/desktop/src-tauri/crates/audio-engine/src/encode.rs:534-548 | samples and durations of the segments add up to the manifest's |
| `Finished.SegmentIsWholePages` | apps/desktop/src-tauri/crates/audio-engine/src/encode.rs:607-629 | a segment is one or more whole pages, and its last page's granule position is three times the samples so far (section 4 of RFC 7845) |
| `Finished.SegmentsAreTheStream` | apps/desktop/src-tauri/crates/audio-engine/src/encode.rs:631-662 | the stored segments' bytes, in order, are the bytes of all the pages |
| `Finished.OneEndAtMost` | apps/desktop/src-tauri/crates/audio-engine/src/encode.rs:529-534 | only the last page can carry the end-of-stream flag, and it does exactly when the recording ended inside a segment; pages are numbered without a gap |
| `Finished.EveryPacketOnce` | apps/desktop/src-tauri/crates/audio-engine/src/encode.rs:553-600 | headers once at the front, then every packet once |
| `EndToEnd.WhatWasRecordedIsWhatIsStored` | apps/desktop/src-tauri/crates/uploader/src/lib.rs:310-429 | whatever the interruptions, the object the store ends up with is the one Ogg stream of the recorded audio |
| `Mixer.StereoMixer.DrainInto` | apps/desktop/src-tauri/crates/audio-engine/src/resample.rs:246-256 | interleaves what both sides have and keeps the surplus |
| `Mixer.StereoMixer.FlushInto` | apps/desktop/src-tauri/crates/audio-engine/src/resample.rs:260-267 | empties both sides, the shorter one padded |
| `Mixer.StereoMixer.PushFrontLeft` | apps/desktop/src-tauri/crates/audio-engine/src/resample.rs:222-226 | prepends in order |
| `Mixer.ChannelsComeBack` | apps/desktop/src-tauri/crates/audio-engine/src/resample.rs:246-256 | each channel of the interleaved stream is the side it came from |
| `Mixer.Recorder.PollDevices` | apps/desktop/src-tauri/crates/audio-engine/src/pipeline.rs:278-287 | receive, line up, pad, observe, drain: the frames a poll appends and the state it leaves |
| `Mixer.Recorder.DrainInboxes` | apps/desktop/src-tauri/crates/audio-engine/src/pipeline.rs:289-325 | everything that arrived is queued in order, and a side that ended is reported once |
| `Mixer.SkewIsWithinAFrame` | apps/desktop/src-tauri/crates/audio-engine/src/pipeline.rs:341-343 | the correction's residual is under one frame and rounded toward zero |
| `Mixer.LiveSideIsDrained` | apps/desktop/src-tauri/crates/audio-engine/src/pipeline.rs:129-142 | once a side has stopped every poll leaves the live side's queue empty |
| `Mixer.LivesUntilItEnds` | apps/desktop/src-tauri/crates/audio-engine/src/pipeline.rs:289-325 | told by the arrivals alone: a side lives exactly until the first arrival that ends it, and is reported stalled exactly then |
| `Mixer.OneEndIsNoEnd` | apps/desktop/src-tauri/crates/audio-engine/src/pipeline.rs:357-369 | after any polls, once one side has ended or is not recorded the other's queue is empty and all it was given has been emitted, with only silence added; once both have, nothing waits |
| `Mixer.NothingAddedBefore` | apps/desktop/src-tauri/crates/audio-engine/src/pipeline.rs:357-369 | until a side ends the skew is all that is ever added |
| `Mixer.WorstIsWorst` | apps/desktop/src-tauri/crates/audio-engine/src/pipeline.rs:375-384 | the imbalance reported is the greatest that any poll left with both sides delivering and lined up, and one of them |
| `Mixer.HealthyLeadIsLeftAlone` | apps/desktop/src-tauri/crates/audio-engine/src/pipeline.rs:357-369 | while both are live nothing is padded |
| `Mixer.NothingLostOrReordered` | apps/desktop/src-tauri/crates/audio-engine/src/pipeline.rs:435-444 | over any run and the final flush both channels emit the same number of samples, each its own audio in order with only silence inserted |
| `Mixer.SkewIsInFrontIff` | apps/desktop/src-tauri/crates/audio-engine/src/pipeline.rs:333-355 | for any polls before and after, the correction ends up in front of everything the late side was given exactly when all that side had emitted by then is silence |
| `Mixer.SkewGoesFirst` | apps/desktop/src-tauri/crates/audio-engine/src/resample.rs:215-226 | when every chunk is stamped until the skew is known, nothing was emitted by then, and the late side begins with exactly the skew and then its audio, whatever is delivered afterwards |
| `Mixer.UnstampedSkewComesLate` | apps/desktop/src-tauri/crates/audio-engine/src/pipeline.rs:333-355 | with an unstamped chunk the correction lands behind audio already emitted, which shows exactly when that audio is not silent |
| `Endpoints.MonoResampler.Process` | apps/desktop/src-tauri/crates/audio-engine/src/resample.rs:119-168 | what was fed is the chunks converted and then less than one chunk waiting; a refused chunk becomes as much silence; copies never exceed what was fed |
| `Endpoints.ChunkInItsPlace` | apps/desktop/src-tauri/crates/audio-engine/src/resample.rs:125-155 | every chunk has its place in the output: what the converter made of it, or the silence it would have lasted |
| `Endpoints.TimelineHolds` | apps/desktop/src-tauri/crates/audio-engine/src/resample.rs:147-155 | whichever chunks are refused, the output lasts as long as if none had been |
| `Endpoints.ChunksAreSettled` | apps/desktop/src-tauri/crates/audio-engine/src/resample.rs:125-145 | the chunks converted are settled by the audio, not by how it was cut into calls |
| `Endpoints.BoundedSink.Offer` | apps/desktop/src-tauri/crates/audio-engine/src/pipeline.rs:99-112 | never waits; what does not fit is counted in messages and in audio, only the first loss announces itself, and a closed receiver is not a loss |
| `Capture.Session.Counted` | apps/desktop/src-tauri/src/session.rs:157-176 | audio is added to what is billed or to what was thrown away, and the budget event that follows |
| `Capture.ObeyAll` | apps/desktop/src-tauri/src/engine.rs:515-543 | commands in order, a finish that is allowed or a vanished sender ends the loop |
| `Capture.CaptureLoop` | apps/desktop/src-tauri/src/engine.rs:432-506 | the loop with its counters and early exits |
| `Capture.Record` | apps/desktop/src-tauri/src/engine.rs:363-425 | the tail, the end of the session and the manifest, whatever happened before |
| `Capture.BilledTime` | apps/desktop/src-tauri/src/engine.rs:348-361 | without a write failure the billed time is the whole milliseconds kept plus those of the tail, and the writer was handed exactly that audio |
| `Capture.OverrunIsOnePoll` | apps/desktop/src-tauri/src/session.rs:157-176 | the limit is exceeded by less than the last kept poll plus the tail; a limit of zero, by exactly that |
| `Capture.ManifestMatchesBill` | apps/desktop/src-tauri/crates/audio-engine/src/encode.rs:502-546 | the manifest's duration is the billed time or up to 21 ms more |
| `Capture.FailsIffRefused` | apps/desktop/src-tauri/src/engine.rs:432-506 | a capture fails exactly when the writer refuses the audio of a round, and the writer then holds what it makes of that audio behind everything before it |
| `Capture.TailIsWritten` | apps/desktop/src-tauri/src/engine.rs:363-425 | the tail is written even after a failure, unless the session is paused, and only a refusal of it adds one |
| `Capture.PausedAudioLeavesNoTrace` | apps/desktop/src-tauri/src/session.rs:145-150 | replacing what was said while paused changes nothing that is stored, billed or decided |
| `Capture.PausedIsWithheld` | apps/desktop/src-tauri/src/session.rs:110-150 | from the commands alone: a poll is withheld exactly when the last pause or resume asked for is a pause; what reaches the writer is the audio of the other polls up to the end, in order, and the tail if the session was not paused; the withheld frames are counted as dropped |
| `Capture.EventsFollowTheLimit` | apps/desktop/src-tauri/src/session.rs:157-176 | stops are exactly the kept events at or past the limit, and the warning exactly the first within five minutes of it |
| `Capture.BudgetFromTheStart` | apps/desktop/src-tauri/src/session.rs:157-176 | a new session stops at its limit or at four hours, whichever is less, and warns once, within five minutes of it |
| `Capture.TakenOnlyWhen` | apps/desktop/src-tauri/src/session.rs:105-143 | a pause is taken only while recording, a resumption only while paused, an end only in either; each changes the state alone |
| `Tokens.TokenStore.Rotate` | apps/api/app/services/auth.py:208-283 | the checks in their order, and the two revocations that are committed although the request fails |
| `Tokens.TokenStore.RevokeAll` | apps/api/app/services/auth.py:358-370 | the loop revokes every token of the family that is not revoked yet, and no other |
| `Tokens.OneLiveTokenPerFamily` | apps/api/app/services/auth.py:319-355 | over every run of requests that do not overlap a family never holds two tokens that are neither used nor revoked |
| `Tokens.ReuseEndsTheFamily` | apps/api/app/services/auth.py:236-258 | after a reuse, a ban or a sign-out has been answered, requests that do not overlap never get another token out of the family |
| `Tokens.ExchangedOnce` | apps/api/app/services/auth.py:259-283 | exactly when a token is exchanged, and that requests that do not overlap never exchange it again |
| `Tokens.OnlyItsFamily` | apps/api/app/services/auth.py:358-370 | a request leaves every other family alone, and of its own tokens changes only when each was used and revoked, once; a sign-out revokes them all |
| `Tokens.NewTokensWereIssued` | apps/api/app/services/auth.py:319-355 | what a request adds to the tokens is what it answers with: unused, of the same family, with the full time to live |
| `Tokens.BannedGetsNothing` | apps/api/app/services/auth.py:259-273 | a member whose access was taken away exchanges nothing over any later run, and the first attempt ends the family |
| `Rotation.AloneIsSerial` | apps/api/app/services/auth.py:208-283 | a refresh that nothing overlaps is the serial one |
| `Rotation.AloneAnswersTheSame` | apps/api/app/services/auth.py:208-283 | and answers what the serial one does |
| `Rotation.SignOutAloneIsSerial` | apps/api/app/services/auth.py:358-370 | so do a sign-out, an entry and a ban |
| `Rotation.LateExchangeIff` | apps/api/app/services/auth.py:226-283 | a token that was used or revoked is exchanged again in some continuation exactly when a refresh is still open that looked it up while it was live and unexpired, its member not banned |
| `Rotation.StepKeepsOneLiveIff` | apps/api/app/services/auth.py:275-355 | every step leaves each family at most one live token, except exactly the commit of an exchange whose token is no longer live in a family that has a live one |
| `Rotation.OverlapLeavesTwo` | apps/api/app/services/auth.py:226-283 | two refreshes that look one live token up before either commits are both answered and leave two live tokens |
| `Rotation.RevocationHoldsIff` | apps/api/app/services/auth.py:358-370 | a family with no live token stays without one over every continuation exactly when no refresh is open that looked one of them up while it was live |
| `Account.Machine.AccessToken` | apps/desktop/src-tauri/src/auth.rs:285-310 | one call alone: from memory, or renewed and written down before it is used |
| `Account.MemoryAnswersIff` | apps/desktop/src-tauri/src/auth.rs:285-310 | a caller is answered from memory exactly when the session there has more than a minute left; otherwise it goes to the server with the stored token, or fails without one |
| `Account.NeverPresentsAUsedToken` | apps/desktop/src-tauri/src/auth.rs:285-310 | for any interleaving of callers, with every answer stored, no used token is presented |
| `Account.NeverAccused` | apps/api/app/services/auth.py:238-258 | so no reuse is ever answered to it |
| `Account.OneRenewalServesBoth` | apps/desktop/src-tauri/src/auth.rs:294-299 | two callers with one expired session spend one refresh token |
| `Account.RestoreMustBeAlone` | apps/desktop/src-tauri/src/auth.rs:252-278 | over any run of locked callers a restore is answered with a reuse exactly when a renewal with the token it read was answered after the read, or before it and was not written down yet |
| `Account.UnwrittenAnswerEndsTheFamily` | apps/desktop/src-tauri/src/auth.rs:340-357 | presenting the stored token again is a reuse exactly when the renewal had been answered |
| `RateLimits.InMemoryRateLimiter.Record` | apps/api/app/ratelimit.py:131-145 | the fixed window, key by key |
| `RateLimits.RedisRateLimiter.Record` | apps/api/app/ratelimit.py:82-117 | the shared counter behind its breaker, failing open |
| `RateLimits.AnyMinuteIsBounded` | apps/api/app/ratelimit.py:131-145 | any half-open minute of any timed run has at most one allowed hit less than twice the limit |
| `RateLimits.BoundIsMet` | apps/api/app/ratelimit.py:131-145 | that many do happen, for every limit |
| `RateLimits.WaitingIsEnough` | apps/api/app/ratelimit.py:140-145 | the first hit after the announced wait is allowed, none before the window ends is, and the wait is never a second too long |
| `RateLimits.RemainingIsExact` | apps/api/app/ratelimit.py:131-145 | an answer announces exactly how many more hits pass at that moment, and a wait when it refuses |
| `RateLimits.SharedMinuteIsBounded` | apps/api/app/ratelimit.py:90-97 | while the store answers, no minute has more than the limit |
| `RateLimits.SharedBoundIsMet` | apps/api/app/ratelimit.py:90-97 | and that many pass, for every limit |
| `RateLimits.NoPauseNoMore` | apps/api/app/ratelimit.py:90-97 | a caller that never pauses for a minute gets the limit once and nothing after |
| `RateLimits.SharedRemainingIsExact` | apps/api/app/ratelimit.py:108-117 | the same of the shared counter, whose wait is always a minute |
| `RateLimits.SilenceIsNeeded` | apps/api/app/ratelimit.py:90-97 | after a refusal the shared counter lets a caller pass again exactly after a minute of silence |
| `RateLimits.StoreIsSkippedIff` | apps/api/app/ratelimit.py:82-117 | over every serial run the store is left alone exactly for ten seconds after three calls in a row have failed; a request that does not reach it passes uncounted, and one that does is counted with all that reached it |
| `RateLimits.NotEquivalent` | apps/api/app/ratelimit.py:82-145 | one run on which the two limiters differ |
| `RateLimits.OutageIsBounded` | apps/api/app/ratelimit.py:82-107 | in any ten seconds of an outage the requests that wait for the store are at most those that may wait at once and two more, plus what calls begun earlier let through by failing late; starting with nobody waiting, just the former |
| `RateLimits.OutageBoundIsMet` | apps/api/app/ratelimit.py:82-107 | that many do wait, for every number at once |
| `RateLimits.LateFailuresSpendAll` | apps/api/app/ratelimit.py:98-103 | once two failures are noted, calls begun earlier that fail as late as may be spend the whole allowance |
| `RateLimits.OutageStaysFast` | apps/api/app/ratelimit.py:82-107 | if no two requests overlap, exactly three of any ten seconds wait for the store, or all if there are fewer, less the failures noted before |
| `Router.Breaker.RecordFailure` | packages/ai/transcription/router.py:58-62 | appends, forgets what left the window, opens at five |
| `Router.Breaker.IsOpen` | packages/ai/transcription/router.py:70-79 | open until two minutes have passed, and half-open by being asked |
| `Router.TranscriptionRouter.TranscribeAudio` | packages/ai/transcription/router.py:114-158 | suppliers in order, open circuits skipped, a wrong request stops the chain |
| `Router.FallbackIffNotFirst` | packages/ai/transcription/router.py:131-158 | the flag is set exactly when the answering supplier is not the first configured |
| `Router.FirstUpSettles` | packages/ai/transcription/router.py:131-158 | the first supplier in order whose circuit is closed and that does not fail for now settles the request; all fail exactly when there is none |
| `Router.SkippedIff` | packages/ai/transcription/router.py:58-83 | the queue is in order and never exceeds five; a circuit is open exactly after five failures in a row within ten minutes, the last under two minutes old |
| `Router.RouterSkipsIff` | packages/ai/transcription/router.py:114-158 | the same for every supplier over every serial run of the router |
| `Segments.MergeMicroSegments` | apps/api/app/services/transcription.py:100-124 | the loop that rewrites its last entry is the merge |
| `Segments.MergeKeepsTheTranscript` | apps/api/app/services/transcription.py:100-124 | the merge keeps one utterance for each of consecutive runs that make up the transcript; a run has one speaker and only its first member may be long |
| `Segments.EveryWordSurvives` | apps/api/app/services/transcription.py:112-121 | every word survives, in order |
| `Segments.TwoBecomeOneIff` | apps/api/app/services/transcription.py:100-124 | two neighbours become one exactly when they share a speaker and the second lasts under a second |
| `Segments.StripTrims` | apps/api/app/services/transcription.py:112-121 | only spaces at either end of a text are removed, and all of them |
| `Segments.MergingTwiceChangesNothing` | apps/api/app/services/transcription.py:100-124 | with ends in order the merge is idempotent |
| `Segments.CoveredIff` | apps/api/app/services/transcription.py:112-121 | every fragment lies in the utterance that absorbed it exactly when none starts before the first of its run or ends after the last; a run is read off the fragments themselves |
| `Segments.SourcesKeptIff` | packages/ai/extraction/schema.py:96-117 | every report accepted against the fragments is accepted against the merged transcript exactly when each moment a fragment reached outside the tolerance of its run is reached by another run |
| `Segments.MergingKeepsSources` | packages/ai/extraction/schema.py:96-117 | a transcript the merge covers, and so one with starts and ends in order, loses no report |
| `Segments.MomentsStayAccepted` | packages/ai/extraction/schema.py:96-117 | with ends in order alone, a moment inside any fragment still is |
| `Segments.StartsMatter` | packages/ai/extraction/schema.py:96-117 | without starts in order both coverage and acceptance can fail |
| `Segments.OrphansPointNowhere` | packages/ai/extraction/schema.py:96-117 | a report passes exactly when every timestamp points somewhere, or there is no transcript |
| `Segments.PointsWithinASecond` | packages/ai/extraction/schema.py:96-117 | a timestamp points at a window from a second before it to a second after |
| `Deadlines.BeforeIsLess` | apps/api/app/services/extraction.py:320-332 | calendar order and day count agree, leap years included |
| `Deadlines.TheCalendar` | apps/api/app/services/extraction.py:349-352 | the lengths of the months, leap years by hundreds and four hundreds, and the years there are |
| `Deadlines.KnownWeekdays` | apps/api/app/services/extraction.py:320-328 | the first day there is was a Monday and 1 January 2000 a Saturday |
| `Deadlines.NeverInThePast` | apps/api/app/services/extraction.py:291-332 | no deadline lies before the meeting, and only the last days of the calendar overflow |
| `Deadlines.CountedDays` | apps/api/app/services/extraction.py:291-318 | today, tomorrow and the day after are that many days later; what was not recognised has no date |
| `Deadlines.FirstSuchWeekday` | apps/api/app/services/extraction.py:320-325 | a weekday is the first such day strictly after the meeting, with or without "next" |
| `Deadlines.LeastDateWithThatNumber` | apps/api/app/services/extraction.py:335-346 | a day number is the least later date with that number, or none exactly when the month chosen lacks it |
| `Deadlines.ThirtyAfterTheThirtyFirst` | apps/api/app/services/extraction.py:335-346 | there can be a later date with that number when the answer is none |
| `Deadlines.FridayOfNextWeek` | apps/api/app/services/extraction.py:327-328 | "next week" is the Friday of the next Monday-started week |
| `Deadlines.LastOfTheMonth` | apps/api/app/services/extraction.py:349-352 | the end of the month is its last day, in leap years too |
| `Deadlines.MonthEndIsTheDayBefore` | apps/api/app/services/extraction.py:349-352 | which is the day before the first of the next month, as the program computes it |

## Left out

- Editing a meeting, its title, listing and searching meetings, presenters and routers: no invariant spans them.
- The release of QUOTA_HOLD, plans and payment: there is no code for them among the modelled files.
- The look-up that chooses which organizations to sweep: the sweep is modelled for one organization.
- Overlap of a status read with a delete or a worker: `Lifecycle` is about serial transactions; only `Billing` overlaps them, and there any other writer may set a meeting's row to anything.
- A database isolation level other than PostgreSQL's default, and a crash of the database itself.
- The contents of signed addresses and the store's minimum part size: a slot is a number under an open upload, and an expired one is a part turned away.
- The in-memory stand-in of `apps/api/app/storage.py`, which compares part numbers, keeps sizes only and takes the abort of an upload it does not have for done: the modelled store keeps bytes and refuses such an abort.
- Keys as paths: organization and meeting are both in the key, so a key is the pair.
- The sixty-four-bit width of counters, and `saturating_add`: totals are unbounded. Of `try_from` on the skew the fall-back to zero is kept.
- A segment length or a timestamp that is not a number.
- The contents of the two Opus headers, lacing and checksums of pages: a packet that straddles two pages is filed under the page where it ends.
- Floating-point audio: samples are opaque, and only silence is looked at. Levels, meters and the drift estimate are not modelled.
- The state the interface is shown, the tray, and the wording of errors.
- The upload queue's loop and its backoff: which error passes is in `UploadSafety.AbandonedIff`, when the next attempt happens is not.
- The threads that feed the mixer: a poll is given what was waiting. Waiting for them to end in `finish` is a run of further polls.
- Language models, prompts, the mapping of names to members, and the report's own fields: an extraction succeeds, fails with a code, or raises.
- Languages and wording of deadlines: a deadline starts from what the words were recognised as.
- The contents of access tokens, passwords and invitations: an upload's call is turned away or it is not, and of a session only the refresh token and the expiry matter.
- Counters of different limits for one key: the run theorems of `RateLimits` take one limit for a run.
- Row locks between overlapping refreshes: a refresh writes and commits in one step, so none waits for another. `Account` talks to a server whose refreshes do not overlap.
- The moment at which the shared store counts a hit: `RateLimits.SharedMinuteIsBounded` and `NoPauseNoMore` take the moment the request began for it.
