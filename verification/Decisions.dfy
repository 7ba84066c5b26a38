/** What each request and each stage answers, told by the rows, the store and the caller alone:
    who may do what, in which states, what is counted against the quota and what is billed. */
module Decisions {
  import opened Prelude
  import opened Assembly
  import opened ObjectStore
  import opened Meetings
  import opened Lifecycle
  import R = Retention

  // ------------------------------------------------------------ the table, read backwards

  /** Where each state is entered from: only what was never queued is cancelled, only what the
      workers hold or are about to take fails, and only the cancelled and the deleted stay. */
  lemma EnteredFrom(status: Status)
    ensures Created !in AllowedFrom(status)
    ensures Uploading in AllowedFrom(status) <==> status == Created
    ensures QuotaHold in AllowedFrom(status) <==> status == Uploading
    ensures Queued in AllowedFrom(status) <==> status in {Uploading, QuotaHold, Failed}
    ensures Transcribing in AllowedFrom(status) <==> status == Queued
    ensures FallbackStt in AllowedFrom(status) <==> status == Transcribing
    ensures Analyzing in AllowedFrom(status) <==> status in {Transcribing, FallbackStt, Failed}
    ensures Completed in AllowedFrom(status) <==> status == Analyzing
    ensures Published in AllowedFrom(status) <==> status == Completed
    ensures AudioPurged in AllowedFrom(status) <==> status == Published
    ensures Failed in AllowedFrom(status) <==> status in {Queued, Transcribing, FallbackStt, Analyzing}
    ensures Cancelled in AllowedFrom(status) <==> status in {Created, Uploading, QuotaHold}
    ensures Deleted in AllowedFrom(status) <==> status !in {Cancelled, Deleted}
  {
  }

  // ------------------------------------------------------------ requests

  /** A private meeting is found by whoever created it and by an administrator, one that was
      deleted by nobody. */
  lemma HiddenIff(env: Env, s: Server, e: Event, now: int, commits: bool)
    requires env.partSize > 0 && Request(e)
    ensures Step(env, s, e, now, commits).reply == Err(NotFound)
            <==> || e.m !in s.db.rows || s.db.rows[e.m].status == Deleted
                 || (s.db.rows[e.m].isPrivate && s.db.rows[e.m].createdBy != e.caller.id && !e.caller.administrator)
  {
    hide Unique, PartCountFor, Complete, StartMultipart, AllowedFrom;
  }

  lemma DeclaredIff(env: Env, s: Server, e: Event, now: int, commits: bool, initial: nat)
    requires env.partSize > 0 && Inv(s, initial) && e.Declare?
    ensures var o := Step(env, s, e, now, commits);
            && (o.reply.Ok? <==> e.m !in s.db.rows && commits)
            && (o.reply.Ok? ==>
                  && e.m in o.server.db.rows
                  && var row := o.server.db.rows[e.m];
                     && row.createdBy == e.caller.id && row.isPrivate == e.isPrivate && row.status == Created
                     && row.audioKey.None? && row.uploadId.None? && row.purgeAt.None?
                     && row.duration == 0 && row.paused == 0)
  {
    InvIsUnique(s, initial);
    hide Inv;
  }

  lemma InvIsUnique(s: Server, initial: nat)
    requires Inv(s, initial)
    ensures Unique(s.db)
  {
    RowsAreUnique(s.db);
  }

  lemma UnseenIsRefused(env: Env, s: Server, e: Event, now: int, commits: bool)
    requires env.partSize > 0 && Request(e) && !Visible(s.db, e.m, e.caller)
    ensures Step(env, s, e, now, commits) == Outcome(s, Err(NotFound))
  {
  }

  /** A service that answers is committed, or rolled back. */
  lemma RequestCommits(env: Env, s: Server, e: Event, now: int, commits: bool, initial: nat)
    requires env.partSize > 0 && Inv(s, initial) && Request(e) && Visible(s.db, e.m, e.caller)
    ensures var a := ServiceOf(env, s, e, now);
            var o := Step(env, s, e, now, commits);
            && (o.reply.Ok? <==> a.result.Ok? && commits)
            && (o.reply.Ok? ==> e.m in o.server.db.rows && o.server.db.rows[e.m] == a.result.value.row)
  {
    InvIsUnique(s, initial);
    RequestIsCommit(env, s, e, now, commits);
    hide Inv, Step, ServiceOf;
  }

  lemma RequestIsCommit(env: Env, s: Server, e: Event, now: int, commits: bool)
    requires env.partSize > 0 && Request(e) && Visible(s.db, e.m, e.caller)
    ensures var a := ServiceOf(env, s, e, now);
            var o := Step(env, s, e, now, commits);
            if a.result.Err? then o == Outcome(Server(s.db, a.store), Err(a.result.error))
            else exists reply :: o == Commit(s, Save(s.db, e.m, a.result.value), a.store, commits, reply)
  {
    hide Commit, Save, StartUpload, Finalize, Abandon, RemoveMeeting, RetryMeeting;
    var a := ServiceOf(env, s, e, now);
    if a.result.Ok? {
      var reply := if e.Start? then
                     Opened(StartUpload(env, Load(s.db, e.m), e.caller, e.declared, now, s.store, e.fate).result.value.1)
                   else Done;
      assert Step(env, s, e, now, commits) == Commit(s, Save(s.db, e.m, a.result.value), a.store, commits, reply);
    }
  }

  /** The ticket, the row and the store speak of one upload, which is new and has no parts. */
  ghost predicate NewUpload(before: StoreState, after: StoreState, row: Row, ticket: Ticket) {
    && row.uploadId == Some(ticket.uploadId) && ticket.uploadId == before.nextUpload && row.audioKey.Some?
    && ticket.uploadId in after.uploads && after.uploads[ticket.uploadId] == Upload(row.audioKey.value, map[])
    && after.objects == before.objects
  }

  ghost predicate Began(env: Env, key: Key, f: Declared, before: StoreState, after: StoreState, row: Row, ticket: Ticket)
    requires env.partSize > 0 && PartCountFor(f.size, env.partSize).Ok?
  {
    && row.status == Uploading && row.audioKey == Some(key)
    && row.audioBytes == Some(f.size) && row.audioSha == Some(f.sha)
    && row.duration == f.duration && row.paused == f.paused
    && NewUpload(before, after, row, ticket)
    && ticket.count == PartCountFor(f.size, env.partSize).value && ticket.partSize == env.partSize
  }

  lemma StartedRow(env: Env, d: Draft, caller: User, f: Declared, now: int, store: StoreState, fate: StoreFate)
    requires env.partSize > 0
    ensures var a := StartUpload(env, d, caller, f, now, store, fate);
            && (a.result.Ok? <==>
                  && d.row.createdBy == caller.id && d.row.status == Created
                  && PartCountFor(f.size, env.partSize).Ok? && fate == Answers)
            && (a.result.Ok? ==>
                  Began(env, AudioKey(d.row.organization, d.row.id), f, store, a.store, a.result.value.0.row,
                        a.result.value.1))
  {
    hide PartCountFor;
  }

  lemma StartAnswers(env: Env, s: Server, e: Event, now: int, commits: bool)
    requires env.partSize > 0 && e.Start? && Visible(s.db, e.m, e.caller)
    ensures var o := Step(env, s, e, now, commits);
            var a := StartUpload(env, Load(s.db, e.m), e.caller, e.declared, now, s.store, e.fate);
            o.reply.Ok? ==> a.result.Ok? && o.reply.value == Opened(a.result.value.1) && o.server.store == a.store
  {
    hide StartUpload, Unique;
  }

  /** Only the author starts an upload, once, of a size the store takes; the row then has what
      was declared, and the ticket is for a new upload with as many slots as there are parts. */
  lemma StartedIff(env: Env, s: Server, e: Event, now: int, commits: bool, initial: nat)
    requires env.partSize > 0 && Inv(s, initial) && e.Start?
    ensures var o := Step(env, s, e, now, commits);
            && (o.reply.Ok? <==>
                  && e.m in s.db.rows && s.db.rows[e.m].createdBy == e.caller.id && s.db.rows[e.m].status == Created
                  && PartCountFor(e.declared.size, env.partSize).Ok? && e.fate == Answers && commits)
            && (o.reply.Ok? ==>
                  && e.m in o.server.db.rows && o.reply.value.Opened?
                  && Began(env, AudioKey(s.db.org.id, e.m), e.declared, s.store, o.server.store, o.server.db.rows[e.m],
                           o.reply.value.ticket))
  {
    hide Step, PartCountFor, StartUpload, Began, Unique;
    if e.m in s.db.rows && Visible(s.db, e.m, e.caller) {
      assert RowOk(s.db.org.id, e.m, s.db.rows[e.m], s.db.transcripts[e.m], s.db.reports[e.m]);
      StartedRow(env, Load(s.db, e.m), e.caller, e.declared, now, s.store, e.fate);
      RequestCommits(env, s, e, now, commits, initial);
      StartAnswers(env, s, e, now, commits);
    } else {
      UnseenIsRefused(env, s, e, now, commits);
    }
    hide Inv, RowOk;
  }

  /** New signatures are given to the author of an upload in progress, for the slots that it
      was started with. */
  lemma ResumedIff(env: Env, row: Row, caller: User, fate: StoreFate)
    requires env.partSize > 0
    ensures var r := ResumeUpload(env, row, caller, fate);
            && (r.Ok? <==>
                  && row.createdBy == caller.id && row.status == Uploading && row.uploadId.Some? && row.audioKey.Some?
                  && row.audioBytes.Some? && row.audioBytes.value > 0
                  && PartCountFor(row.audioBytes.value, env.partSize).Ok? && fate == Answers)
            && (r.Ok? ==>
                  && r.value.uploadId == row.uploadId.value && r.value.partSize == env.partSize
                  && r.value.count == PartCountFor(row.audioBytes.value, env.partSize).value)
  {
    hide PartCountFor;
  }

  /** The object a finish would leave, if the store agrees to put it together. */
  function Whole(s: Server, e: Event): Option<Bytes>
    requires e.Finish? && e.m in s.db.rows && s.db.rows[e.m].audioKey.Some?
  {
    var key := s.db.rows[e.m].audioKey.value;
    var done := Complete(s.store, key, e.uploadId, e.tags);
    if done.Some? then Some(done.value.objects[key]) else None
  }

  /** The author finishes an upload that is whole and of the declared size; the meeting is
      queued exactly when there is no quota, nothing to pay for, or enough left of it. */
  lemma FinishedIff(env: Env, s: Server, e: Event, now: int, commits: bool, initial: nat)
    requires env.partSize > 0 && Inv(s, initial) && e.Finish?
    ensures var o := Step(env, s, e, now, commits);
            && (o.reply.Ok? <==>
                  && e.m in s.db.rows && s.db.rows[e.m].createdBy == e.caller.id && s.db.rows[e.m].status == Uploading
                  && s.db.rows[e.m].audioKey.Some? && Whole(s, e).Some?
                  && (s.db.rows[e.m].audioBytes.Some? ==> |Whole(s, e).value| == s.db.rows[e.m].audioBytes.value)
                  && e.fate == Answers && commits)
            && (o.reply.Ok? ==>
                  && e.m in o.server.db.rows
                  && var org, row := s.db.org, o.server.db.rows[e.m];
                     && row.purgeAt == Some(now + org.retention) && row.status in {Queued, QuotaHold}
                     && row.duration == s.db.rows[e.m].duration
                     && (row.status == Queued <==>
                           org.quota.None? || row.duration == 0 || org.consumed + row.duration <= org.quota.value))
  {
    hide Inv, Step, Finalize, Unique, Keeps, Elsewhere, Complete, Safe, Whole;
    if e.m in s.db.rows && Visible(s.db, e.m, e.caller) {
      RequestCommits(env, s, e, now, commits, initial);
      FinishNeedsParts(s, e, initial);
      R.FinalizeDates(Load(s.db, e.m), s.db.org, e.caller, e.uploadId, e.tags, now, s.store, e.fate, e.deletion);
      FinalizedIff(Load(s.db, e.m), s.db.org, e, now, s.store);
      WholeIs(s, e);
    } else {
      UnseenIsRefused(env, s, e, now, commits);
    }
  }

  lemma WholeIs(s: Server, e: Event)
    requires e.Finish? && e.m in s.db.rows
    ensures s.db.rows[e.m].audioKey.Some? ==>
              var key := s.db.rows[e.m].audioKey.value;
              var done := Complete(s.store, key, e.uploadId, e.tags);
              && (Whole(s, e).Some? <==> done.Some?)
              && (done.Some? ==> key in done.value.objects && Whole(s, e).value == done.value.objects[key])
  {
  }

  lemma FinishNeedsParts(s: Server, e: Event, initial: nat)
    requires Inv(s, initial) && e.Finish? && e.m in s.db.rows
    ensures var row := s.db.rows[e.m];
            row.audioKey.Some? && Complete(s.store, row.audioKey.value, e.uploadId, e.tags).Some? ==>
              row.status in {Uploading, Cancelled, Deleted}
  {
    var row := s.db.rows[e.m];
    assert RowOk(s.db.org.id, e.m, row, s.db.transcripts[e.m], s.db.reports[e.m]);
    assert Named(s.db.org.id, e.m, row, s.store);
    hide Inv;
    if row.audioKey.Some? && Complete(s.store, row.audioKey.value, e.uploadId, e.tags).Some? {
      CompleteNeedsParts(s.store, row.audioKey.value, e.uploadId, e.tags);
      assert HasParts(s.store.uploads[e.uploadId], AudioKey(s.db.org.id, e.m));
    }
  }

  /** The service alone; a size that differs takes the object out of the store again. */
  lemma FinalizedIff(d: Draft, org: Organization, e: Event, now: int, store: StoreState)
    requires e.Finish? && (d.row.audioKey.Some? && Complete(store, d.row.audioKey.value, e.uploadId, e.tags).Some? ==>
                             d.row.status in {Uploading, Cancelled, Deleted})
    ensures var a := Finalize(d, org, e.caller, e.uploadId, e.tags, now, store, e.fate, e.deletion);
            && (a.result.Ok? <==>
                  && d.row.createdBy == e.caller.id && d.row.status == Uploading
                  && d.row.audioKey.Some? && e.fate == Answers
                  && var done := Complete(store, d.row.audioKey.value, e.uploadId, e.tags);
                     && done.Some?
                     && (d.row.audioBytes.Some? ==>
                           |done.value.objects[d.row.audioKey.value]| == d.row.audioBytes.value))
            && (a.result == Err(Forbidden) <==> d.row.createdBy != e.caller.id)
            && (a.result == Err(SizeMismatch) <==>
                  && d.row.createdBy == e.caller.id && d.row.audioKey.Some? && e.fate == Answers && e.deletion == Answers
                  && var done := Complete(store, d.row.audioKey.value, e.uploadId, e.tags);
                     && done.Some? && d.row.audioBytes.Some?
                     && |done.value.objects[d.row.audioKey.value]| != d.row.audioBytes.value)
            && (a.result == Err(SizeMismatch) ==>
                  d.row.audioKey.value !in a.store.objects && e.uploadId !in a.store.uploads)
  {
    hide Assemble, SortByNumber;
  }

  /** Only the author cancels, and only what is not queued yet; an abort the store answers
      clears the upload, and any other is no obstacle unless it breaks the request. */
  lemma CancelledIff(env: Env, s: Server, e: Event, now: int, commits: bool, initial: nat)
    requires env.partSize > 0 && Inv(s, initial) && e.Cancel?
    ensures var o := Step(env, s, e, now, commits);
            && (o.reply.Ok? <==>
                  && e.m in s.db.rows && s.db.rows[e.m].createdBy == e.caller.id
                  && s.db.rows[e.m].status in {Created, Uploading, QuotaHold}
                  && !(s.db.rows[e.m].uploadId.Some? && e.fate.Breaks?) && commits)
            && (o.reply.Ok? ==>
                  && e.m in o.server.db.rows
                  && var before, row := s.db.rows[e.m], o.server.db.rows[e.m];
                     && row.status == Cancelled && row.audioKey == before.audioKey
                     && (row.uploadId.Some? <==>
                           before.uploadId.Some? && (e.fate != Answers || before.uploadId.value !in s.store.uploads)))
  {
    hide Step, Unique;
    if e.m in s.db.rows && Visible(s.db, e.m, e.caller) {
      assert RowOk(s.db.org.id, e.m, s.db.rows[e.m], s.db.transcripts[e.m], s.db.reports[e.m]);
      RequestCommits(env, s, e, now, commits, initial);
    } else {
      UnseenIsRefused(env, s, e, now, commits);
    }
    hide Inv, RowOk;
  }

  /** The author or an administrator deletes, anything but what is cancelled or deleted. */
  lemma RemovedIff(env: Env, s: Server, e: Event, now: int, commits: bool, initial: nat)
    requires env.partSize > 0 && Inv(s, initial) && e.Remove?
    ensures var o := Step(env, s, e, now, commits);
            && (o.reply.Ok? <==>
                  && e.m in s.db.rows && (s.db.rows[e.m].createdBy == e.caller.id || e.caller.administrator)
                  && s.db.rows[e.m].status !in {Cancelled, Deleted} && commits)
            && (o.reply.Ok? ==>
                  e.m in o.server.db.rows && o.server.db.rows[e.m] == s.db.rows[e.m].(status := Deleted))
  {
    hide Inv, Step, Unique;
    if e.m in s.db.rows && Visible(s.db, e.m, e.caller) {
      RequestCommits(env, s, e, now, commits, initial);
    } else {
      UnseenIsRefused(env, s, e, now, commits);
    }
  }

  /** They retry what failed, if its transcript or its audio is still there: with a transcript
      it goes back to analysis, otherwise to the queue. */
  lemma RetriedIff(env: Env, s: Server, e: Event, now: int, commits: bool, initial: nat)
    requires env.partSize > 0 && Inv(s, initial) && e.Retry?
    ensures var o := Step(env, s, e, now, commits);
            && (o.reply.Ok? <==>
                  && e.m in s.db.rows && (s.db.rows[e.m].createdBy == e.caller.id || e.caller.administrator)
                  && s.db.rows[e.m].status == Failed
                  && (s.db.transcripts[e.m] > 0 || s.db.rows[e.m].audioKey.Some?) && commits)
            && (o.reply.Ok? ==>
                  && e.m in o.server.db.rows
                  && o.server.db.rows[e.m]
                     == s.db.rows[e.m].(status := if s.db.transcripts[e.m] > 0 then Analyzing else Queued,
                                        failedReason := None))
  {
    hide Inv, Step, Unique;
    if e.m in s.db.rows && Visible(s.db, e.m, e.caller) {
      RequestCommits(env, s, e, now, commits, initial);
    } else {
      UnseenIsRefused(env, s, e, now, commits);
    }
  }

  // ------------------------------------------------------------ the stages

  /** The audio of a queued meeting, where the store can be reached and has it. */
  predicate AudioThere(s: Server, e: Event)
    requires e.Transcribe? && e.m in s.db.rows
  {
    e.reachable && s.db.rows[e.m].audioKey.Some? && s.db.rows[e.m].audioKey.value in s.store.objects
  }

  predicate DigestRight(env: Env, s: Server, e: Event)
    requires e.Transcribe? && e.m in s.db.rows && AudioThere(s, e)
  {
    s.db.rows[e.m].audioSha.None?
    || env.hash(s.store.objects[s.db.rows[e.m].audioKey.value]) == s.db.rows[e.m].audioSha.value
  }

  /** A queued meeting is transcribed exactly when its audio is there, has the declared digest
      and some supplier answers; its row then has the duration that was measured, if one was.
      Without the audio, or with another digest, it fails and says so. */
  lemma TranscribedIff(env: Env, s: Server, e: Event, now: int, commits: bool, initial: nat)
    requires env.partSize > 0 && Inv(s, initial) && e.Transcribe? && e.m in s.db.rows && s.db.rows[e.m].status == Queued
    ensures var o := Step(env, s, e, now, commits);
            && (o.reply == Ok(Done) <==>
                  AudioThere(s, e) && DigestRight(env, s, e) && e.heard.Heard? && commits)
            && (o.reply == Ok(Done) ==>
                  && e.m in o.server.db.rows && o.server.db.transcripts[e.m] == 1
                  && o.server.db.rows[e.m]
                     == s.db.rows[e.m].(status := Analyzing,
                                        duration := if e.heard.duration != 0 then e.heard.duration
                                                    else s.db.rows[e.m].duration))
            && (o.reply == Ok(MarkedFailed(AudioUnreachable)) <==> !AudioThere(s, e) && commits)
            && (o.reply == Ok(MarkedFailed(ChecksumMismatch)) <==>
                  AudioThere(s, e) && !DigestRight(env, s, e) && commits)
            && (o.reply.Ok? && o.reply.value.MarkedFailed? ==>
                  && e.m in o.server.db.rows
                  && o.server.db.rows[e.m] == s.db.rows[e.m].(status := Failed, failedReason := Some(o.reply.value.code)))
  {
    TranscribeKeeps(env, s, e, now, commits, initial);
    var row, t, r := s.db.rows[e.m], s.db.transcripts[e.m], s.db.reports[e.m];
    assert RowOk(s.db.org.id, e.m, row, t, r);
    TranscribedRow(env, row, now, s.store, e.reachable, e.heard);
    StageCommits(env, s, e, now, commits, initial);
    hide Inv, Step, TranscribeStage, RowOk;
  }

  /** The stage alone, on a queued row with its key. */
  lemma TranscribedRow(env: Env, row: Row, now: int, store: StoreState, reachable: bool, heard: Heard)
    requires row.status == Queued && row.audioKey.Some?
    ensures var t := TranscribeStage(env, Draft(row, []), now, store, reachable, heard);
            var there := reachable && row.audioKey.value in store.objects;
            var right := there && (row.audioSha.None? || env.hash(store.objects[row.audioKey.value]) == row.audioSha.value);
            && (t.Raises? <==> right && heard.RouterFails?)
            && (!there ==> t.Commits? && t.failure == Some(AudioUnreachable) && !t.wrote)
            && (there && !right ==> t.Commits? && t.failure == Some(ChecksumMismatch) && !t.wrote)
            && (right && heard.Heard? ==>
                  && t.Commits? && t.failure.None? && t.wrote
                  && t.draft.row == row.(status := Analyzing,
                                         duration := if heard.duration != 0 then heard.duration else row.duration)
                  && t.draft.trail == [Transition(row.id, Queued, Transcribing)]
                                      + (if heard.fallback then [Transition(row.id, Transcribing, FallbackStt),
                                                                 Transition(row.id, FallbackStt, Analyzing)]
                                         else [Transition(row.id, Transcribing, Analyzing)]))
            && (t.Commits? && t.failure.Some? ==>
                  && t.draft.row == row.(status := Failed, failedReason := t.failure)
                  && t.draft.trail == [Transition(row.id, Queued, Transcribing), Transition(row.id, Transcribing, Failed)])
  {
    var first := [Transition(row.id, Queued, Transcribing)];
    assert [] + first == first;
    assert first + [Transition(row.id, Transcribing, FallbackStt)] + [Transition(row.id, FallbackStt, Analyzing)]
        == first + [Transition(row.id, Transcribing, FallbackStt), Transition(row.id, FallbackStt, Analyzing)];
  }

  /** What no run meets is answered all the same: a queued row without a key, an analysis
      without a transcript. */
  lemma WithoutInputItFails(env: Env, d: Draft, now: int, store: StoreState, reachable: bool, heard: Heard,
                            extracted: Extracted)
    ensures d.row.status == Queued && d.row.audioKey.None? ==>
              TranscribeStage(env, d, now, store, reachable, heard)
              == Commits(Draft(d.row.(status := Failed, failedReason := Some(NoAudio)),
                               d.trail + [Transition(d.row.id, Queued, Failed)]), false, Some(NoAudio))
    ensures d.row.status == Analyzing ==>
              AnalyseStage(d, now, false, extracted)
              == Commits(Draft(d.row.(status := Failed, failedReason := Some(NoTranscript)),
                               d.trail + [Transition(d.row.id, Analyzing, Failed)]), false, Some(NoTranscript))
  {
  }

  /** And the database refuses a second transcript or report whatever the rows say. */
  lemma SecondIsRefused(env: Env, s: Server, e: Event, now: int, commits: bool)
    requires env.partSize > 0 && (e.Transcribe? || e.Analyse?)
    requires if e.Transcribe? then s.db.transcripts[e.m] > 0 else s.db.reports[e.m] > 0
    ensures var o := Step(env, s, e, now, commits);
            && o.reply != Ok(Done) && o.server.store == s.store
            && (o.reply.Err? ==> o.server.db == s.db)
            && (o.reply.Ok? && o.reply.value.MarkedFailed? ==>
                  o.server.db.transcripts == s.db.transcripts && o.server.db.reports == s.db.reports)
  {
    if e.m in s.db.rows && (if e.Transcribe? then s.db.rows[e.m].status == Queued else s.db.rows[e.m].status == Analyzing) {
      assert (s.db.transcripts + multiset{e.m})[e.m] == s.db.transcripts[e.m] + 1;
      assert (s.db.reports + multiset{e.m})[e.m] == s.db.reports[e.m] + 1;
      if e.Transcribe? {
        FailureWroteNothing(TranscribeStage(env, Load(s.db, e.m), now, s.store, e.reachable, e.heard), env, s, e, now);
      } else {
        FailureWroteNothing(AnalyseStage(Load(s.db, e.m), now, s.db.transcripts[e.m] > 0, e.extracted), env, s, e, now);
      }
    }
    hide TranscribeStage, AnalyseStage;
  }

  lemma FailureWroteNothing(t: Staged, env: Env, s: Server, e: Event, now: int)
    requires (e.Transcribe? || e.Analyse?) && e.m in s.db.rows
    requires t == if e.Transcribe? then TranscribeStage(env, Load(s.db, e.m), now, s.store, e.reachable, e.heard)
                  else AnalyseStage(Load(s.db, e.m), now, s.db.transcripts[e.m] > 0, e.extracted)
    ensures t.Commits? ==> (t.wrote <==> t.failure.None?)
  {
  }

  lemma StageCommits(env: Env, s: Server, e: Event, now: int, commits: bool, initial: nat)
    requires env.partSize > 0 && Inv(s, initial) && e.Transcribe? && e.m in s.db.rows && s.db.rows[e.m].status == Queued
    ensures var t := TranscribeStage(env, Load(s.db, e.m), now, s.store, e.reachable, e.heard);
            var o := Step(env, s, e, now, commits);
            && (o.reply.Ok? <==> t.Commits? && commits)
            && (o.reply.Ok? ==>
                  && o.reply.value == (if t.failure.Some? then MarkedFailed(t.failure.value) else Done)
                  && e.m in o.server.db.rows && o.server.db.rows[e.m] == t.draft.row
                  && (t.wrote ==> o.server.db.transcripts[e.m] == 1))
  {
    var t := TranscribeStage(env, Load(s.db, e.m), now, s.store, e.reachable, e.heard);
    InvIsUnique(s, initial);
    assert RowOk(s.db.org.id, e.m, s.db.rows[e.m], s.db.transcripts[e.m], s.db.reports[e.m]);
    hide Inv, TranscribeStage, RowOk;
    assert s.db.transcripts[e.m] == 0;
    assert (s.db.transcripts + multiset{e.m})[e.m] == 1;
  }

  /** A meeting in analysis is published exactly when the extraction yields a report; then the
      ledger gains its duration, the total rises by it, and the report is the only one. */
  lemma PublishedIff(env: Env, s: Server, e: Event, now: int, commits: bool, initial: nat)
    requires env.partSize > 0 && Inv(s, initial) && e.Analyse? && e.m in s.db.rows && s.db.rows[e.m].status == Analyzing
    ensures var o := Step(env, s, e, now, commits);
            var seconds := s.db.rows[e.m].duration;
            && (o.reply == Ok(Done) <==> e.extracted.Report? && commits)
            && (o.reply == Ok(Done) ==>
                  && o.server.db.ledger == s.db.ledger + [Entry(e.m, seconds)]
                  && o.server.db.org == s.db.org.(consumed := s.db.org.consumed + seconds)
                  && o.server.db.reports[e.m] == 1 && e.m in o.server.db.rows
                  && o.server.db.rows[e.m] == s.db.rows[e.m].(status := Published, completedAt := Some(now)))
            && (o.reply.Ok? && o.reply != Ok(Done) ==>
                  && e.extracted.ExtractionFails? && o.reply.value == MarkedFailed(Extraction(e.extracted.code))
                  && o.server.db.ledger == s.db.ledger && o.server.db.org == s.db.org && e.m in o.server.db.rows
                  && o.server.db.rows[e.m]
                     == s.db.rows[e.m].(status := Failed, failedReason := Some(Extraction(e.extracted.code))))
            && (o.reply.Err? ==> o.server == s)
  {
    assert RowOk(s.db.org.id, e.m, s.db.rows[e.m], s.db.transcripts[e.m], s.db.reports[e.m]);
    AnalysedRow(Load(s.db, e.m), now, e.extracted);
    AnalysisCommits(env, s, e, now, commits, initial);
    hide AnalyseStage, Inv, RowOk, Step;
  }

  lemma AnalysisCommits(env: Env, s: Server, e: Event, now: int, commits: bool, initial: nat)
    requires env.partSize > 0 && Inv(s, initial) && e.Analyse? && e.m in s.db.rows && s.db.rows[e.m].status == Analyzing
    requires var t := AnalyseStage(Load(s.db, e.m), now, true, e.extracted);
             t.Commits? ==> (t.wrote <==> t.failure.None?)
    ensures var t := AnalyseStage(Load(s.db, e.m), now, true, e.extracted);
            var o := Step(env, s, e, now, commits);
            var seconds := s.db.rows[e.m].duration;
            && (o.reply.Ok? <==> t.Commits? && commits) && (o.reply.Err? ==> o.server == s)
            && (o.reply.Ok? ==>
                  && o.reply.value == (if t.failure.Some? then MarkedFailed(t.failure.value) else Done)
                  && e.m in o.server.db.rows && o.server.db.rows[e.m] == t.draft.row
                  && o.server.db.ledger == s.db.ledger + (if t.wrote then [Entry(e.m, seconds)] else [])
                  && o.server.db.org
                     == (if t.wrote then s.db.org.(consumed := s.db.org.consumed + seconds) else s.db.org)
                  && (t.wrote ==> o.server.db.reports[e.m] == 1))
  {
    InvIsUnique(s, initial);
    assert RowOk(s.db.org.id, e.m, s.db.rows[e.m], s.db.transcripts[e.m], s.db.reports[e.m]);
    hide Inv, AnalyseStage, RowOk;
    assert s.db.transcripts[e.m] == 1 && s.db.reports[e.m] == 0;
    assert (s.db.reports + multiset{e.m})[e.m] == 1;
    assert s.db.ledger + [] == s.db.ledger;
  }

  lemma AnalysedRow(d: Draft, now: int, extracted: Extracted)
    requires d.row.status == Analyzing
    ensures var t := AnalyseStage(d, now, true, extracted);
            && (t.Raises? <==> extracted.ExtractionRaises?)
            && (extracted.Report? ==>
                  t.Commits? && t.wrote && t.failure.None?
                  && t.draft.row == d.row.(status := Published, completedAt := Some(now))
                  && t.draft.trail == d.trail + [Transition(d.row.id, Analyzing, Completed),
                                                 Transition(d.row.id, Completed, Published)])
            && (extracted.ExtractionFails? ==>
                  t.Commits? && !t.wrote && t.failure == Some(Extraction(extracted.code))
                  && t.draft.row == d.row.(status := Failed, failedReason := t.failure))
  {
  }

  // ------------------------------------------------------------ the audit log

  /** What is refused, or rolled back, leaves no trace in the database. */
  lemma RefusedLeavesNoTrace(env: Env, s: Server, e: Event, now: int, commits: bool)
    requires env.partSize > 0
    ensures var o := Step(env, s, e, now, commits);
            o.reply.Err? ==> o.server.db == s.db
  {
    hide StartUpload, Finalize, Abandon, RemoveMeeting, RetryMeeting, TranscribeStage, AnalyseStage, PurgeAll, ListsDue;
    hide Unique, Visible, PutPart;
  }

  /** A request that is accepted adds one entry, from the state the meeting was in to the one
      it is in now. */
  lemma RequestAudits(env: Env, s: Server, e: Event, now: int, commits: bool, initial: nat)
    requires env.partSize > 0 && Inv(s, initial) && Request(e)
    ensures var o := Step(env, s, e, now, commits);
            o.reply.Ok? ==>
              && e.m in s.db.rows && e.m in o.server.db.rows
              && o.server.db.audit
                 == s.db.audit + [Transition(e.m, s.db.rows[e.m].status, o.server.db.rows[e.m].status)]
  {
    if e.m in s.db.rows && Visible(s.db, e.m, e.caller) {
      assert RowOk(s.db.org.id, e.m, s.db.rows[e.m], s.db.transcripts[e.m], s.db.reports[e.m]);
      assert s.db.rows[e.m].id == e.m;
      ServiceAudits(env, s, e, now);
      RequestCommits(env, s, e, now, commits, initial);
      RequestIsService(env, s, e, now, commits);
    } else {
      UnseenIsRefused(env, s, e, now, commits);
    }
    hide Inv, Step, ServiceOf, Unique, RowOk;
  }

  lemma ServiceAudits(env: Env, s: Server, e: Event, now: int)
    requires env.partSize > 0 && Request(e) && e.m in s.db.rows
    ensures var a := ServiceOf(env, s, e, now);
            var row := s.db.rows[e.m];
            a.result.Ok? ==> a.result.value.trail == [Transition(row.id, row.status, a.result.value.row.status)]
  {
    hide PartCountFor, Complete, StartMultipart, Abort, AbortFate, CanAfford;
  }

  /** A transcription adds its two moves, or three with a fallback; a publication its two. */
  lemma StageAudits(env: Env, s: Server, e: Event, now: int, commits: bool, initial: nat)
    requires env.partSize > 0 && Inv(s, initial) && (e.Transcribe? || e.Analyse?) && e.m in s.db.rows
    requires s.db.rows[e.m].status == if e.Transcribe? then Queued else Analyzing
    ensures var o := Step(env, s, e, now, commits);
            o.reply == Ok(Done) ==>
              o.server.db.audit == s.db.audit
                + (if e.Analyse? then [Transition(e.m, Analyzing, Completed), Transition(e.m, Completed, Published)]
                   else [Transition(e.m, Queued, Transcribing)]
                        + (if e.heard.Heard? && e.heard.fallback then [Transition(e.m, Transcribing, FallbackStt),
                                                                       Transition(e.m, FallbackStt, Analyzing)]
                           else [Transition(e.m, Transcribing, Analyzing)]))
  {
    hide TranscribeStage, AnalyseStage, Unique;
    var row := s.db.rows[e.m];
    assert RowOk(s.db.org.id, e.m, row, s.db.transcripts[e.m], s.db.reports[e.m]);
    assert row.id == e.m && (row.status == Queued ==> row.audioKey.Some?);
    assert row.status == Analyzing ==> s.db.transcripts[e.m] > 0;
    hide Inv, RowOk;
    if e.Transcribe? {
      TranscribedRow(env, row, now, s.store, e.reachable, e.heard);
    } else {
      AnalysedRow(Load(s.db, e.m), now, e.extracted);
    }
  }

  // ------------------------------------------------------------ the sweep

  /** A row that was purged names nothing in the store any more and says since when; of the
      states only PUBLISHED changes. */
  ghost predicate Became(before: Row, after: Row, purged: bool, now: int) {
    if purged then
      after == before.(status := if before.status == Published then AudioPurged else before.status,
                       audioKey := None, uploadId := after.uploadId, purgedAt := Some(now))
    else after == before.(uploadId := after.uploadId)
  }

  lemma OneBecame(row: Row, now: int, store: StoreState, fates: (StoreFate, StoreFate))
    requires row.status in {Published, Failed, Cancelled, Deleted}
    ensures var one := PurgeOne(row, now, store, fates);
            one.result.Ok? ==> Became(row, one.result.value.draft.row, one.result.value.purged, now)
  {
  }

  lemma {:induction false} RowsBecame(
      db: Db, order: seq<nat>, now: int, store: StoreState, fates: nat -> (StoreFate, StoreFate))
    requires forall i, j :: 0 <= i < j < |order| ==> order[i] != order[j]
    ensures var a := PurgeAll(db, order, now, store, fates);
            a.result.Ok? ==>
              && (forall m :: m in a.result.value.1 ==> m in order)
              && (forall m :: m in db.rows ==>
                    && m in a.result.value.0.rows
                    && Became(db.rows[m], a.result.value.0.rows[m], m in a.result.value.1, now))
    decreases |order|
  {
    if order != [] {
      var m, tail := order[0], order[1..];
      assert m !in tail;
      if m !in db.rows || !DueForPurge(db.rows[m], now) {
        RowsBecame(db, tail, now, store, fates);
      } else {
        var one := PurgeOne(db.rows[m], now, store, fates(m));
        OneBecame(db.rows[m], now, store, fates(m));
        hide PurgeOne, DueForPurge;
        if one.result.Ok? {
          RowsBecame(Save(db, m, one.result.value.draft), tail, now, one.store, fates);
        }
      }
    }
  }

  /** The moves a sweep makes: of what it purged, the published meetings, in its order. */
  function SweptTrail(rows: map<nat, Row>, ids: seq<nat>): seq<Transition>
    requires forall m :: m in ids ==> m in rows
  {
    if ids == [] then []
    else
      (if rows[ids[0]].status == Published then [Transition(rows[ids[0]].id, Published, AudioPurged)] else [])
      + SweptTrail(rows, ids[1..])
  }

  lemma {:induction false} TrailAlike(a: map<nat, Row>, b: map<nat, Row>, ids: seq<nat>)
    requires forall m :: m in ids ==> m in a && m in b && a[m] == b[m]
    ensures SweptTrail(a, ids) == SweptTrail(b, ids)
  {
    if ids != [] {
      TrailAlike(a, b, ids[1..]);
    }
  }

  lemma OneAudits(row: Row, now: int, store: StoreState, fates: (StoreFate, StoreFate))
    requires row.status in {Published, Failed, Cancelled, Deleted}
    ensures var one := PurgeOne(row, now, store, fates);
            one.result.Ok? ==>
              one.result.value.draft.trail
              == if one.result.value.purged && row.status == Published then [Transition(row.id, Published, AudioPurged)]
                 else []
  {
  }

  lemma OneMoreSwept(db: Db, m: nat, swept: Swept, ids: seq<nat>)
    requires m in db.rows && m !in ids && (forall k :: k in ids ==> k in db.rows)
    requires swept.draft.trail
             == if swept.purged && db.rows[m].status == Published
                then [Transition(db.rows[m].id, Published, AudioPurged)] else []
    ensures var next := Save(db, m, swept.draft);
            next.audit + SweptTrail(next.rows, ids)
            == db.audit + SweptTrail(db.rows, (if swept.purged then [m] else []) + ids)
  {
    TrailAlike(Save(db, m, swept.draft).rows, db.rows, ids);
    var all := (if swept.purged then [m] else []) + ids;
    assert swept.purged ==> all[0] == m && all[1..] == ids;
    assert !swept.purged ==> all == ids;
    assert db.audit + swept.draft.trail + SweptTrail(db.rows, ids)
        == db.audit + (swept.draft.trail + SweptTrail(db.rows, ids));
  }

  lemma {:induction false} SweepAudits(
      db: Db, order: seq<nat>, now: int, store: StoreState, fates: nat -> (StoreFate, StoreFate))
    requires forall i, j :: 0 <= i < j < |order| ==> order[i] != order[j]
    ensures var a := PurgeAll(db, order, now, store, fates);
            a.result.Ok? ==>
              && (forall m :: m in a.result.value.1 ==> m in order && m in db.rows)
              && a.result.value.0.audit == db.audit + SweptTrail(db.rows, a.result.value.1)
    decreases |order|
  {
    if order != [] {
      var m, tail := order[0], order[1..];
      assert m !in tail;
      if m !in db.rows || !DueForPurge(db.rows[m], now) {
        SweepAudits(db, tail, now, store, fates);
      } else {
        var one := PurgeOne(db.rows[m], now, store, fates(m));
        OneAudits(db.rows[m], now, store, fates(m));
        hide PurgeOne, DueForPurge;
        if one.result.Ok? {
          var next := Save(db, m, one.result.value.draft);
          SweepAudits(next, tail, now, one.store, fates);
          var rest := PurgeAll(next, tail, now, one.store, fates);
          if rest.result.Ok? {
            hide PurgeAll;
            assert forall k :: k in rest.result.value.1 ==> k in tail && k != m;
            OneMoreSwept(db, m, one.result.value, rest.result.value.1);
          }
        }
      }
    }
  }

  /** A committed sweep purges exactly the due meetings whose upload, if the row names one, the
      store still has, and for which both calls are answered. */
  lemma PurgedIff(env: Env, s: Server, e: Event, now: int, commits: bool, initial: nat)
    requires env.partSize > 0 && Inv(s, initial) && e.Purge?
    ensures var o := Step(env, s, e, now, commits);
            o.reply.Ok? ==>
              && o.reply.value.Purged?
              && forall m :: m in s.db.rows ==>
                   && m in o.server.db.rows
                   && (m in o.reply.value.ids <==>
                         DueForPurge(s.db.rows[m], now) && R.Goes(s.db.rows[m], s.store, e.fates(m)))
                   && Became(s.db.rows[m], o.server.db.rows[m], m in o.reply.value.ids, now)
                   && (m in o.reply.value.ids ==>
                         o.server.db.rows[m].uploadId.None? && AudioKey(s.db.org.id, m) !in o.server.store.objects)
    ensures var o := Step(env, s, e, now, commits);
            o.reply.Ok? ==>
              && (forall m :: m in o.reply.value.ids ==> m in s.db.rows)
              && o.server.db.audit == s.db.audit + SweptTrail(s.db.rows, o.reply.value.ids)
  {
    hide Inv, PurgeAll, DueForPurge, Unique, R.Goes, Became, SweptTrail;
    var o := Step(env, s, e, now, commits);
    if o.reply.Ok? {
      SweepAudits(s.db, e.order, now, s.store, e.fates);
      R.OnceEach(s.db, e.order, now);
      RowsBecame(s.db, e.order, now, s.store, e.fates);
      R.SweepPurgesIff(s.db, e.order, now, s.store, e.fates, initial);
      PurgeKeeps(s.db, e.order, now, s.store, e.fates, initial);
    }
  }

  // ------------------------------------------------------------ what was measured is what is billed

  /** A meeting with its transcript, and what it will be billed. */
  ghost predicate Settled(s: Server, m: nat, seconds: nat) {
    m in s.db.rows && s.db.transcripts[m] == 1 && s.db.rows[m].duration == seconds
  }

  lemma ServiceSettles(env: Env, s: Server, e: Event, now: int, initial: nat)
    requires env.partSize > 0 && Inv(s, initial) && Request(e) && e.m in s.db.rows && s.db.transcripts[e.m] == 1
    ensures var a := ServiceOf(env, s, e, now);
            a.result.Ok? ==> a.result.value.row.duration == s.db.rows[e.m].duration
  {
    assert RowOk(s.db.org.id, e.m, s.db.rows[e.m], s.db.transcripts[e.m], s.db.reports[e.m]);
    assert s.db.rows[e.m].status != Created;
    hide Inv, RowOk;
    match e
    case Start(_, caller, f, fate) => LateStart(env, Load(s.db, e.m), caller, f, now, s.store, fate);
    case Finish(_, caller, u, tags, fate, deletion) =>
      R.FinalizeDates(Load(s.db, e.m), s.db.org, caller, u, tags, now, s.store, fate, deletion);
      hide Finalize;
    case Cancel(_, _, _) => hide AbortFate;
    case Remove(_, _) =>
    case Retry(_, _) =>
  }

  lemma LateStart(env: Env, d: Draft, caller: User, f: Declared, now: int, store: StoreState, fate: StoreFate)
    requires env.partSize > 0 && d.row.status != Created
    ensures StartUpload(env, d, caller, f, now, store, fate).result.Err?
  {
  }

  lemma RequestSettles(env: Env, s: Server, e: Event, now: int, commits: bool, m: nat, seconds: nat, initial: nat)
    requires env.partSize > 0 && Inv(s, initial) && Request(e) && Settled(s, m, seconds)
    ensures Settled(Step(env, s, e, now, commits).server, m, seconds)
  {
    if Visible(s.db, e.m, e.caller) {
      RequestIsService(env, s, e, now, commits);
      if e.m == m {
        ServiceSettles(env, s, e, now, initial);
      }
    } else {
      UnseenIsRefused(env, s, e, now, commits);
    }
    hide Inv, Step, ServiceOf, Unique;
  }

  lemma {:induction false} SweepSettles(
      db: Db, order: seq<nat>, now: int, store: StoreState, fates: nat -> (StoreFate, StoreFate), m: nat)
    requires m in db.rows
    ensures var a := PurgeAll(db, order, now, store, fates);
            a.result.Ok? ==>
              && m in a.result.value.0.rows && a.result.value.0.rows[m].duration == db.rows[m].duration
              && a.result.value.0.transcripts == db.transcripts
    decreases |order|
  {
    if order != [] {
      if order[0] !in db.rows || !DueForPurge(db.rows[order[0]], now) {
        SweepSettles(db, order[1..], now, store, fates, m);
      } else {
        var one := PurgeOne(db.rows[order[0]], now, store, fates(order[0]));
        if one.result.Ok? {
          SweepSettles(Save(db, order[0], one.result.value.draft), order[1..], now, one.store, fates, m);
        }
      }
    }
  }

  lemma WorkerSettles(env: Env, s: Server, e: Event, now: int, commits: bool, m: nat, seconds: nat, initial: nat)
    requires env.partSize > 0 && Inv(s, initial) && (e.Transcribe? || e.Analyse?) && Settled(s, m, seconds)
    ensures Settled(Step(env, s, e, now, commits).server, m, seconds)
  {
    assert RowOk(s.db.org.id, m, s.db.rows[m], s.db.transcripts[m], s.db.reports[m]);
    assert s.db.rows[m].status != Queued;
    hide Inv, RowOk;
    if e.m != m || e.Transcribe? {
      WorkerElsewhere(env, s, e, now, commits, m);
      hide Step;
    } else if s.db.rows[m].status == Analyzing {
      AnalysedRow(Load(s.db, m), now, e.extracted);
      hide AnalyseStage, Unique;
    }
  }

  lemma WorkerElsewhere(env: Env, s: Server, e: Event, now: int, commits: bool, m: nat)
    requires env.partSize > 0 && (e.Transcribe? || e.Analyse?) && m in s.db.rows
    requires e.m != m || (e.Transcribe? && s.db.rows[m].status != Queued)
    ensures var db := Step(env, s, e, now, commits).server.db;
            m in db.rows && db.rows[m] == s.db.rows[m] && db.transcripts[m] == s.db.transcripts[m]
  {
    hide TranscribeStage, AnalyseStage, Unique;
  }

  /** Once a meeting has its transcript no event changes its duration. */
  lemma StepSettles(env: Env, s: Server, e: Event, now: int, commits: bool, m: nat, seconds: nat, initial: nat)
    requires env.partSize > 0 && Inv(s, initial) && Settled(s, m, seconds)
    ensures Settled(Step(env, s, e, now, commits).server, m, seconds)
  {
    if Request(e) {
      RequestSettles(env, s, e, now, commits, m, seconds, initial);
      hide Step;
    } else if e.Transcribe? || e.Analyse? {
      WorkerSettles(env, s, e, now, commits, m, seconds, initial);
      hide Step;
    } else if e.Purge? {
      SweepSettles(s.db, e.order, now, s.store, e.fates, m);
      hide PurgeAll, ListsDue, Inv, Unique;
    } else {
      hide Inv, Unique;
    }
  }

  lemma {:induction false} RunSettles(env: Env, s: Server, ticks: seq<Tick>, m: nat, seconds: nat, initial: nat)
    requires env.partSize > 0 && Inv(s, initial) && Settled(s, m, seconds)
    ensures Settled(Run(env, s, ticks), m, seconds) && Inv(Run(env, s, ticks), initial)
    decreases |ticks|
  {
    hide Inv, Step, Settled;
    if ticks != [] {
      var last, before := ticks[|ticks| - 1], Run(env, s, ticks[..|ticks| - 1]);
      RunSettles(env, s, ticks[..|ticks| - 1], m, seconds, initial);
      StepKeeps(env, before, last.event, last.now, last.commits, initial);
      StepSettles(env, before, last.event, last.now, last.commits, m, seconds, initial);
    }
  }

  /** After any run, whatever happens between a transcription and a publication: the ledger
      gains the duration the supplier measured, and the total rises by it. A supplier that
      measured nothing leaves what the desktop declared. */
  lemma MeasuredIsBilled(env: Env, org: Organization, ticks: seq<Tick>, heard: Tick, later: seq<Tick>, published: Tick)
    requires env.partSize > 0 && heard.event.Transcribe? && published.event == Analyse(heard.event.m, Report)
    ensures var s := Run(env, Fresh(org), ticks);
            var first := Step(env, s, heard.event, heard.now, heard.commits);
            var t := Run(env, first.server, later);
            var last := Step(env, t, published.event, published.now, published.commits);
            var m := heard.event.m;
            first.reply == Ok(Done) && last.reply == Ok(Done) ==>
              && m in s.db.rows && heard.event.heard.Heard?
              && var seconds := if heard.event.heard.duration != 0 then heard.event.heard.duration
                                else s.db.rows[m].duration;
                 && last.server.db.ledger == t.db.ledger + [Entry(m, seconds)]
                 && last.server.db.org.consumed == t.db.org.consumed + seconds
  {
    EveryRunKeeps(env, org, ticks);
    hide Run, Inv, TranscribeStage, AnalyseStage, Unique;
    var s := Run(env, Fresh(org), ticks);
    var m := heard.event.m;
    var first := Step(env, s, heard.event, heard.now, heard.commits);
    var t := Run(env, first.server, later);
    var last := Step(env, t, published.event, published.now, published.commits);
    if first.reply == Ok(Done) && last.reply == Ok(Done) {
      NotSkipped(env, s, heard.event, heard.now, heard.commits);
      NotSkipped(env, t, published.event, published.now, published.commits);
      hide Step;
      TranscribedIff(env, s, heard.event, heard.now, heard.commits, org.consumed);
      StepKeeps(env, s, heard.event, heard.now, heard.commits, org.consumed);
      RunSettles(env, first.server, later, m, first.server.db.rows[m].duration, org.consumed);
      PublishedIff(env, t, published.event, published.now, published.commits, org.consumed);
    }
  }

  lemma NotSkipped(env: Env, s: Server, e: Event, now: int, commits: bool)
    requires env.partSize > 0 && (e.Transcribe? || e.Analyse?) && Step(env, s, e, now, commits).reply == Ok(Done)
    ensures e.m in s.db.rows && s.db.rows[e.m].status == if e.Transcribe? then Queued else Analyzing
  {
    hide TranscribeStage, AnalyseStage, Unique;
  }
}
